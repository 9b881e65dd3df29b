/** JavaScript value and string semantics that the route handlers and the
    gateway service rely on: truthiness, `replace(/\D/g, '')`, the `\s`
    class, `trim()`, `split(' ')`, `join(' ')`, decimal rendering,
    `padStart(2, '0')`, `parseInt` and ASCII `toUpperCase()`. */
module JsText {

  datatype Option<T> = None | Some(value: T)

  function Min(a: int, b: int): int { if a < b then a else b }

  function Max(a: int, b: int): int { if a < b then b else a }

  datatype Result<T, E> = Ok(value: T) | Err(error: E)

  /** A value read from a parsed JSON body or an object field.  Arrays are
      not distinguished from other objects. */
  datatype Value = Undefined | Null | Bool(b: bool) | Num(n: real) | Str(s: string) | Obj

  /** What a `throw` carries: an `Error` instance with its message, or
      something that is not an `Error`. */
  datatype Thrown = ErrorObject(message: string) | NonError

  /** JavaScript truthiness (`!!v`). */
  predicate Truthy(v: Value) {
    match v
    case Undefined => false
    case Null => false
    case Bool(b) => b
    case Num(n) => n != 0.0
    case Str(s) => s != ""
    case Obj => true
  }

  /** Truthiness of an optional string field (absent, null or a string). */
  predicate Present(t: Option<string>) {
    t.Some? && t.value != ""
  }

  /** `t || fallback` for an optional string. */
  function OrElse(t: Option<string>, fallback: string): (r: string)
    ensures Present(t) ==> r == t.value
    ensures !Present(t) ==> r == fallback
  {
    if Present(t) then t.value else fallback
  }

  // ---------------------------------------------------------------------
  // Digits and `replace(/\D/g, '')`

  predicate IsDigit(c: char) {
    '0' <= c <= '9'
  }

  predicate AllDigits(s: string) {
    forall i :: 0 <= i < |s| ==> IsDigit(s[i])
  }

  /** `s.replace(/\D/g, '')`: the digits of `s`, in order. */
  function StripNonDigits(s: string): (r: string)
    ensures AllDigits(r)
    ensures |r| <= |s|
  {
    if s == [] then []
    else
      var rest := StripNonDigits(s[1..]);
      if IsDigit(s[0]) then [s[0]] + rest else rest
  }

  /** Stripping keeps every digit of `s`, as many times as it occurs. */
  lemma {:induction false} StripNonDigitsKeepsDigits(s: string)
    ensures forall c :: IsDigit(c) ==> multiset(StripNonDigits(s))[c] == multiset(s)[c]
  {
    if s != [] {
      StripNonDigitsKeepsDigits(s[1..]);
      assert s == [s[0]] + s[1..];
    }
  }

  /** A string with no non-digit is left unchanged. */
  lemma {:induction false} StripNonDigitsOfDigits(s: string)
    requires AllDigits(s)
    ensures StripNonDigits(s) == s
  {
    if s != [] {
      StripNonDigitsOfDigits(s[1..]);
    }
  }

  /** Stripping twice is stripping once. */
  lemma StripNonDigitsIdempotent(s: string)
    ensures StripNonDigits(StripNonDigits(s)) == StripNonDigits(s)
  {
    StripNonDigitsOfDigits(StripNonDigits(s));
  }

  /** Stripping distributes over concatenation. */
  lemma {:induction false} StripNonDigitsAppend(a: string, b: string)
    ensures StripNonDigits(a + b) == StripNonDigits(a) + StripNonDigits(b)
  {
    if a != [] {
      assert (a + b)[1..] == a[1..] + b;
      StripNonDigitsAppend(a[1..], b);
    } else {
      assert a + b == b;
    }
  }

  // ---------------------------------------------------------------------
  // White space: the `\s` class of regular expressions and `trim()`

  /** ECMAScript WhiteSpace and LineTerminator code points, the set shared
      by `\s` and `String.prototype.trim`. */
  predicate IsJsSpace(c: char) {
    c in JsSpaceChars || '\U{2000}' <= c <= '\U{200A}'
  }

  /** The white-space code points outside the U+2000 to U+200A range. */
  const JsSpaceChars: set<char> :=
    {'\t', '\n', '\U{B}', '\U{C}', '\r', ' ', '\U{A0}', '\U{1680}',
     '\U{2028}', '\U{2029}', '\U{202F}', '\U{205F}', '\U{3000}', '\U{FEFF}'}

  predicate AllSpace(s: string) {
    forall i :: 0 <= i < |s| ==> IsJsSpace(s[i])
  }

  lemma AllSpaceCons(c: char, s: string)
    requires IsJsSpace(c) && AllSpace(s)
    ensures AllSpace([c] + s)
  {
    assert forall i :: 0 < i <= |s| ==> ([c] + s)[i] == s[i - 1];
  }

  lemma AllSpaceSnoc(s: string, c: char)
    requires AllSpace(s) && IsJsSpace(c)
    ensures AllSpace(s + [c])
  {
    assert forall i :: 0 <= i < |s| ==> (s + [c])[i] == s[i];
  }

  /** `trimStart()`. */
  function TrimStart(s: string): (r: string)
    ensures |r| <= |s| && r == s[|s| - |r|..]
    ensures AllSpace(s[..|s| - |r|])
    ensures r == [] || !IsJsSpace(r[0])
  {
    if s != [] && IsJsSpace(s[0]) then
      var p := s[1..];
      var r := TrimStart(p);
      assert s[..|s| - |r|] == [s[0]] + p[..|p| - |r|];
      AllSpaceCons(s[0], p[..|p| - |r|]);
      r
    else s
  }

  /** `trimEnd()`. */
  function TrimEnd(s: string): (r: string)
    ensures |r| <= |s| && r == s[..|r|]
    ensures AllSpace(s[|r|..])
    ensures r == [] || !IsJsSpace(r[|r| - 1])
  {
    if s != [] && IsJsSpace(s[|s| - 1]) then
      var p := s[..|s| - 1];
      var r := TrimEnd(p);
      assert s[|r|..] == p[|r|..] + [s[|s| - 1]];
      AllSpaceSnoc(p[|r|..], s[|s| - 1]);
      r
    else s
  }

  /** `trim()`: `s` without its leading and trailing white space. */
  function Trim(s: string): (r: string)
    ensures exists i, j :: 0 <= i <= j <= |s| && r == s[i..j] && AllSpace(s[..i]) && AllSpace(s[j..])
    ensures r == [] || (!IsJsSpace(r[0]) && !IsJsSpace(r[|r| - 1]))
  {
    var t := TrimStart(s);
    var r := TrimEnd(t);
    TrimIsSlice(s, t, r);
    var i := |s| - |t|;
    assert r == s[i..i + |r|] && AllSpace(s[..i]) && AllSpace(s[i + |r|..]);
    r
  }

  /** Trimming the end of a trimmed start leaves a slice of the original
      with white space only around it. */
  lemma TrimIsSlice(s: string, t: string, r: string)
    requires |t| <= |s| && t == s[|s| - |t|..] && AllSpace(s[..|s| - |t|])
    requires |r| <= |t| && r == t[..|r|] && AllSpace(t[|r|..])
    ensures var i := |s| - |t|;
      r == s[i..i + |r|] && AllSpace(s[..i]) && AllSpace(s[i + |r|..])
  {
    var i := |s| - |t|;
    assert s[i + |r|..] == t[|r|..];
  }

  /** A string with no white space at either end is its own trim. */
  lemma TrimOfTrimmed(s: string)
    requires s == [] || (!IsJsSpace(s[0]) && !IsJsSpace(s[|s| - 1]))
    ensures Trim(s) == s
  {
  }

  // ---------------------------------------------------------------------
  // `split(' ')` and `join(sep)`

  /** `s.split(' ')`: the pieces between single spaces, empty ones kept. */
  function Split(s: string): (parts: seq<string>)
    ensures |parts| >= 1
    ensures forall k :: 0 <= k < |parts| ==> ' ' !in parts[k]
    ensures |parts| == 1 <==> ' ' !in s
    ensures |parts| == 1 ==> parts[0] == s
  {
    if s == [] then [""]
    else
      var rest := Split(s[1..]);
      assert s == [s[0]] + s[1..];
      if s[0] == ' ' then [""] + rest
      else [[s[0]] + rest[0]] + rest[1..]
  }

  /** `parts.join(sep)`. */
  function Join(parts: seq<string>, sep: string): string {
    if |parts| == 0 then ""
    else if |parts| == 1 then parts[0]
    else parts[0] + sep + Join(parts[1..], sep)
  }

  /** Joining the pieces of `split(' ')` with `' '` gives the string back. */
  lemma {:induction false} JoinSplit(s: string)
    ensures Join(Split(s), " ") == s
  {
    if s != [] {
      JoinSplit(s[1..]);
      var rest := Split(s[1..]);
      assert s == [s[0]] + s[1..];
      if s[0] == ' ' {
        var parts := [""] + rest;
        assert Split(s) == parts && parts[1..] == rest;
        assert Join(parts, " ") == "" + " " + Join(rest, " ");
      } else {
        var parts := [[s[0]] + rest[0]] + rest[1..];
        assert Split(s) == parts;
        if |rest| == 1 {
          assert Join(parts, " ") == [s[0]] + rest[0];
        } else {
          assert parts[1..] == rest[1..];
          assert Join(rest, " ") == rest[0] + " " + Join(rest[1..], " ");
          assert Join(parts, " ") == [s[0]] + rest[0] + " " + Join(rest[1..], " ");
        }
      }
    }
  }

  /** `parts.filter(Boolean)` for optional string parts. */
  function PresentParts(parts: seq<Option<string>>): (r: seq<string>)
    ensures |r| <= |parts|
    ensures forall k :: 0 <= k < |r| ==> r[k] != ""
  {
    if parts == [] then []
    else (if Present(parts[0]) then [parts[0].value] else []) + PresentParts(parts[1..])
  }

  // ---------------------------------------------------------------------
  // Decimal rendering (`n.toString()`) and reading it back

  function DigitChar(d: nat): (c: char)
    requires d < 10
    ensures IsDigit(c)
  {
    "0123456789"[d]
  }

  function DigitValue(c: char): (d: nat)
    requires IsDigit(c)
    ensures d < 10
  {
    (c as int) - ('0' as int)
  }

  lemma DigitRoundTrip(d: nat)
    requires d < 10
    ensures DigitValue(DigitChar(d)) == d
  {
  }

  /** `n.toString()` for a non-negative integer: its decimal digits, with
      no leading zero. */
  function NatToString(n: nat): (r: string)
    ensures |r| >= 1 && AllDigits(r)
    ensures n < 10 ==> |r| == 1
    ensures 10 <= n < 100 ==> |r| == 2
    ensures |r| > 1 ==> r[0] != '0'
  {
    if n < 10 then [DigitChar(n)]
    else NatToString(n / 10) + [DigitChar(n % 10)]
  }

  /** `n.toString()` for any integer. */
  function IntToString(n: int): (r: string)
    ensures n >= 0 ==> r == NatToString(n)
    ensures n < 0 ==> r == "-" + NatToString(-n)
  {
    if n >= 0 then NatToString(n) else "-" + NatToString(-n)
  }

  /** The value of a string of decimal digits. */
  function DigitsValue(s: string): nat
    requires AllDigits(s)
  {
    if s == [] then 0
    else DigitsValue(s[..|s| - 1]) * 10 + DigitValue(s[|s| - 1])
  }

  /** Reading the decimal rendering back gives the number. */
  lemma {:induction false} DigitsValueOfNatToString(n: nat)
    ensures DigitsValue(NatToString(n)) == n
  {
    var r := NatToString(n);
    if n < 10 {
      assert r[..|r| - 1] == [];
      DigitRoundTrip(n);
    } else {
      DigitsValueOfNatToString(n / 10);
      assert r[..|r| - 1] == NatToString(n / 10);
      DigitRoundTrip(n % 10);
    }
  }

  /** A leading zero does not change the value. */
  lemma {:induction false} DigitsValueLeadingZero(s: string)
    requires AllDigits(s)
    ensures AllDigits("0" + s) && DigitsValue("0" + s) == DigitsValue(s)
  {
    var z := "0" + s;
    if s != [] {
      assert z[..|z| - 1] == "0" + s[..|s| - 1];
      DigitsValueLeadingZero(s[..|s| - 1]);
    }
  }

  /** `s.padStart(2, '0')`. */
  function PadStart2(s: string): (r: string)
    ensures |s| >= 2 ==> r == s
    ensures |s| == 1 ==> r == "0" + s
    ensures |s| == 0 ==> r == "00"
  {
    if |s| >= 2 then s else if |s| == 1 then "0" + s else "00"
  }

  // ---------------------------------------------------------------------
  // `parseInt(s)` with no radix

  predicate IsHexDigit(c: char) {
    IsDigit(c) || 'a' <= c <= 'f' || 'A' <= c <= 'F'
  }

  function HexDigitValue(c: char): (d: nat)
    requires IsHexDigit(c)
    ensures d < 16
  {
    if IsDigit(c) then DigitValue(c)
    else if 'a' <= c <= 'f' then (c as int) - ('a' as int) + 10
    else (c as int) - ('A' as int) + 10
  }

  /** The longest prefix of `s` whose characters satisfy the digit class of
      `radix` (10 or 16). */
  function DigitPrefix(s: string, hex: bool): (r: string)
    ensures |r| <= |s| && r == s[..|r|]
    ensures forall i :: 0 <= i < |r| ==> (if hex then IsHexDigit(r[i]) else IsDigit(r[i]))
    ensures |r| < |s| ==> !(if hex then IsHexDigit(s[|r|]) else IsDigit(s[|r|]))
  {
    if s != [] && (if hex then IsHexDigit(s[0]) else IsDigit(s[0])) then
      var r := DigitPrefix(s[1..], hex);
      [s[0]] + r
    else []
  }

  function PrefixValue(s: string, hex: bool): nat
    requires forall i :: 0 <= i < |s| ==> (if hex then IsHexDigit(s[i]) else IsDigit(s[i]))
  {
    if s == [] then 0
    else PrefixValue(s[..|s| - 1], hex) * (if hex then 16 else 10)
         + (if hex then HexDigitValue(s[|s| - 1]) else DigitValue(s[|s| - 1]))
  }

  /** A JavaScript number as the pagination code sees it: an integer, an
      infinity or NaN (`-0` is not told apart from `0`). */
  datatype Number = NaN | PlusInfinity | MinusInfinity | Int(v: int)

  /** `parseInt(s)`: skip leading white space, read an optional sign, then a
      `0x`/`0X` prefix switches to base 16; the longest run of digits is
      read, and no digit at all gives NaN. */
  function ParseInt(s: string): (r: Number)
    ensures r.NaN? || r.Int?
  {
    var t := TrimStart(s);
    var negative := |t| > 0 && t[0] == '-';
    var u := if |t| > 0 && (t[0] == '-' || t[0] == '+') then t[1..] else t;
    var hex := |u| >= 2 && u[0] == '0' && (u[1] == 'x' || u[1] == 'X');
    var body := if hex then u[2..] else u;
    var d := DigitPrefix(body, hex);
    if d == [] then NaN
    else
      var v: int := PrefixValue(d, hex);
      Int(if negative then -v else v)
  }

  /** `parseInt` reads the decimal rendering of any natural number back. */
  lemma ParseIntOfNatToString(n: nat)
    ensures ParseInt(NatToString(n)) == Int(n)
  {
    ParseIntOfDigits(NatToString(n));
    DigitsValueOfNatToString(n);
  }

  /** A non-empty run of decimal digits is read as its value. */
  lemma ParseIntOfDigits(s: string)
    requires s != [] && AllDigits(s)
    ensures ParseInt(s) == Int(DigitsValue(s))
  {
    assert IsDigit(s[0]) && !IsJsSpace(s[0]);
    assert TrimStart(s) == s;
    assert |s| >= 2 ==> IsDigit(s[1]);
    DigitPrefixOfAll(s);
    PrefixValueIsDigitsValue(s);
  }

  /** A result of `parseInt`: an integer or `NaN`. */
  type ParsedInt = n: Number | n.NaN? || n.Int? witness NaN

  /** `parseInt(param || fallback)` for a query parameter. */
  function IntParam(param: Option<string>, fallback: string): ParsedInt {
    ParseInt(OrElse(param, fallback))
  }

  /** A falsy parameter reads as its fallback. */
  lemma DefaultIntParam(param: Option<string>, fallback: string, n: nat)
    requires !Present(param) && fallback == NatToString(n)
    ensures IntParam(param, fallback) == Int(n)
  {
    ParseIntOfRendering(OrElse(param, fallback), n);
  }

  /** The same, for a string known to be a rendering. */
  lemma ParseIntOfRendering(s: string, n: nat)
    requires s == NatToString(n)
    ensures ParseInt(s) == Int(n)
  {
    ParseIntOfNatToString(n);
  }

  lemma {:induction false} DigitPrefixOfAll(s: string)
    requires AllDigits(s)
    ensures DigitPrefix(s, false) == s
  {
    if s != [] {
      DigitPrefixOfAll(s[1..]);
      assert s == [s[0]] + s[1..];
    }
  }

  lemma {:induction false} PrefixValueIsDigitsValue(s: string)
    requires AllDigits(s)
    ensures PrefixValue(s, false) == DigitsValue(s)
  {
    if s != [] {
      PrefixValueIsDigitsValue(s[..|s| - 1]);
    }
  }

  // ---------------------------------------------------------------------
  // `toUpperCase()` on ASCII letters

  predicate IsLowerAscii(c: char) {
    'a' <= c <= 'z'
  }

  function UpperAscii(c: char): (u: char)
    ensures !IsLowerAscii(u)
    ensures !IsLowerAscii(c) ==> u == c
  {
    if IsLowerAscii(c) then ((c as int) - 32) as char else c
  }

  /** `s.toUpperCase()`, with case mapping limited to the ASCII letters. */
  function ToUpperAscii(s: string): (r: string)
    ensures |r| == |s|
    ensures forall i :: 0 <= i < |s| ==> r[i] == UpperAscii(s[i])
  {
    if s == [] then [] else [UpperAscii(s[0])] + ToUpperAscii(s[1..])
  }

}
