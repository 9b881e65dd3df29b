/** The configuration self-test (app/api/test/env/route.ts): which of the
    gateway's settings are present, masked previews of the two keys, and the
    list of critical configuration problems. */
module EnvCheckRoute {
  import opened JsText

  const NotDefined := "Não definido"
  const TokenPlaceholder := "YOUR_ACCESS_TOKEN"
  const KeyPlaceholder := "YOUR_PUBLIC_KEY"

  const ProblemsFound := "Problemas críticos encontrados"
  const AllConfigured := "Variáveis de ambiente configuradas corretamente"

  /** The four environment variables read; `None` when unset. */
  datatype Env = Env(accessToken: Option<string>, publicKey: Option<string>, baseUrl: Option<string>, notificationUrl: Option<string>)

  datatype SecretStatus = SecretStatus(defined: bool, length: nat, preview: string)

  datatype UrlStatus = UrlStatus(defined: bool, value: string)

  datatype EnvStatus = EnvStatus(accessToken: SecretStatus, publicKey: SecretStatus, baseUrl: UrlStatus, notificationUrl: UrlStatus)

  /** `v.slice(0, 6) + '...' + v.slice(-4)`. */
  function Mask(v: string): (p: string)
    ensures |p| == Min(6, |v|) + 3 + Min(4, |v|)
    ensures p[..Min(6, |v|)] == v[..Min(6, |v|)]
    ensures p[Min(6, |v|)..Min(6, |v|) + 3] == "..."
    ensures p[Min(6, |v|) + 3..] == v[Max(0, |v| - 4)..]
  {
    var head, tail := v[..Min(6, |v|)], v[Max(0, |v| - 4)..];
    assert (head + "...")[..|head|] == head;
    head + "..." + tail
  }

  /** `{ defined, length, preview }` of a secret setting. */
  function SecretStatusOf(v: Option<string>): (s: SecretStatus)
    ensures s.defined <==> Present(v)
    ensures s.length == (if v.Some? then |v.value| else 0)
    ensures Present(v) ==> s.preview == Mask(v.value)
    ensures !Present(v) ==> s.preview == NotDefined
  {
    if Present(v) then SecretStatus(true, |v.value|, Mask(v.value))
    else SecretStatus(false, if v.Some? then |v.value| else 0, NotDefined)
  }

  function UrlStatusOf(v: Option<string>): (s: UrlStatus)
    ensures s.defined <==> Present(v)
    ensures s.value == OrElse(v, NotDefined)
  {
    UrlStatus(Present(v), OrElse(v, NotDefined))
  }

  function EnvStatusOf(env: Env): EnvStatus {
    EnvStatus(SecretStatusOf(env.accessToken), SecretStatusOf(env.publicKey),
              UrlStatusOf(env.baseUrl), UrlStatusOf(env.notificationUrl))
  }

  /** Reads a value of at most ten characters back from its preview and
      length. */
  function Unmask(preview: string, length: nat): string
    requires length <= 10 && |preview| == Min(6, length) + 3 + Min(4, length)
  {
    if length <= 6 then preview[..length]
    else preview[..6] + preview[|preview| - (length - 6)..]
  }

  /** The mask hides nothing of a value of ten characters or fewer: its
      preview and its reported length give it back entirely. */
  lemma ShortSecretsAreExposed(v: string)
    requires 0 < |v| <= 10
    ensures Unmask(SecretStatusOf(Some(v)).preview, SecretStatusOf(Some(v)).length) == v
  {
    UnmaskMask(v);
  }

  lemma UnmaskMask(v: string)
    requires 0 < |v| <= 10
    ensures |Mask(v)| == Min(6, |v|) + 3 + Min(4, |v|)
    ensures Unmask(Mask(v), |v|) == v
  {
    var p := Mask(v);
    if |v| <= 6 {
      assert p[..|v|] == v;
    } else {
      assert |p| == 13;
      assert p[9..] == v[|v| - 4..];
      assert p[|p| - (|v| - 6)..] == p[9..][10 - |v|..];
      assert p[|p| - (|v| - 6)..] == v[6..];
      assert v == v[..6] + v[6..];
    }
  }

  // ---------------------------------------------------------------------
  // `criticalIssues`

  /** A critical configuration problem. */
  datatype Issue = TokenMissing | TokenDefault | KeyMissing | KeyDefault | BaseUrlMissing
  {
    /** The text pushed onto `criticalIssues`. */
    function Message(): string {
      match this
      case TokenMissing => "MERCADOPAGO_ACCESS_TOKEN não está configurado"
      case TokenDefault => "MERCADOPAGO_ACCESS_TOKEN ainda está com valor padrão"
      case KeyMissing => "NEXT_PUBLIC_MP_PUBLIC_KEY não está configurado"
      case KeyDefault => "NEXT_PUBLIC_MP_PUBLIC_KEY ainda está com valor padrão"
      case BaseUrlMissing => "NEXT_PUBLIC_BASE_URL não está configurado"
    }

    /** The position of the issue's setting in the checklist. */
    function Rank(): nat {
      match this
      case TokenMissing => 0
      case TokenDefault => 0
      case KeyMissing => 1
      case KeyDefault => 1
      case BaseUrlMissing => 2
    }
  }

  /** The issues one key contributes: a missing value, or else its
      placeholder, or nothing. */
  function KeyIssues(v: Option<string>, placeholder: string, missing: Issue, default: Issue): (r: seq<Issue>)
    requires missing != default
    ensures missing in r <==> !Present(v)
    ensures default in r <==> Present(v) && v.value == placeholder
    ensures |r| <= 1
  {
    if !Present(v) then [missing] else if v.value == placeholder then [default] else []
  }

  /** The checklist: the token's issue, the public key's, then a missing
      base URL; the notification URL is never checked. */
  function Checklist(env: Env): seq<Issue> {
    KeyIssues(env.accessToken, TokenPlaceholder, TokenMissing, TokenDefault)
    + KeyIssues(env.publicKey, KeyPlaceholder, KeyMissing, KeyDefault)
    + (if Present(env.baseUrl) then [] else [BaseUrlMissing])
  }

  /** Per key, a missing value or its placeholder is listed (never both),
      then a missing base URL; at most three issues, in checklist order. */
  lemma ChecklistContents(env: Env)
    ensures TokenMissing in Checklist(env) <==> !Present(env.accessToken)
    ensures TokenDefault in Checklist(env) <==> Present(env.accessToken) && env.accessToken.value == TokenPlaceholder
    ensures KeyMissing in Checklist(env) <==> !Present(env.publicKey)
    ensures KeyDefault in Checklist(env) <==> Present(env.publicKey) && env.publicKey.value == KeyPlaceholder
    ensures BaseUrlMissing in Checklist(env) <==> !Present(env.baseUrl)
    ensures RanksIncrease(Checklist(env))
    ensures |Checklist(env)| <= 3
  {
    var token := KeyIssues(env.accessToken, TokenPlaceholder, TokenMissing, TokenDefault);
    var key := KeyIssues(env.publicKey, KeyPlaceholder, KeyMissing, KeyDefault);
    var base: seq<Issue> := if Present(env.baseUrl) then [] else [BaseUrlMissing];
    assert RanksBelow(token, 1) && forall x :: x in token ==> x.Rank() == 0;
    assert forall x :: x in key ==> x.Rank() == 1;
    assert forall x :: x in base ==> x.Rank() == 2;
  }

  /** One key's `if (!v) push(missing) else if (v === placeholder)
      push(default)`. */
  method PushKeyIssue(issues: seq<Issue>, v: Option<string>, placeholder: string, missing: Issue, default: Issue)
    returns (r: seq<Issue>)
    requires missing != default
    ensures r == issues + KeyIssues(v, placeholder, missing, default)
  {
    r := issues;
    if !Present(v) {
      r := r + [missing];
    } else if v.value == placeholder {
      r := r + [default];
    }
  }

  /** The list grown by `push`, one setting after the other, is the
      checklist. */
  method CriticalIssues(env: Env) returns (issues: seq<Issue>)
    ensures issues == Checklist(env)
  {
    issues := [];
    issues := PushKeyIssue(issues, env.accessToken, TokenPlaceholder, TokenMissing, TokenDefault);
    issues := PushKeyIssue(issues, env.publicKey, KeyPlaceholder, KeyMissing, KeyDefault);
    if !Present(env.baseUrl) {
      issues := issues + [BaseUrlMissing];
    }
  }

  predicate RanksIncrease(issues: seq<Issue>) {
    forall i, j :: 0 <= i < j < |issues| ==> issues[i].Rank() < issues[j].Rank()
  }

  predicate RanksBelow(issues: seq<Issue>, bound: nat) {
    forall i :: 0 <= i < |issues| ==> issues[i].Rank() < bound
  }

  /** A list of issues whose ranks strictly increase has at most one per
      setting. */
  lemma AtMostOnePerSetting(issues: seq<Issue>)
    requires RanksIncrease(issues)
    ensures !(TokenMissing in issues && TokenDefault in issues)
    ensures !(KeyMissing in issues && KeyDefault in issues)
  {
  }

  function Messages(issues: seq<Issue>): (m: seq<string>)
    ensures |m| == |issues| && forall i :: 0 <= i < |m| ==> m[i] == issues[i].Message()
  {
    seq(|issues|, i requires 0 <= i < |issues| => issues[i].Message())
  }

  datatype EnvReport = EnvReport(
    success: bool,
    message: string,
    criticalIssues: seq<string>,
    environment: EnvStatus,
    nodeEnv: Option<string>,
    timestamp: string)

  /** `GET`; `nodeEnv` is `NODE_ENV` and `timestamp` the current time. */
  method Get(env: Env, nodeEnv: Option<string>, timestamp: string) returns (r: EnvReport)
    ensures r.success <==> r.criticalIssues == []
    ensures r.message == (if r.success then AllConfigured else ProblemsFound)
    ensures r.success <==> Present(env.accessToken) && env.accessToken.value != TokenPlaceholder
                           && Present(env.publicKey) && env.publicKey.value != KeyPlaceholder
                           && Present(env.baseUrl)
    ensures r.criticalIssues == Messages(Checklist(env))
    ensures r.environment == EnvStatusOf(env)
  {
    var issues := CriticalIssues(env);
    ChecklistContents(env);
    var hasCritical := |issues| > 0;
    if hasCritical {
      assert issues[0] in issues;
    }
    r := EnvReport(!hasCritical, if hasCritical then ProblemsFound else AllConfigured,
                   Messages(issues), EnvStatusOf(env), nodeEnv, timestamp);
  }
}
