/** `POST /api/pix-payment` (app/api/pix-payment/route.ts): presence check,
    CPF check and e-mail check, in that order, then one call to the PIX
    service, with its outcome mapped to a response. */
module PixPaymentRoute {
  import opened JsText
  import MercadoPago

  const MissingFields := "Todos os campos são obrigatórios"
  const InvalidCpf := "CPF inválido"
  const InvalidEmail := "Email inválido"
  const InternalError := "Erro interno do servidor"
  const UnknownError := "Erro desconhecido"
  /** The message of the TypeError thrown by `cpf.replace` when `cpf` is
      truthy but not a string. */
  const CpfNotString := "cpf.replace is not a function"

  /** The four fields the handler destructures from the JSON body. */
  datatype PixRequest = PixRequest(name: Value, email: Value, cpf: Value, amount: Value)

  datatype PixResponse =
    | BadRequest(error: string)
    | Created(data: MercadoPago.PixPaymentResponse)
    | ServerError(error: string, details: string)
  {
    function HttpStatus(): int {
      match this
      case BadRequest(_) => 400
      case Created(_) => 200
      case ServerError(_, _) => 500
    }
  }

  // ---------------------------------------------------------------------
  // The e-mail pattern `/^[^\s@]+@[^\s@]+\.[^\s@]+$/`

  predicate NoSpaceOrAt(s: string) {
    forall k :: 0 <= k < |s| ==> s[k] != '@' && !IsJsSpace(s[k])
  }

  /** The pattern as the regular expression reads: `s` is `a@b.c` with `a`,
      `b` and `c` non-empty runs of characters that are neither white space
      nor `@`. */
  ghost predicate MatchesEmailPattern(s: string) {
    exists i, j :: 0 < i && i + 1 < j && j + 1 < |s| && s[i] == '@' && s[j] == '.'
      && NoSpaceOrAt(s[..i]) && NoSpaceOrAt(s[i + 1..j]) && NoSpaceOrAt(s[j + 1..])
  }

  /** The position of the first `@`, or `|s|` when there is none. */
  function IndexOfAt(s: string): (k: nat)
    ensures k <= |s|
    ensures k < |s| ==> s[k] == '@'
    ensures forall m :: 0 <= m < k ==> s[m] != '@'
  {
    if s == [] || s[0] == '@' then 0 else 1 + IndexOfAt(s[1..])
  }

  predicate NoSpace(s: string) {
    forall k :: 0 <= k < |s| ==> !IsJsSpace(s[k])
  }

  /** `d` has a `.` that is neither its first nor its last character. */
  predicate HasInnerDot(d: string) {
    exists m :: 0 < m < |d| - 1 && d[m] == '.'
  }

  /** An accepted address: no white space, exactly one `@`, a non-empty
      part before it, and after it a domain with an inner `.`. */
  predicate IsEmail(s: string) {
    NoSpace(s)
    && var k := IndexOfAt(s);
    && 0 < k < |s|
    && '@' !in s[k + 1..]
    && HasInnerDot(s[k + 1..])
  }

  /** Every accepted address matches the regular expression. */
  lemma IsEmailMatchesPattern(s: string)
    requires IsEmail(s)
    ensures MatchesEmailPattern(s)
  {
    var i := IndexOfAt(s);
    var d := s[i + 1..];
    var m :| 0 < m < |d| - 1 && d[m] == '.';
    var j := i + 1 + m;
    assert s[j] == '.';
    forall k | 0 <= k < |d| ensures d[k] != '@' {
      assert d[k] in d;
    }
    assert NoSpaceOrAt(s[..i]);
    assert s[i + 1..j] == d[..m];
    assert NoSpaceOrAt(s[i + 1..j]);
    assert s[j + 1..] == d[m + 1..];
    assert NoSpaceOrAt(s[j + 1..]);
  }

  /** Every string the regular expression matches is accepted. */
  lemma PatternIsEmail(s: string)
    requires MatchesEmailPattern(s)
    ensures IsEmail(s)
  {
    var i, j :| 0 < i && i + 1 < j && j + 1 < |s| && s[i] == '@' && s[j] == '.'
      && NoSpaceOrAt(s[..i]) && NoSpaceOrAt(s[i + 1..j]) && NoSpaceOrAt(s[j + 1..]);
    forall n | 0 <= n < |s| && n != i
      ensures s[n] != '@' && !IsJsSpace(s[n])
    {
      if n < i {
        assert s[n] == s[..i][n];
      } else if n < j {
        assert s[n] == s[i + 1..j][n - i - 1];
      } else if n > j {
        assert s[n] == s[j + 1..][n - j - 1];
      }
    }
    assert NoSpace(s);
    var k := IndexOfAt(s);
    assert k == i;
    var d := s[i + 1..];
    assert forall n :: 0 <= n < |d| ==> d[n] == s[i + 1 + n];
    assert '@' !in d;
    assert d[j - i - 1] == '.';
  }

  /** The characterisation agrees with the regular expression, both ways. */
  lemma IsEmailIffPattern(s: string)
    ensures IsEmail(s) <==> MatchesEmailPattern(s)
  {
    if IsEmail(s) {
      IsEmailMatchesPattern(s);
    }
    if MatchesEmailPattern(s) {
      PatternIsEmail(s);
    }
  }

  lemma EmailValueIffPattern(v: Value)
    ensures (v.Str? && IsEmail(v.s)) <==> (v.Str? && MatchesEmailPattern(v.s))
  {
    if v.Str? {
      IsEmailIffPattern(v.s);
    }
  }

  // ---------------------------------------------------------------------
  // The handler

  /** `!!name && !!email && !!cpf && !!amount`. */
  predicate AllPresent(req: PixRequest) {
    Truthy(req.name) && Truthy(req.email) && Truthy(req.cpf) && Truthy(req.amount)
  }

  /** The CPF has exactly eleven digits once every non-digit is removed. */
  predicate CpfAccepted(cpf: string) {
    |StripNonDigits(cpf)| == 11
  }

  /** What the route reports for a thrown value: its message when it is an
      `Error`, otherwise a fixed text. */
  function ErrorDetails(e: Thrown): (d: string)
    ensures e.ErrorObject? ==> d == e.message
    ensures e.NonError? ==> d == UnknownError
  {
    match e
    case ErrorObject(m) => m
    case NonError => UnknownError
  }

  /** The three checks in their order; on success, the data handed to the
      service: name, email and the raw, uncleaned cpf as received. */
  function Validate(req: PixRequest): (r: Result<MercadoPago.PaymentData, PixResponse>)
    ensures !AllPresent(req) ==> r == Err(BadRequest(MissingFields))
    ensures AllPresent(req) && !req.cpf.Str? ==> r == Err(ServerError(InternalError, CpfNotString))
    ensures AllPresent(req) && req.cpf.Str? && !CpfAccepted(req.cpf.s) ==> r == Err(BadRequest(InvalidCpf))
    ensures AllPresent(req) && req.cpf.Str? && CpfAccepted(req.cpf.s) && !(req.email.Str? && IsEmail(req.email.s))
            ==> r == Err(BadRequest(InvalidEmail))
    ensures r.Ok? <==> AllPresent(req) && req.cpf.Str? && CpfAccepted(req.cpf.s) && req.email.Str? && MatchesEmailPattern(req.email.s)
    ensures r.Ok? ==> r.value == MercadoPago.PaymentData(req.name, req.email.s, req.cpf.s, req.amount)
  {
    EmailValueIffPattern(req.email);
    if !AllPresent(req) then Err(BadRequest(MissingFields))
    else if !req.cpf.Str? then Err(ServerError(InternalError, CpfNotString))
    else if !CpfAccepted(req.cpf.s) then Err(BadRequest(InvalidCpf))
    else if !(req.email.Str? && IsEmail(req.email.s)) then Err(BadRequest(InvalidEmail))
    else Ok(MercadoPago.PaymentData(req.name, req.email.s, req.cpf.s, req.amount))
  }

  /** The whole handler.  `body` is the outcome of `request.json()` and
      destructuring; `service` is `mercadoPagoService.createPixPayment`. */
  function Post(
    body: Result<PixRequest, Thrown>,
    service: MercadoPago.PaymentData -> Result<MercadoPago.PixPaymentResponse, Thrown>): (r: PixResponse)
    ensures body.Err? ==> r == ServerError(InternalError, ErrorDetails(body.error))
    ensures body.Ok? && Validate(body.value).Err? ==> r == Validate(body.value).error
    ensures body.Ok? && Validate(body.value).Ok? ==>
      var outcome := service(Validate(body.value).value);
      && (outcome.Ok? ==> r == Created(outcome.value))
      && (outcome.Err? ==> r == ServerError(InternalError, ErrorDetails(outcome.error)))
    ensures r.Created? ==> body.Ok? && AllPresent(body.value)
  {
    match body
    case Err(e) => ServerError(InternalError, ErrorDetails(e))
    case Ok(req) =>
      match Validate(req)
      case Err(response) => response
      case Ok(data) =>
        match service(data)
        case Ok(pix) => Created(pix)
        case Err(e) => ServerError(InternalError, ErrorDetails(e))
  }

  /** The first failing check alone decides: a missing field is reported as
      such whatever the CPF and e-mail are, and a bad CPF is reported before
      the e-mail is looked at. */
  lemma FirstFailingCheckDecides(req: PixRequest, service: MercadoPago.PaymentData -> Result<MercadoPago.PixPaymentResponse, Thrown>)
    ensures !AllPresent(req) ==> Post(Ok(req), service) == BadRequest(MissingFields)
    ensures AllPresent(req) && req.cpf.Str? && !CpfAccepted(req.cpf.s) ==>
      forall e: Value :: Truthy(e) ==> Post(Ok(req.(email := e)), service) == BadRequest(InvalidCpf)
    ensures Post(Ok(req), service).BadRequest? ==> Post(Ok(req), service).HttpStatus() == 400
  {
    forall e: Value | Truthy(e) && AllPresent(req) && req.cpf.Str? && !CpfAccepted(req.cpf.s)
      ensures Post(Ok(req.(email := e)), service) == BadRequest(InvalidCpf)
    {
      assert AllPresent(req.(email := e));
    }
  }

  lemma StripFirstHalf()
    ensures StripNonDigits("123.456") == "123456"
  {
    assert StripNonDigits("6") == "6";
    assert StripNonDigits("56") == "56";
    assert StripNonDigits("456") == "456";
    assert StripNonDigits(".456") == "456";
    assert StripNonDigits("3.456") == "3456";
    assert StripNonDigits("23.456") == "23456";
  }

  lemma StripSecondHalf()
    ensures StripNonDigits(".789-09") == "78909"
  {
    assert StripNonDigits("9") == "9";
    assert StripNonDigits("09") == "09";
    assert StripNonDigits("-09") == "09";
    assert StripNonDigits("9-09") == "909";
    assert StripNonDigits("89-09") == "8909";
    assert StripNonDigits("789-09") == "78909";
  }

  /** The CPF examples: "123.456.789-09" (written as two halves) keeps its
      eleven digits and passes; "123" fails. */
  lemma CpfExamples()
    ensures StripNonDigits("123.456" + ".789-09") == "12345678909"
    ensures CpfAccepted("123.456" + ".789-09")
    ensures !CpfAccepted("123")
  {
    StripFirstHalf();
    StripSecondHalf();
    StripNonDigitsAppend("123.456", ".789-09");
    assert "123456" + "78909" == "12345678909";
  }

  /** With the gateway service of lib/mercadopago.ts, validated data whose
      preference and PIX payment both succeed, with QR code data in the
      answer, reaches the caller as 200 carrying the payment's id, status
      and the preference's reference. */
  lemma ServiceSuccessIs200(
    req: PixRequest,
    baseUrlEnv: Option<string>,
    now: nat,
    createPreference: MercadoPago.Preference -> Result<MercadoPago.PreferenceResponse, Thrown>,
    createPayment: MercadoPago.PixPayload -> Result<MercadoPago.GatewayPayment, Thrown>)
    requires Validate(req).Ok? && req.name.Str?
    requires createPreference(MercadoPago.BuildPreference(Validate(req).value, baseUrlEnv, now)).Ok?
    requires
      var pref := createPreference(MercadoPago.BuildPreference(Validate(req).value, baseUrlEnv, now));
      var pix := createPayment(MercadoPago.BuildPixPayload(Validate(req).value, req.name.s, pref.value.external_reference));
      pix.Ok? && pix.value.point_of_interaction.Some? && pix.value.point_of_interaction.value.transaction_data.Some?
    ensures
      var pref := createPreference(MercadoPago.BuildPreference(Validate(req).value, baseUrlEnv, now));
      var pix := createPayment(MercadoPago.BuildPixPayload(Validate(req).value, req.name.s, pref.value.external_reference));
      var r := Post(Ok(req), d => MercadoPago.CreatePixPayment(d, baseUrlEnv, now, createPreference, createPayment));
      && r.Created? && r.HttpStatus() == 200
      && r.data.id == IntToString(pix.value.id)
      && r.data.status == pix.value.status
      && r.data.external_reference == pref.value.external_reference
  {
  }

  /** With the gateway service of lib/mercadopago.ts, every service failure
      reaches the caller as a 500 whose details are the service's message. */
  lemma ServiceFailureIs500(
    req: PixRequest,
    baseUrlEnv: Option<string>,
    now: nat,
    createPreference: MercadoPago.Preference -> Result<MercadoPago.PreferenceResponse, Thrown>,
    createPayment: MercadoPago.PixPayload -> Result<MercadoPago.GatewayPayment, Thrown>)
    requires Validate(req).Ok?
    requires MercadoPago.CreatePixPayment(Validate(req).value, baseUrlEnv, now, createPreference, createPayment).Err?
    ensures Post(Ok(req), d => MercadoPago.CreatePixPayment(d, baseUrlEnv, now, createPreference, createPayment))
            == ServerError(InternalError, MercadoPago.PixFailure)
  {
  }
}
