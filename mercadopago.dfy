/** The gateway service of lib/mercadopago.ts: how the checkout preference
    and the PIX payment are shaped from the buyer's data, and how gateway
    answers and failures are mapped.  The SDK calls (`Preference.create`,
    `Payment.create`, `Payment.get`) are parameters of the model. */
module MercadoPago {
  import opened JsText

  const PixFailure := "Falha ao processar pagamento PIX"
  const StatusFailure := "Falha ao verificar status do pagamento"
  const DetailsFailure := "Falha ao buscar detalhes do pagamento"
  const DefaultBaseUrl := "http://localhost:3000"

  /** `PaymentData`, as the PIX route passes it: the request's own `name`
      and `amount` values and the (uncleaned) `email` and `cpf` strings. */
  datatype PaymentData = PaymentData(name: Value, email: string, cpf: string, amount: Value)

  datatype Identification = Identification(kind: string, number: string)

  datatype Item = Item(title: string, description: string, quantity: nat, unit_price: Value, currency_id: string)

  datatype PreferencePayer = PreferencePayer(name: Value, email: string, identification: Identification)

  datatype PaymentMethods = PaymentMethods(excluded_payment_types: seq<string>, installments: nat)

  datatype BackUrls = BackUrls(success: string, failure: string, pending: string)

  /** The checkout preference sent to `Preference.create`; the two
      expiration timestamps are not modelled. */
  datatype Preference = Preference(
    items: seq<Item>,
    payer: PreferencePayer,
    payment_methods: PaymentMethods,
    back_urls: BackUrls,
    notification_url: string,
    auto_return: string,
    external_reference: string,
    expires: bool)

  /** What `Preference.create` answers, as far as the service reads it. */
  datatype PreferenceResponse = PreferenceResponse(external_reference: Option<string>)

  datatype PixPayer = PixPayer(email: string, first_name: string, last_name: string, identification: Identification)

  /** The payment body sent to `Payment.create`. */
  datatype PixPayload = PixPayload(
    transaction_amount: Value,
    description: string,
    payment_method_id: string,
    payer: PixPayer,
    external_reference: Option<string>)

  datatype TransactionData = TransactionData(qr_code: Option<string>, qr_code_base64: Option<string>)

  datatype PointOfInteraction = PointOfInteraction(transaction_data: Option<TransactionData>)

  /** A payment object as the gateway SDK returns it. */
  datatype GatewayPayment = GatewayPayment(
    id: int,
    status: string,
    status_detail: Option<string>,
    rejection_reason: Option<string>,
    external_reference: Option<string>,
    transaction_amount: real,
    description: Option<string>,
    payment_method_id: Option<string>,
    date_created: Option<string>,
    date_last_updated: Option<string>,
    payer: Value,
    point_of_interaction: Option<PointOfInteraction>)

  /** `PixPaymentResponse`. */
  datatype PixPaymentResponse = PixPaymentResponse(
    id: string,
    status: string,
    qr_code: Option<string>,
    qr_code_base64: Option<string>,
    external_reference: Option<string>)

  /** The object `getPaymentDetails` returns: ten of the gateway's fields. */
  datatype PaymentDetails = PaymentDetails(
    id: int,
    status: string,
    external_reference: Option<string>,
    transaction_amount: real,
    description: Option<string>,
    payment_method_id: Option<string>,
    date_created: Option<string>,
    date_last_updated: Option<string>,
    payer: Value,
    point_of_interaction: Option<PointOfInteraction>)

  /** `process.env.NEXT_PUBLIC_BASE_URL || 'http://localhost:3000'`. */
  function BaseUrl(env: Option<string>): (r: string)
    ensures Present(env) ==> r == env.value
    ensures !Present(env) ==> r == DefaultBaseUrl
  {
    OrElse(env, DefaultBaseUrl)
  }

  /** The CPF as sent to the gateway: its digits only. */
  function CpfNumber(cpf: string): (r: string)
    ensures AllDigits(r)
    ensures StripNonDigits(r) == r
  {
    StripNonDigitsIdempotent(cpf);
    StripNonDigits(cpf)
  }

  /** `name.split(' ')[0]`. */
  function FirstName(name: string): string {
    Split(name)[0]
  }

  /** `name.split(' ').slice(1).join(' ')`. */
  function LastName(name: string): string {
    Join(Split(name)[1..], " ")
  }

  /** The first name ends at the first space and the last name is the rest:
      rejoined with a space they give the full name back, and a name with
      no space has an empty last name. */
  lemma NameSplit(name: string)
    ensures ' ' !in FirstName(name)
    ensures ' ' in name ==> FirstName(name) + " " + LastName(name) == name
    ensures ' ' !in name ==> FirstName(name) == name && LastName(name) == ""
  {
    JoinSplit(name);
    var parts := Split(name);
    if |parts| > 1 {
      assert Join(parts, " ") == parts[0] + " " + Join(parts[1..], " ");
    }
  }

  /** The preference built for a PIX checkout (`preference`, lines 32-69);
      `now` stands for `Date.now()`. */
  function BuildPreference(data: PaymentData, baseUrlEnv: Option<string>, now: nat): (p: Preference)
    ensures |p.items| == 1
    ensures p.items[0].quantity == 1 && p.items[0].unit_price == data.amount && p.items[0].currency_id == "BRL"
    ensures p.payer.name == data.name && p.payer.email == data.email
    ensures p.payer.identification == Identification("CPF", StripNonDigits(data.cpf))
    ensures AllDigits(p.payer.identification.number)
    ensures p.payment_methods.installments == 1
    ensures p.payment_methods.excluded_payment_types == ["credit_card", "debit_card", "bank_transfer"]
    ensures p.back_urls == BackUrls(BaseUrl(baseUrlEnv) + "/success", BaseUrl(baseUrlEnv) + "/failure", BaseUrl(baseUrlEnv) + "/pending")
    ensures p.notification_url == BaseUrl(baseUrlEnv) + "/api/webhook"
    ensures p.external_reference == "order_" + NatToString(now)
  {
    var base := BaseUrl(baseUrlEnv);
    Preference(
      [Item("Produto Digital", "Acesso completo ao conteúdo", 1, data.amount, "BRL")],
      PreferencePayer(data.name, data.email, Identification("CPF", CpfNumber(data.cpf))),
      PaymentMethods(["credit_card", "debit_card", "bank_transfer"], 1),
      BackUrls(base + "/success", base + "/failure", base + "/pending"),
      base + "/api/webhook",
      "approved",
      "order_" + NatToString(now),
      true)
  }

  /** The PIX payment body (`payment`, lines 75-89) for a buyer whose name is
      a string, carrying the preference's external reference. */
  function BuildPixPayload(data: PaymentData, name: string, reference: Option<string>): (p: PixPayload)
    ensures p.transaction_amount == data.amount && p.payment_method_id == "pix"
    ensures p.payer.email == data.email
    ensures p.payer.first_name == FirstName(name) && p.payer.last_name == LastName(name)
    ensures p.payer.identification == Identification("CPF", StripNonDigits(data.cpf))
    ensures AllDigits(p.payer.identification.number)
    ensures p.external_reference == reference
  {
    PixPayload(
      data.amount,
      "Produto Digital - Acesso completo ao conteúdo",
      "pix",
      PixPayer(data.email, FirstName(name), LastName(name), Identification("CPF", CpfNumber(data.cpf))),
      reference)
  }

  /** `createPixPayment`: create the preference, then the PIX payment with
      the preference's external reference, then read the QR code data out of
      the gateway's answer.  Every failure on the way, including a name that
      is not a string (`split` throws) and an answer without
      `point_of_interaction.transaction_data`, is re-thrown as one error. */
  function CreatePixPayment(
    data: PaymentData,
    baseUrlEnv: Option<string>,
    now: nat,
    createPreference: Preference -> Result<PreferenceResponse, Thrown>,
    createPayment: PixPayload -> Result<GatewayPayment, Thrown>): (r: Result<PixPaymentResponse, Thrown>)
    ensures r.Err? ==> r.error == ErrorObject(PixFailure)
    ensures r.Ok? ==>
      var pref := createPreference(BuildPreference(data, baseUrlEnv, now));
      && pref.Ok?
      && data.name.Str?
      && r.value.external_reference == pref.value.external_reference
      && var pix := createPayment(BuildPixPayload(data, data.name.s, pref.value.external_reference));
      && pix.Ok?
      && r.value.id == IntToString(pix.value.id)
      && r.value.status == pix.value.status
      && pix.value.point_of_interaction.Some?
      && pix.value.point_of_interaction.value.transaction_data == Some(TransactionData(r.value.qr_code, r.value.qr_code_base64))
    ensures createPreference(BuildPreference(data, baseUrlEnv, now)).Err? ==> r.Err?
    ensures !data.name.Str? ==> r.Err?
    ensures r.Ok? <==>
      var pref := createPreference(BuildPreference(data, baseUrlEnv, now));
      && pref.Ok?
      && data.name.Str?
      && var pix := createPayment(BuildPixPayload(data, data.name.s, pref.value.external_reference));
      && pix.Ok?
      && pix.value.point_of_interaction.Some?
      && pix.value.point_of_interaction.value.transaction_data.Some?
  {
    match createPreference(BuildPreference(data, baseUrlEnv, now))
    case Err(_) => Err(ErrorObject(PixFailure))
    case Ok(response) =>
      if !data.name.Str? then Err(ErrorObject(PixFailure))
      else
        match createPayment(BuildPixPayload(data, data.name.s, response.external_reference))
        case Err(_) => Err(ErrorObject(PixFailure))
        case Ok(pix) =>
          if pix.point_of_interaction.None? || pix.point_of_interaction.value.transaction_data.None? then
            Err(ErrorObject(PixFailure))
          else
            var td := pix.point_of_interaction.value.transaction_data.value;
            Ok(PixPaymentResponse(IntToString(pix.id), pix.status, td.qr_code, td.qr_code_base64, response.external_reference))
  }

  /** `getPaymentStatus`: the gateway's status, or one fixed error. */
  function GetPaymentStatus(paymentId: Value, get: Value -> Result<GatewayPayment, Thrown>): (r: Result<string, Thrown>)
    ensures get(paymentId).Ok? <==> r.Ok?
    ensures r.Ok? ==> r.value == get(paymentId).value.status
    ensures r.Err? ==> r.error == ErrorObject(StatusFailure)
  {
    match get(paymentId)
    case Ok(p) => Ok(p.status)
    case Err(_) => Err(ErrorObject(StatusFailure))
  }

  /** The selection of fields `getPaymentDetails` returns. */
  function Details(p: GatewayPayment): PaymentDetails {
    PaymentDetails(p.id, p.status, p.external_reference, p.transaction_amount, p.description,
                   p.payment_method_id, p.date_created, p.date_last_updated, p.payer, p.point_of_interaction)
  }

  /** `getPaymentDetails`: the selected fields of the gateway's answer, or
      one fixed error. */
  function GetPaymentDetails(paymentId: Value, get: Value -> Result<GatewayPayment, Thrown>): (r: Result<PaymentDetails, Thrown>)
    ensures get(paymentId).Ok? <==> r.Ok?
    ensures r.Ok? ==> r.value.id == get(paymentId).value.id && r.value.status == get(paymentId).value.status
    ensures r.Ok? ==> r.value.external_reference == get(paymentId).value.external_reference
    ensures r.Ok? ==>
      var p := get(paymentId).value;
      && r.value.transaction_amount == p.transaction_amount && r.value.description == p.description
      && r.value.payment_method_id == p.payment_method_id
      && r.value.date_created == p.date_created && r.value.date_last_updated == p.date_last_updated
      && r.value.payer == p.payer && r.value.point_of_interaction == p.point_of_interaction
    ensures r.Err? ==> r.error == ErrorObject(DetailsFailure)
  {
    match get(paymentId)
    case Ok(p) => Ok(Details(p))
    case Err(_) => Err(ErrorObject(DetailsFailure))
  }

  /** The details keep no trace of `status_detail` or `rejection_reason`:
      two gateway answers that differ only there give the same details. */
  lemma DetailsDropRejectionFields(p: GatewayPayment, detail: Option<string>, reason: Option<string>)
    ensures Details(p.(status_detail := detail, rejection_reason := reason)) == Details(p)
  {
  }
}
