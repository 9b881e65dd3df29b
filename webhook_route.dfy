/** The gateway's notification endpoint (app/api/webhook/route.ts): a
    payment notification is looked up once at the gateway and answered with
    the fetched status; anything else is acknowledged without a lookup. */
module WebhookRoute {
  import opened JsText
  import MercadoPago

  const Processed := "Webhook processado com sucesso"
  const NotAPayment := "Webhook recebido (não é notificação de pagamento)"
  const ProcessingError := "Erro ao processar pagamento"
  const InternalError := "Erro interno do servidor"
  const HealthMessage := "Webhook endpoint está funcionando"

  /** `body.data`, when it is an object; `id` is `Undefined` when missing. */
  datatype NotificationData = NotificationData(id: Value)

  /** A parsed notification object: its `type` and its `data`. */
  datatype Notification = Notification(kind: Value, data: Option<NotificationData>)

  datatype WebhookResponse =
    | PaymentProcessed(paymentId: Value, status: string)
    | Acknowledged
    | PaymentFailed
    | InternalFailure
  {
    function HttpStatus(): int {
      if PaymentFailed? || InternalFailure? then 500 else 200
    }

    /** The `message` of a success reply, the `error` of a failure. */
    function Text(): string {
      match this
      case PaymentProcessed(_, _) => Processed
      case Acknowledged => NotAPayment
      case PaymentFailed => ProcessingError
      case InternalFailure => InternalError
    }
  }

  /** The reply together with the payment ids looked up at the gateway. */
  datatype Outcome = Outcome(response: WebhookResponse, fetches: seq<Value>)

  /** `body.type === 'payment' && body.data?.id`: strict equality on the
      type and a truthy id. */
  predicate IsPaymentNotification(n: Notification) {
    n.kind == Str("payment") && n.data.Some? && Truthy(n.data.value.id)
  }

  /** `POST`.  `body` is the parsed JSON: `Err` when it cannot be parsed, or
      is `null` (reading `type` of it throws).  `get` is the gateway's
      `Payment.get`, reached through `getPaymentDetails`. */
  function Post(body: Result<Notification, Thrown>, get: Value -> Result<MercadoPago.GatewayPayment, Thrown>): (o: Outcome)
    ensures body.Err? ==> o == Outcome(InternalFailure, [])
    ensures body.Ok? && !IsPaymentNotification(body.value) ==> o == Outcome(Acknowledged, [])
    ensures body.Ok? && IsPaymentNotification(body.value) ==>
      var id := body.value.data.value.id;
      && o.fetches == [id]
      && (get(id).Ok? ==> o.response == PaymentProcessed(id, get(id).value.status))
      && (get(id).Err? ==> o.response == PaymentFailed)
  {
    match body
    case Err(_) => Outcome(InternalFailure, [])
    case Ok(n) =>
      if IsPaymentNotification(n) then
        var id := n.data.value.id;
        match MercadoPago.GetPaymentDetails(id, get)
        case Ok(details) => Outcome(PaymentProcessed(id, details.status), [id])
        case Err(_) => Outcome(PaymentFailed, [id])
      else Outcome(Acknowledged, [])
  }

  /** At most one lookup, and only for a payment notification; a 500 comes
      from an unparseable body or from a failed lookup, never from an
      ignored notification. */
  lemma AtMostOneFetch(body: Result<Notification, Thrown>, get: Value -> Result<MercadoPago.GatewayPayment, Thrown>)
    ensures |Post(body, get).fetches| <= 1
    ensures |Post(body, get).fetches| == 1 <==> body.Ok? && IsPaymentNotification(body.value)
    ensures Post(body, get).response.HttpStatus() == 500 <==>
      body.Err? || (IsPaymentNotification(body.value) && get(body.value.data.value.id).Err?)
  {
  }

  /** The type is compared exactly: a type that merely contains "payment"
      is acknowledged without a lookup, and so is a missing or falsy id. */
  lemma TypeIsComparedExactly(id: Value, get: Value -> Result<MercadoPago.GatewayPayment, Thrown>)
    ensures Post(Ok(Notification(Str("payment.created"), Some(NotificationData(id)))), get) == Outcome(Acknowledged, [])
    ensures Post(Ok(Notification(Str("merchant_order"), Some(NotificationData(id)))), get) == Outcome(Acknowledged, [])
    ensures Post(Ok(Notification(Str("payment"), Some(NotificationData(Str(""))))), get) == Outcome(Acknowledged, [])
    ensures Post(Ok(Notification(Str("payment"), None)), get) == Outcome(Acknowledged, [])
  {
    assert |"payment.created"| != |"payment"|;
  }

  datatype HealthReply = HealthReply(status: string, message: string, timestamp: string)

  /** `GET`: always `status: 'ok'`; `timestamp` stands for the ISO rendering
      of the current time. */
  function Get(timestamp: string): (r: HealthReply)
    ensures r.status == "ok" && r.message == HealthMessage && r.timestamp == timestamp
  {
    HealthReply("ok", HealthMessage, timestamp)
  }
}
