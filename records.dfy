/** The stored shapes the routes read back from the database: a payment
    with its most recent webhook events first (prisma/prisma.config.ts). */
module Records {
  import opened JsText

  datatype WebhookEvent = WebhookEvent(id: string, eventType: string, processed: bool, createdAt: string)

  datatype Payment = Payment(
    id: string,
    mercadopagoId: string,
    externalReference: string,
    amount: real,
    status: string,
    paymentMethod: string,
    payerName: string,
    payerEmail: string,
    payerCpf: string,
    description: Option<string>,
    createdAt: string,
    updatedAt: string,
    webhookEvents: Option<seq<WebhookEvent>>)

  /** `{ type, processed, createdAt }` of one event. */
  datatype EventSummary = EventSummary(kind: string, processed: bool, createdAt: string)

  /** `webhookEvents?.[0] ? { type: ..., processed: ..., createdAt: ... } : null`. */
  function LastWebhook(events: Option<seq<WebhookEvent>>): (r: Option<EventSummary>)
    ensures r.Some? <==> events.Some? && |events.value| > 0
    ensures r.Some? ==>
      && r.value.kind == events.value[0].eventType
      && r.value.processed == events.value[0].processed
      && r.value.createdAt == events.value[0].createdAt
  {
    if events.Some? && |events.value| > 0 then
      var e := events.value[0];
      Some(EventSummary(e.eventType, e.processed, e.createdAt))
    else None
  }

  /** `webhookEvents?.length || 0`. */
  function WebhookCount(events: Option<seq<WebhookEvent>>): (n: nat)
    ensures events.Some? ==> n == |events.value|
    ensures events.None? ==> n == 0
  {
    if events.Some? then |events.value| else 0
  }

  /** An event is summarised exactly when there is one to count. */
  lemma LastWebhookIffCounted(events: Option<seq<WebhookEvent>>)
    ensures LastWebhook(events).Some? <==> WebhookCount(events) > 0
  {
  }
}
