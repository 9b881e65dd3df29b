/** The payment debug endpoint (app/api/debug/payment/route.ts): the stored
    record and the gateway's view of one payment side by side, with a
    comparison of their statuses. */
module DebugPaymentRoute {
  import opened JsText
  import Records
  import MercadoPago

  const MissingId := "ID do pagamento é obrigatório"
  const AnalysisFailure := "Falha ao analisar pagamento"

  /** The calls the handler makes, in order. */
  datatype Call = DbLookup(mercadopagoId: string) | GatewayFetch(paymentId: string)

  datatype DatabaseSection = DatabaseSection(
    id: string, status: string, createdAt: string, updatedAt: string, mercadopagoId: string,
    externalReference: string, amount: real, payerName: string, payerEmail: string)

  /** The gateway section; the two rejection fields are read from an object
      that never has them. */
  datatype GatewaySection = GatewaySection(
    id: int, status: string, external_reference: Option<string>, transaction_amount: real,
    date_created: Option<string>, date_last_updated: Option<string>,
    status_detail: Option<string>, rejection_reason: Option<string>)

  datatype StatusDifference = StatusDifference(database: string, mercadopago: string, needsUpdate: bool)

  datatype Analysis = Analysis(
    statusMatch: bool,
    statusDifference: Option<StatusDifference>,
    lastWebhookEvent: Option<Records.EventSummary>)

  datatype DebugInfo = DebugInfo(
    paymentId: string,
    timestamp: string,
    database: Option<DatabaseSection>,
    mercadopago: Option<GatewaySection>,
    analysis: Analysis)

  datatype DebugResponse = MissingPaymentId | Debug(info: DebugInfo) | DebugFailed
  {
    function HttpStatus(): int {
      match this
      case MissingPaymentId => 400
      case Debug(_) => 200
      case DebugFailed => 500
    }
  }

  datatype Outcome = Outcome(response: DebugResponse, calls: seq<Call>)

  /** The `database` section: the stored record's fields, copied. */
  function DatabaseOf(p: Records.Payment): DatabaseSection {
    DatabaseSection(p.id, p.status, p.createdAt, p.updatedAt, p.mercadopagoId,
                    p.externalReference, p.amount, p.payerName, p.payerEmail)
  }

  function GatewayOf(d: MercadoPago.PaymentDetails): (g: GatewaySection)
    ensures g.status_detail.None? && g.rejection_reason.None?
    ensures g.id == d.id && g.status == d.status && g.external_reference == d.external_reference
    ensures g.transaction_amount == d.transaction_amount
    ensures g.date_created == d.date_created && g.date_last_updated == d.date_last_updated
  {
    GatewaySection(d.id, d.status, d.external_reference, d.transaction_amount,
                   d.date_created, d.date_last_updated, None, None)
  }

  /** `dbPayment && mpPayment ? dbPayment.status === mpPayment.status : false`. */
  function StatusMatch(db: Option<Records.Payment>, mp: Option<MercadoPago.PaymentDetails>): (b: bool)
    ensures b <==> db.Some? && mp.Some? && db.value.status == mp.value.status
  {
    if db.Some? && mp.Some? then db.value.status == mp.value.status else false
  }

  function Difference(db: Option<Records.Payment>, mp: Option<MercadoPago.PaymentDetails>): (d: Option<StatusDifference>)
    ensures d.Some? <==> db.Some? && mp.Some?
    ensures d.Some? ==> d.value.database == db.value.status && d.value.mercadopago == mp.value.status
  {
    if db.Some? && mp.Some? then
      Some(StatusDifference(db.value.status, mp.value.status, db.value.status != mp.value.status))
    else None
  }

  function Analyze(db: Option<Records.Payment>, mp: Option<MercadoPago.PaymentDetails>): Analysis {
    Analysis(StatusMatch(db, mp), Difference(db, mp),
             if db.Some? then Records.LastWebhook(db.value.webhookEvents) else None)
  }

  /** `needsUpdate` is the negation of `statusMatch` whenever both records
      are there. */
  lemma NeedsUpdateIsMismatch(db: Option<Records.Payment>, mp: Option<MercadoPago.PaymentDetails>)
    ensures Difference(db, mp).Some? ==> (Difference(db, mp).value.needsUpdate <==> !StatusMatch(db, mp))
    ensures Difference(db, mp).None? ==> !StatusMatch(db, mp)
  {
  }

  /** A stored status with no lower-case letter never matches a gateway
      status that has one: the record's upper-case statuses against the
      gateway's lower-case ones always report a mismatch. */
  lemma CaseMismatchNeverMatches(db: Records.Payment, mp: MercadoPago.PaymentDetails, i: int)
    requires forall k :: 0 <= k < |db.status| ==> !IsLowerAscii(db.status[k])
    requires 0 <= i < |mp.status| && IsLowerAscii(mp.status[i])
    ensures !StatusMatch(Some(db), Some(mp))
    ensures Difference(Some(db), Some(mp)).value.needsUpdate
  {
    assert i < |db.status| ==> db.status[i] != mp.status[i];
  }

  /** `GET`.  `id` is the `id` query parameter; `lookup` stands for
      `getPaymentByMercadoPagoId`, `get` for the gateway's `Payment.get`
      and `timestamp` for the current time. */
  function Get(
    id: Option<string>,
    timestamp: string,
    lookup: string -> Result<Option<Records.Payment>, Thrown>,
    get: Value -> Result<MercadoPago.GatewayPayment, Thrown>): (o: Outcome)
    ensures !Present(id) ==> o == Outcome(MissingPaymentId, [])
    ensures Present(id) && lookup(id.value).Err? ==> o == Outcome(DebugFailed, [DbLookup(id.value)])
    ensures Present(id) && lookup(id.value).Ok? ==>
      var db := lookup(id.value).value;
      var fetched := MercadoPago.GetPaymentDetails(Str(id.value), get);
      var mp := if fetched.Ok? then Some(fetched.value) else None;
      && o.calls == [DbLookup(id.value), GatewayFetch(id.value)]
      && o.response.Debug?
      && o.response.info.paymentId == id.value
      && (o.response.info.database.Some? <==> db.Some?)
      && o.response.info.database == (if db.Some? then Some(DatabaseOf(db.value)) else None)
      && (o.response.info.mercadopago.Some? <==> get(Str(id.value)).Ok?)
      && o.response.info.mercadopago == (if mp.Some? then Some(GatewayOf(mp.value)) else None)
      && o.response.info.analysis == Analyze(db, mp)
  {
    if !Present(id) then Outcome(MissingPaymentId, [])
    else
      var paymentId := id.value;
      match lookup(paymentId)
      case Err(_) => Outcome(DebugFailed, [DbLookup(paymentId)])
      case Ok(db) =>
        var fetched := MercadoPago.GetPaymentDetails(Str(paymentId), get);
        var mp := if fetched.Ok? then Some(fetched.value) else None;
        var info := DebugInfo(
          paymentId,
          timestamp,
          if db.Some? then Some(DatabaseOf(db.value)) else None,
          if mp.Some? then Some(GatewayOf(mp.value)) else None,
          Analyze(db, mp));
        Outcome(Debug(info), [DbLookup(paymentId), GatewayFetch(paymentId)])
  }

  /** A gateway failure is swallowed: the reply is still a success, with no
      gateway section, no status match and no status difference. */
  lemma GatewayErrorIsSwallowed(
    id: string, timestamp: string,
    lookup: string -> Result<Option<Records.Payment>, Thrown>,
    get: Value -> Result<MercadoPago.GatewayPayment, Thrown>)
    requires id != [] && lookup(id).Ok? && get(Str(id)).Err?
    ensures var o := Get(Some(id), timestamp, lookup, get);
      && o.response.Debug? && o.response.HttpStatus() == 200
      && o.response.info.mercadopago.None?
      && !o.response.info.analysis.statusMatch
      && o.response.info.analysis.statusDifference.None?
  {
  }

  /** The gateway section never carries a status detail or a rejection
      reason, whatever the gateway said. */
  lemma RejectionFieldsAlwaysAbsent(
    id: Option<string>, timestamp: string,
    lookup: string -> Result<Option<Records.Payment>, Thrown>,
    get: Value -> Result<MercadoPago.GatewayPayment, Thrown>)
    ensures var o := Get(id, timestamp, lookup, get);
      o.response.Debug? && o.response.info.mercadopago.Some? ==>
        o.response.info.mercadopago.value.status_detail.None?
        && o.response.info.mercadopago.value.rejection_reason.None?
  {
  }
}
