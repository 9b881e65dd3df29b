/** The dashboard's recent-payments endpoint (app/api/payments/recent/route.ts):
    the newest payments, each with its webhook summary, and two histograms
    counting them by status and by payment method. */
module RecentPaymentsRoute {
  import opened JsText
  import Records

  const ListFailure := "Falha ao listar pagamentos"

  /** One entry of `data`. */
  datatype FormattedPayment = FormattedPayment(
    id: string,
    mercadopagoId: string,
    externalReference: string,
    amount: real,
    status: string,
    paymentMethod: string,
    payerName: string,
    payerEmail: string,
    payerCpf: string,
    description: Option<string>,
    createdAt: string,
    updatedAt: string,
    webhookCount: nat,
    lastWebhook: Option<Records.EventSummary>)

  function Format(p: Records.Payment): (f: FormattedPayment)
    ensures f.id == p.id && f.mercadopagoId == p.mercadopagoId && f.externalReference == p.externalReference
    ensures f.amount == p.amount && f.status == p.status && f.paymentMethod == p.paymentMethod
    ensures f.payerName == p.payerName && f.payerEmail == p.payerEmail && f.payerCpf == p.payerCpf
    ensures f.description == p.description && f.createdAt == p.createdAt && f.updatedAt == p.updatedAt
    ensures f.webhookCount == (if p.webhookEvents.Some? then |p.webhookEvents.value| else 0)
    ensures f.lastWebhook.Some? <==> p.webhookEvents.Some? && |p.webhookEvents.value| > 0
    ensures f.lastWebhook.Some? ==>
      var e := p.webhookEvents.value[0];
      f.lastWebhook.value == Records.EventSummary(e.eventType, e.processed, e.createdAt)
  {
    FormattedPayment(p.id, p.mercadopagoId, p.externalReference, p.amount, p.status, p.paymentMethod,
                     p.payerName, p.payerEmail, p.payerCpf, p.description, p.createdAt, p.updatedAt,
                     Records.WebhookCount(p.webhookEvents), Records.LastWebhook(p.webhookEvents))
  }

  /** `payments.map(...)`: one entry per payment, in the same order. */
  function FormatAll(payments: seq<Records.Payment>): (r: seq<FormattedPayment>)
    ensures |r| == |payments|
    ensures forall i :: 0 <= i < |r| ==> r[i] == Format(payments[i])
  {
    seq(|payments|, i requires 0 <= i < |payments| => Format(payments[i]))
  }

  // ---------------------------------------------------------------------
  // Histograms

  function Statuses(payments: seq<Records.Payment>): (keys: seq<string>)
    ensures |keys| == |payments| && forall i :: 0 <= i < |keys| ==> keys[i] == payments[i].status
  {
    seq(|payments|, i requires 0 <= i < |payments| => payments[i].status)
  }

  function Methods(payments: seq<Records.Payment>): (keys: seq<string>)
    ensures |keys| == |payments| && forall i :: 0 <= i < |keys| ==> keys[i] == payments[i].paymentMethod
  {
    seq(|payments|, i requires 0 <= i < |payments| => payments[i].paymentMethod)
  }

  /** How many times each key occurs, for the keys that occur. */
  function Histogram(keys: seq<string>): (h: map<string, nat>)
    ensures forall k :: k in h <==> k in keys
  {
    map k | k in keys :: multiset(keys)[k]
  }

  /** One more key bumps its own count, starting from 0, and no other. */
  lemma HistogramSnoc(keys: seq<string>, key: string)
    ensures Histogram(keys + [key]) ==
      Histogram(keys)[key := (if key in Histogram(keys) then Histogram(keys)[key] else 0) + 1]
  {
    assert multiset(keys + [key]) == multiset(keys) + multiset{key};
    var h, h' := Histogram(keys), Histogram(keys + [key]);
    assert forall k :: k in keys + [key] <==> k in keys || k == key;
    assert key !in keys ==> multiset(keys)[key] == 0;
  }

  /** `reduce((acc, p) => { acc[key] = (acc[key] || 0) + 1; return acc }, {})`. */
  method CountBy(keys: seq<string>) returns (acc: map<string, nat>)
    ensures acc == Histogram(keys)
  {
    acc := map[];
    for i := 0 to |keys|
      invariant acc == Histogram(keys[..i])
    {
      var key := keys[i];
      var prior := if key in acc then acc[key] else 0;
      HistogramSnoc(keys[..i], key);
      assert keys[..i + 1] == keys[..i] + [key];
      acc := acc[key := prior + 1];
    }
    assert keys[..|keys|] == keys;
  }

  /** The keys in order of first occurrence, each once: the key set of the
      histogram object. */
  function Dedup(keys: seq<string>): (d: seq<string>)
    ensures forall k :: k in d <==> k in keys
    ensures forall i, j :: 0 <= i < j < |d| ==> d[i] != d[j]
  {
    if keys == [] then []
    else
      var prefix := Dedup(keys[..|keys| - 1]);
      var last := keys[|keys| - 1];
      assert keys == keys[..|keys| - 1] + [last];
      if last in keys[..|keys| - 1] then prefix else prefix + [last]
  }

  /** The sum of the counts listed under `ks`. */
  function Total(h: map<string, nat>, ks: seq<string>): nat
    requires forall k :: k in ks ==> k in h
  {
    if ks == [] then 0 else h[ks[0]] + Total(h, ks[1..])
  }

  lemma {:induction false} TotalAppend(h: map<string, nat>, ks: seq<string>, k: string)
    requires forall x :: x in ks ==> x in h
    requires k in h
    ensures Total(h, ks + [k]) == Total(h, ks) + h[k]
  {
    if ks != [] {
      assert (ks + [k])[1..] == ks[1..] + [k];
      TotalAppend(h, ks[1..], k);
    }
  }

  /** Bumping a key that is listed once raises the total by one. */
  lemma {:induction false} TotalBump(h: map<string, nat>, ks: seq<string>, k: string)
    requires forall x :: x in ks ==> x in h
    requires k in h
    requires forall i, j :: 0 <= i < j < |ks| ==> ks[i] != ks[j]
    ensures Total(h[k := h[k] + 1], ks) == Total(h, ks) + (if k in ks then 1 else 0)
  {
    if ks != [] {
      assert forall x :: x in ks[1..] ==> x in ks;
      TotalBump(h, ks[1..], k);
      if ks[0] == k {
        assert k !in ks[1..];
      }
    }
  }

  /** A new key with count one, added beside the listed ones, leaves their
      total as it was. */
  lemma {:induction false} TotalFresh(h: map<string, nat>, ks: seq<string>, k: string, n: nat)
    requires forall x :: x in ks ==> x in h
    requires k !in ks
    ensures Total(h[k := n], ks) == Total(h, ks)
  {
    if ks != [] {
      TotalFresh(h, ks[1..], k, n);
    }
  }

  /** The counts add up to the number of keys counted. */
  lemma {:induction false} HistogramSum(keys: seq<string>)
    ensures Total(Histogram(keys), Dedup(keys)) == |keys|
  {
    if keys != [] {
      var prefix := keys[..|keys| - 1];
      var last := keys[|keys| - 1];
      assert keys == prefix + [last];
      HistogramSum(prefix);
      HistogramSnoc(prefix, last);
      var h := Histogram(prefix);
      if last in prefix {
        TotalBump(h, Dedup(prefix), last);
      } else {
        TotalFresh(h, Dedup(prefix), last, 1);
        TotalAppend(h[last := 1], Dedup(prefix), last);
      }
    }
  }

  // ---------------------------------------------------------------------
  // The handler

  datatype RecentResponse =
    | Recent(data: seq<FormattedPayment>, total: nat, limit: Number, showing: nat,
             byStatus: map<string, nat>, byPaymentMethod: map<string, nat>)
    | RecentFailed
  {
    function HttpStatus(): int {
      if Recent? then 200 else 500
    }
  }

  /** `GET`.  `list` stands for `listPayments` (given the page size) and
      `count` for `countPayments`; both come from outside the model. */
  method Get(limitParam: Option<string>, list: Number -> Result<seq<Records.Payment>, Thrown>, count: Result<nat, Thrown>)
    returns (r: RecentResponse)
    ensures var limit := IntParam(limitParam, "10");
      && (list(limit).Ok? && count.Ok? ==>
            var payments := list(limit).value;
            r == Recent(FormatAll(payments), count.value, limit, |payments|,
                        Histogram(Statuses(payments)), Histogram(Methods(payments))))
      && (list(limit).Err? || count.Err? ==> r == RecentFailed)
  {
    var limit := IntParam(limitParam, "10");
    var listed := list(limit);
    if listed.Err? || count.Err? {
      return RecentFailed;
    }
    var payments := listed.value;
    var byStatus := CountBy(Statuses(payments));
    var byMethod := CountBy(Methods(payments));
    r := Recent(FormatAll(payments), count.value, limit, |payments|, byStatus, byMethod);
  }

  /** Without a parameter ten payments are asked for. */
  lemma DefaultLimit(limitParam: Option<string>)
    requires !Present(limitParam)
    ensures IntParam(limitParam, "10") == Int(10)
  {
    assert NatToString(10) == "10";
    DefaultIntParam(limitParam, "10", 10);
  }

  /** Each histogram lists exactly the statuses (methods) that occur, each
      with the number of payments carrying it, and its counts add up to the
      number of payments shown. */
  lemma SummaryCounts(payments: seq<Records.Payment>)
    ensures forall s :: s in Histogram(Statuses(payments)) <==> exists i :: 0 <= i < |payments| && payments[i].status == s
    ensures forall s :: s in Histogram(Statuses(payments)) ==> Histogram(Statuses(payments))[s] == multiset(Statuses(payments))[s]
    ensures Total(Histogram(Statuses(payments)), Dedup(Statuses(payments))) == |payments|
    ensures forall m :: m in Histogram(Methods(payments)) <==> exists i :: 0 <= i < |payments| && payments[i].paymentMethod == m
    ensures Total(Histogram(Methods(payments)), Dedup(Methods(payments))) == |payments|
  {
    HistogramSum(Statuses(payments));
    HistogramSum(Methods(payments));
  }
}
