/** The payments collection endpoint (app/api/payments/route.ts): `GET`
    lists stored payments with filters and page arithmetic, `POST` stores a
    payment after an ordered required-field check. */
module PaymentsRoute {
  import opened JsText
  import Records

  const ListFailure := "Falha ao listar pagamentos"
  const CreateFailure := "Falha ao criar pagamento"
  const MissingFieldPrefix := "Campo obrigatório: "

  const RequiredFields: seq<string> :=
    ["mercadopagoId", "externalReference", "amount", "paymentMethod", "payerName", "payerEmail", "payerCpf"]

  // ---------------------------------------------------------------------
  // JavaScript number arithmetic on what `parseInt` can produce

  /** `Math.ceil` on a real. */
  function Ceil(x: real): (c: int)
    ensures x <= c as real < x + 1.0
  {
    -((-x).Floor)
  }

  /** `a < b` on numbers: false whenever either side is `NaN`. */
  predicate Less(a: Number, b: Number) {
    match (a, b)
    case (NaN, _) => false
    case (_, NaN) => false
    case (Int(x), Int(y)) => x < y
    case (MinusInfinity, y) => !y.MinusInfinity?
    case (x, PlusInfinity) => !x.PlusInfinity?
    case _ => false
  }

  /** `(page - 1) * limit`. */
  function Offset(page: ParsedInt, limit: ParsedInt): ParsedInt {
    if page.Int? && limit.Int? then Int((page.v - 1) * limit.v) else NaN
  }

  /** `Math.ceil(total / limit)`: `total / 0` is `NaN` for a zero total and
      `Infinity` otherwise, both of which `Math.ceil` keeps. */
  function TotalPages(total: nat, limit: ParsedInt): Number {
    if limit.NaN? then NaN
    else if limit.v == 0 then (if total == 0 then NaN else PlusInfinity)
    else Int(Ceil(total as real / limit.v as real))
  }

  datatype Pagination = Pagination(page: Number, limit: Number, total: nat, totalPages: Number, hasNext: bool, hasPrev: bool)

  function Paginate(page: ParsedInt, limit: ParsedInt, total: nat): Pagination {
    var totalPages := TotalPages(total, limit);
    Pagination(page, limit, total, totalPages, Less(page, totalPages), Less(Int(1), page))
  }

  /** The ceiling of `total / limit` is the least page count covering all
      rows. */
  lemma CeilDivBounds(total: nat, limit: int)
    requires limit > 0
    ensures var tp := Ceil(total as real / limit as real);
      (tp - 1) * limit < total <= tp * limit
  {
    var l := limit as real;
    var x := total as real / l;
    var tp := Ceil(x);
    DivTimesDivisor(total as real, l);
    ScaledCeilBounds(x, tp as real, (tp - 1) as real, l);
    IntMulIsRealMul(tp, limit);
    IntMulIsRealMul(tp - 1, limit);
  }

  lemma DivTimesDivisor(a: real, l: real)
    requires l > 0.0
    ensures (a / l) * l == a
  {
  }

  /** Scaling `u + 1 == t` with `x <= t < x + 1` by a positive `l`. */
  lemma ScaledCeilBounds(x: real, t: real, u: real, l: real)
    requires l > 0.0 && x <= t < x + 1.0 && u + 1.0 == t
    ensures x * l <= t * l
    ensures u * l < x * l
  {
    MulMono(x, t, l);
    MulStrict(u, x, l);
  }

  lemma IntMulIsRealMul(a: int, b: int)
    ensures (a * b) as real == a as real * b as real
  {
  }

  lemma MulStrict(a: real, b: real, c: real)
    requires a < b && c > 0.0
    ensures a * c < b * c
  {
  }

  lemma MulMono(a: real, b: real, c: real)
    requires a <= b && c > 0.0
    ensures a * c <= b * c
  {
  }

  /** A page from 1 on starts before the last row exactly when it is not past
      the page count. */
  lemma PageHasRows(page: int, limit: int, total: nat, tp: int)
    requires limit > 0 && page >= 1
    requires (tp - 1) * limit < total <= tp * limit
    ensures (page - 1) * limit < total <==> page <= tp
  {
    if page <= tp {
      MulMonoInt(page - 1, tp - 1, limit);
    } else {
      MulMonoInt(tp, page - 1, limit);
    }
  }

  lemma MulMonoInt(a: int, b: int, c: int)
    requires a <= b && c > 0
    ensures a * c <= b * c
  {
  }

  /** With a positive limit the page count is the ceiling of total over
      limit, the next page exists exactly below it, and a page from 1 on has
      rows exactly when it is not past it. */
  lemma PositiveLimitPagination(page: int, limit: int, total: nat)
    requires limit > 0
    ensures var p := Paginate(Int(page), Int(limit), total);
      && p.totalPages.Int?
      && (p.totalPages.v - 1) * limit < total <= p.totalPages.v * limit
      && (p.hasNext <==> page < p.totalPages.v)
      && (p.hasPrev <==> page > 1)
      && (page == p.totalPages.v ==> !p.hasNext)
      && (page >= 1 ==> ((page - 1) * limit < total <==> page <= p.totalPages.v))
  {
    var tp := Ceil(total as real / limit as real);
    assert Paginate(Int(page), Int(limit), total).totalPages == Int(tp);
    CeilDivBounds(total, limit);
    if page >= 1 {
      PageHasRows(page, limit, total, tp);
    }
  }

  /** With a zero limit every page of a non-empty table has a "next" one and
      an empty table has neither a page count nor a next page. */
  lemma ZeroLimitPagination(page: int, total: nat)
    ensures total > 0 ==> Paginate(Int(page), Int(0), total).totalPages == PlusInfinity
    ensures total > 0 ==> Paginate(Int(page), Int(0), total).hasNext
    ensures total == 0 ==> Paginate(Int(page), Int(0), total).totalPages == NaN
    ensures total == 0 ==> !Paginate(Int(page), Int(0), total).hasNext
  {
  }

  /** A page that is not a number has neither neighbour. */
  lemma NaNPageHasNoNeighbours(limit: ParsedInt, total: nat)
    ensures !Paginate(NaN, limit, total).hasNext && !Paginate(NaN, limit, total).hasPrev
  {
  }

  // ---------------------------------------------------------------------
  // `GET`

  datatype Query = Query(page: Option<string>, limit: Option<string>, status: Option<string>, email: Option<string>)

  datatype Condition = Equals(value: string) | ContainsInsensitive(value: string)

  /** The arguments of `listPayments` (ordered by `createdAt`, newest first). */
  datatype ListRequest = ListRequest(where: map<string, Condition>, skip: Number, take: Number)

  datatype ListResponse = Listed(data: seq<Records.Payment>, pagination: Pagination) | ListFailed
  {
    function HttpStatus(): int {
      if Listed? then 200 else 500
    }
  }

  /** The `where` object, with a key for each truthy filter parameter. */
  method BuildWhere(status: Option<string>, email: Option<string>) returns (where: map<string, Condition>)
    ensures "status" in where <==> Present(status)
    ensures Present(status) ==> where["status"] == Equals(ToUpperAscii(status.value))
    ensures "payerEmail" in where <==> Present(email)
    ensures Present(email) ==> where["payerEmail"] == ContainsInsensitive(email.value)
    ensures where.Keys <= {"status", "payerEmail"}
  {
    where := map[];
    if Present(status) {
      where := where["status" := Equals(ToUpperAscii(status.value))];
    }
    if Present(email) {
      where := where["payerEmail" := ContainsInsensitive(email.value)];
    }
  }

  /** `GET`; `store` stands for `listPayments` and `countPayments` together:
      the page of payments and the filtered total, or a failure. */
  method Get(q: Query, store: ListRequest -> Result<(seq<Records.Payment>, nat), Thrown>)
    returns (r: ListResponse, request: ListRequest)
    ensures var page, limit := IntParam(q.page, "1"), IntParam(q.limit, "20");
      && request.skip == Offset(page, limit)
      && request.take == limit
      && ("status" in request.where <==> Present(q.status))
      && ("payerEmail" in request.where <==> Present(q.email))
      && (Present(q.status) ==> request.where["status"] == Equals(ToUpperAscii(q.status.value)))
      && (Present(q.email) ==> request.where["payerEmail"] == ContainsInsensitive(q.email.value))
      && request.where.Keys <= {"status", "payerEmail"}
      && (store(request).Ok? ==> r == Listed(store(request).value.0, Paginate(page, limit, store(request).value.1)))
      && (store(request).Err? ==> r == ListFailed)
  {
    var page := IntParam(q.page, "1");
    var limit := IntParam(q.limit, "20");
    var where := BuildWhere(q.status, q.email);
    request := ListRequest(where, Offset(page, limit), limit);
    match store(request)
    case Ok(found) =>
      r := Listed(found.0, Paginate(page, limit, found.1));
    case Err(_) =>
      r := ListFailed;
  }

  /** Without parameters the first page of twenty is asked for. */
  lemma DefaultPage(q: Query)
    requires !Present(q.page) && !Present(q.limit)
    ensures IntParam(q.page, "1") == Int(1) && IntParam(q.limit, "20") == Int(20)
    ensures Offset(IntParam(q.page, "1"), IntParam(q.limit, "20")) == Int(0)
  {
    assert NatToString(1) == "1" && NatToString(20) == "20";
    DefaultIntParam(q.page, "1", 1);
    DefaultIntParam(q.limit, "20", 20);
  }

  // ---------------------------------------------------------------------
  // `POST`

  /** `body[field]`, `undefined` when absent. */
  function Field(body: map<string, Value>, field: string): Value {
    if field in body then body[field] else Undefined
  }

  ghost predicate AllRequired(body: map<string, Value>) {
    forall k :: 0 <= k < |RequiredFields| ==> Truthy(Field(body, RequiredFields[k]))
  }

  /** `field` is the first required field, in listed order, that is falsy. */
  ghost predicate FirstMissing(body: map<string, Value>, field: string) {
    exists k :: 0 <= k < |RequiredFields| && field == RequiredFields[k] && !Truthy(Field(body, RequiredFields[k]))
                && forall m :: 0 <= m < k ==> Truthy(Field(body, RequiredFields[m]))
  }

  /** The loop over `requiredFields` with its early return. */
  method FirstMissingField(body: map<string, Value>) returns (missing: Option<string>)
    ensures missing.None? <==> AllRequired(body)
    ensures missing.Some? ==> FirstMissing(body, missing.value)
  {
    for i := 0 to |RequiredFields|
      invariant forall m :: 0 <= m < i ==> Truthy(Field(body, RequiredFields[m]))
    {
      if !Truthy(Field(body, RequiredFields[i])) {
        return Some(RequiredFields[i]);
      }
    }
    return None;
  }

  /** Only one field can be the first missing one. */
  lemma FirstMissingIsUnique(body: map<string, Value>, f: string, g: string)
    requires FirstMissing(body, f) && FirstMissing(body, g)
    ensures f == g
  {
    var k :| 0 <= k < |RequiredFields| && f == RequiredFields[k] && !Truthy(Field(body, RequiredFields[k]))
             && forall m :: 0 <= m < k ==> Truthy(Field(body, RequiredFields[m]));
    var j :| 0 <= j < |RequiredFields| && g == RequiredFields[j] && !Truthy(Field(body, RequiredFields[j]))
             && forall m :: 0 <= m < j ==> Truthy(Field(body, RequiredFields[m]));
    assert k == j;
  }

  /** What `createPayment` is given; `amount` is passed on as it came
      (`Number(...)` is not modelled). */
  datatype CreateInput = CreateInput(
    mercadopagoId: Value, externalReference: Value, amount: Value, paymentMethod: Value,
    payerName: Value, payerEmail: Value, payerCpf: string, description: Value, items: Value)

  /** The payment to store, for a body whose `payerCpf` is a string. */
  function CreateInputOf(body: map<string, Value>): (c: CreateInput)
    requires Field(body, "payerCpf").Str?
    ensures AllDigits(c.payerCpf) && c.payerCpf == StripNonDigits(Field(body, "payerCpf").s)
    ensures c.mercadopagoId == Field(body, "mercadopagoId") && c.externalReference == Field(body, "externalReference")
    ensures c.amount == Field(body, "amount") && c.paymentMethod == Field(body, "paymentMethod")
    ensures c.payerName == Field(body, "payerName") && c.payerEmail == Field(body, "payerEmail")
    ensures c.description == Field(body, "description") && c.items == Field(body, "items")
  {
    CreateInput(Field(body, "mercadopagoId"), Field(body, "externalReference"), Field(body, "amount"),
                Field(body, "paymentMethod"), Field(body, "payerName"), Field(body, "payerEmail"),
                StripNonDigits(Field(body, "payerCpf").s), Field(body, "description"), Field(body, "items"))
  }

  datatype CreateResponse = MissingField(field: string) | Created(payment: Records.Payment) | CreateFailed
  {
    function HttpStatus(): int {
      match this
      case MissingField(_) => 400
      case Created(_) => 200
      case CreateFailed => 500
    }

    function Error(): string
      requires !Created?
    {
      if MissingField? then MissingFieldPrefix + field else CreateFailure
    }
  }

  /** `POST`.  `body` is the parsed JSON object (`Err` when it cannot be
      parsed or is `null`); `create` stands for `createPayment`.  A
      `payerCpf` that is truthy but not a string makes `replace` throw. */
  method Post(body: Result<map<string, Value>, Thrown>, create: CreateInput -> Result<Records.Payment, Thrown>)
    returns (r: CreateResponse)
    ensures body.Err? ==> r == CreateFailed
    ensures body.Ok? && !AllRequired(body.value) ==> r.MissingField? && FirstMissing(body.value, r.field)
    ensures body.Ok? && AllRequired(body.value) && !Field(body.value, "payerCpf").Str? ==> r == CreateFailed
    ensures body.Ok? && AllRequired(body.value) && Field(body.value, "payerCpf").Str? ==>
      && (create(CreateInputOf(body.value)).Ok? ==> r == Created(create(CreateInputOf(body.value)).value))
      && (create(CreateInputOf(body.value)).Err? ==> r == CreateFailed)
  {
    if body.Err? {
      return CreateFailed;
    }
    var missing := FirstMissingField(body.value);
    if missing.Some? {
      return MissingField(missing.value);
    }
    if !Field(body.value, "payerCpf").Str? {
      return CreateFailed;
    }
    match create(CreateInputOf(body.value))
    case Ok(payment) =>
      r := Created(payment);
    case Err(_) =>
      r := CreateFailed;
  }
}
