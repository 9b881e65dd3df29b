/** `POST /api/test/webhook-data` (app/api/test/webhook-data/route.ts):
    extraction of the payer's name, e-mail and CPF from a gateway payment
    object, each along its own priority chain of sources with a sentinel
    as the last resort, and the `analysis` flags over the result. */
module WebhookDataRoute {
  import opened JsText

  const NameSentinel := "Nome não informado"
  const EmailSentinel := "email@nao.informado"
  const CpfSentinel := "CPF não informado"
  const ExtractionFailure := "Falha ao testar extração"

  /** A leaf field: absent (or null) or a string. */
  type Text = Option<string>

  datatype Identification = Identification(kind: Text, number: Text)

  datatype Payer = Payer(first_name: Text, last_name: Text, email: Text, identification: Option<Identification>)

  datatype Metadata = Metadata(buyer_email: Text, customer_name: Text, payer_cpf: Text)

  datatype AdditionalInfo = AdditionalInfo(payer: Option<Payer>)

  /** The parts of a payment object the extraction reads. */
  datatype Details = Details(payer: Option<Payer>, metadata: Option<Metadata>, additional_info: Option<AdditionalInfo>)

  datatype Extracted = Extracted(payerName: string, payerEmail: string, payerCpf: string)

  datatype Analysis = Analysis(nameFound: bool, emailFound: bool, cpfFound: bool, allDataFound: bool)

  // ---------------------------------------------------------------------
  // Optional chaining (`details?.payer?.first_name`, ...)

  function PayerFirstName(d: Details): Text {
    if d.payer.Some? then d.payer.value.first_name else None
  }

  function PayerLastName(d: Details): Text {
    if d.payer.Some? then d.payer.value.last_name else None
  }

  function PayerEmail(d: Details): Text {
    if d.payer.Some? then d.payer.value.email else None
  }

  function IdNumber(p: Option<Payer>): Text {
    if p.Some? && p.value.identification.Some? then p.value.identification.value.number else None
  }

  function PayerIdNumber(d: Details): Text {
    IdNumber(d.payer)
  }

  function MetaBuyerEmail(d: Details): Text {
    if d.metadata.Some? then d.metadata.value.buyer_email else None
  }

  function MetaCustomerName(d: Details): Text {
    if d.metadata.Some? then d.metadata.value.customer_name else None
  }

  function MetaPayerCpf(d: Details): Text {
    if d.metadata.Some? then d.metadata.value.payer_cpf else None
  }

  function ExtraPayer(d: Details): Option<Payer> {
    if d.additional_info.Some? then d.additional_info.value.payer else None
  }

  function ExtraFirstName(d: Details): Text {
    var p := ExtraPayer(d);
    if p.Some? then p.value.first_name else None
  }

  function ExtraEmail(d: Details): Text {
    var p := ExtraPayer(d);
    if p.Some? then p.value.email else None
  }

  function ExtraIdNumber(d: Details): Text {
    IdNumber(ExtraPayer(d))
  }

  // ---------------------------------------------------------------------
  // A reference definition of a priority chain

  /** The value of the first truthy candidate, or `fallback` if none is. */
  function FirstPresent(candidates: seq<Text>, fallback: string): (r: string)
    ensures (exists k :: 0 <= k < |candidates| && Present(candidates[k]) && r == candidates[k].value
                         && forall m :: 0 <= m < k ==> !Present(candidates[m]))
            || ((forall k :: 0 <= k < |candidates| ==> !Present(candidates[k])) && r == fallback)
  {
    if candidates == [] then fallback
    else if Present(candidates[0]) then candidates[0].value
    else
      var r := FirstPresent(candidates[1..], fallback);
      assert forall k :: 0 < k < |candidates| ==> candidates[k] == candidates[1..][k - 1];
      r
  }

  // ---------------------------------------------------------------------
  // `extractPayerData`

  /** `[first_name, last_name].filter(Boolean).join(' ').trim()`. */
  function JoinedPayerName(d: Details): string {
    Trim(Join(PresentParts([PayerFirstName(d), PayerLastName(d)]), " "))
  }

  /** The name chain: the payer's own name parts if either is truthy, else
      the metadata's customer name, else the additional payer's first name. */
  function ExtractName(d: Details): string {
    if Present(PayerFirstName(d)) || Present(PayerLastName(d)) then JoinedPayerName(d)
    else if Present(MetaCustomerName(d)) then MetaCustomerName(d).value
    else if Present(ExtraFirstName(d)) then ExtraFirstName(d).value
    else NameSentinel
  }

  function ExtractEmail(d: Details): string {
    if Present(MetaBuyerEmail(d)) then MetaBuyerEmail(d).value
    else if Present(PayerEmail(d)) then PayerEmail(d).value
    else if Present(ExtraEmail(d)) then ExtraEmail(d).value
    else EmailSentinel
  }

  function ExtractCpf(d: Details): string {
    if Present(PayerIdNumber(d)) then PayerIdNumber(d).value
    else if Present(MetaPayerCpf(d)) then MetaPayerCpf(d).value
    else if Present(ExtraIdNumber(d)) then ExtraIdNumber(d).value
    else CpfSentinel
  }

  function ExtractPayerData(d: Details): Extracted {
    Extracted(ExtractName(d), ExtractEmail(d), ExtractCpf(d))
  }

  /** The sources of each field, in priority order. */
  function EmailSources(d: Details): seq<Text> {
    [MetaBuyerEmail(d), PayerEmail(d), ExtraEmail(d)]
  }

  function CpfSources(d: Details): seq<Text> {
    [PayerIdNumber(d), MetaPayerCpf(d), ExtraIdNumber(d)]
  }

  function NameSources(d: Details): seq<Text> {
    [PayerFirstName(d), PayerLastName(d), MetaCustomerName(d), ExtraFirstName(d)]
  }

  /** The e-mail is the first truthy of metadata.buyer_email, payer.email and
      additional_info.payer.email, else the sentinel; so is the CPF along
      its own chain. */
  lemma EmailAndCpfFollowPriority(d: Details)
    ensures ExtractEmail(d) == FirstPresent(EmailSources(d), EmailSentinel)
    ensures ExtractCpf(d) == FirstPresent(CpfSources(d), CpfSentinel)
  {
    FirstPresentOfThree(MetaBuyerEmail(d), PayerEmail(d), ExtraEmail(d), EmailSentinel);
    FirstPresentOfThree(PayerIdNumber(d), MetaPayerCpf(d), ExtraIdNumber(d), CpfSentinel);
  }

  /** A chain of three candidates is the nested conditional. */
  lemma FirstPresentOfThree(a: Text, b: Text, c: Text, fallback: string)
    ensures FirstPresent([a, b, c], fallback) ==
      if Present(a) then a.value else if Present(b) then b.value else if Present(c) then c.value else fallback
  {
    assert [a, b, c] == [a] + [b, c] && [b, c] == [b] + [c] && [c] == [c] + [];
    FirstPresentCons(a, [b, c], fallback);
    FirstPresentCons(b, [c], fallback);
    FirstPresentCons(c, [], fallback);
  }

  lemma FirstPresentCons(x: Text, rest: seq<Text>, fallback: string)
    ensures FirstPresent([x] + rest, fallback) == if Present(x) then x.value else FirstPresent(rest, fallback)
  {
    assert ([x] + rest)[1..] == rest;
  }

  /** The truthy parts of a pair, in order. */
  lemma PresentPartsOfTwo(a: Text, b: Text)
    ensures PresentParts([a, b]) == (if Present(a) then [a.value] else []) + (if Present(b) then [b.value] else [])
  {
    assert [a, b][1..] == [b];
    assert [b][1..] == [];
  }

  /** The name is the trimmed join of the payer's truthy name parts when
      there is one, and otherwise follows the chain metadata.customer_name,
      additional_info.payer.first_name, sentinel. */
  lemma NameFollowsPriority(d: Details)
    ensures Present(PayerFirstName(d)) && Present(PayerLastName(d)) ==>
      ExtractName(d) == Trim(PayerFirstName(d).value + " " + PayerLastName(d).value)
    ensures Present(PayerFirstName(d)) && !Present(PayerLastName(d)) ==>
      ExtractName(d) == Trim(PayerFirstName(d).value)
    ensures !Present(PayerFirstName(d)) && Present(PayerLastName(d)) ==>
      ExtractName(d) == Trim(PayerLastName(d).value)
    ensures !Present(PayerFirstName(d)) && !Present(PayerLastName(d)) ==>
      ExtractName(d) == FirstPresent([MetaCustomerName(d), ExtraFirstName(d)], NameSentinel)
  {
    var first, last := PayerFirstName(d), PayerLastName(d);
    PresentPartsOfTwo(first, last);
    if Present(first) && Present(last) {
      NameOfBothParts(d);
    } else if !Present(first) && !Present(last) {
      assert [MetaCustomerName(d), ExtraFirstName(d)] == [MetaCustomerName(d)] + [ExtraFirstName(d)];
      FirstPresentCons(MetaCustomerName(d), [ExtraFirstName(d)], NameSentinel);
      assert [ExtraFirstName(d)] == [ExtraFirstName(d)] + [];
      FirstPresentCons(ExtraFirstName(d), [], NameSentinel);
    }
  }

  lemma JoinOfTwo(x: string, y: string, sep: string)
    ensures Join([x, y], sep) == x + sep + y
  {
    assert [x, y][1..] == [y];
  }

  /** The three fields are extracted independently: each depends only on its
      own sources. */
  lemma FieldsAreIndependent(d: Details, d': Details)
    ensures NameSources(d) == NameSources(d') ==> ExtractName(d) == ExtractName(d')
    ensures EmailSources(d) == EmailSources(d') ==> ExtractEmail(d) == ExtractEmail(d')
    ensures CpfSources(d) == CpfSources(d') ==> ExtractCpf(d) == ExtractCpf(d')
  {
    if NameSources(d) == NameSources(d') {
      assert NameSources(d)[0] == NameSources(d')[0] && NameSources(d)[1] == NameSources(d')[1];
      assert NameSources(d)[2] == NameSources(d')[2] && NameSources(d)[3] == NameSources(d')[3];
    }
    if EmailSources(d) == EmailSources(d') {
      assert EmailSources(d)[0] == EmailSources(d')[0] && EmailSources(d)[1] == EmailSources(d')[1];
      assert EmailSources(d)[2] == EmailSources(d')[2];
    }
    if CpfSources(d) == CpfSources(d') {
      assert CpfSources(d)[0] == CpfSources(d')[0] && CpfSources(d)[1] == CpfSources(d')[1];
      assert CpfSources(d)[2] == CpfSources(d')[2];
    }
  }

  /** A first name of blanks is truthy, so it wins the chain and trims to the
      empty string, which still counts as a found name. */
  lemma BlankFirstNameIsFound(d: Details)
    requires PayerFirstName(d) == Some("  ") && !Present(PayerLastName(d))
    ensures ExtractName(d) == ""
    ensures Analyze(ExtractPayerData(d)).nameFound
  {
    NameFollowsPriority(d);
    assert TrimStart("  ") == "";
  }

  // ---------------------------------------------------------------------
  // `analysis`

  function Analyze(e: Extracted): (a: Analysis)
    ensures a.nameFound <==> e.payerName != NameSentinel
    ensures a.emailFound <==> e.payerEmail != EmailSentinel
    ensures a.cpfFound <==> e.payerCpf != CpfSentinel
    ensures a.allDataFound <==> a.nameFound && a.emailFound && a.cpfFound
  {
    Analysis(e.payerName != NameSentinel, e.payerEmail != EmailSentinel, e.payerCpf != CpfSentinel,
             e.payerName != NameSentinel && e.payerEmail != EmailSentinel && e.payerCpf != CpfSentinel)
  }

  /** `emailFound` holds exactly when some e-mail source is truthy and the
      first truthy one is not the sentinel text itself. */
  lemma EmailFoundIffSourcePresent(d: Details)
    ensures Analyze(ExtractPayerData(d)).emailFound <==>
      exists k :: 0 <= k < 3 && Present(EmailSources(d)[k]) && EmailSources(d)[k].value != EmailSentinel
                  && forall m :: 0 <= m < k ==> !Present(EmailSources(d)[m])
  {
    EmailAndCpfFollowPriority(d);
  }

  // ---------------------------------------------------------------------
  // The handler

  /** The built-in sample used when the body has no truthy `mockData`. */
  function DefaultMock(): Details {
    Details(
      Some(Payer(Some("João"), Some("Silva"), Some("joao.silva@email.com"),
                 Some(Identification(Some("CPF"), Some("12345678901"))))),
      Some(Metadata(Some("joao.silva@email.com"), Some("João Silva"), Some("12345678901"))),
      Some(AdditionalInfo(Some(Payer(Some("João"), Some("Silva"), Some("joao.silva@email.com"),
                                     Some(Identification(None, Some("12345678901"))))))))
  }

  /** The parsed body: unparseable (or `null`), or with its `mockData`,
      `None` when that is falsy. */
  datatype RequestBody = Unparseable | Body(mockData: Option<Details>)

  datatype TestResponse =
    | TestResult(input: Details, extracted: Extracted, analysis: Analysis)
    | TestFailure(error: string)
  {
    function HttpStatus(): int {
      if TestResult? then 200 else 500
    }
  }

  function Post(body: RequestBody): (r: TestResponse)
    ensures body.Unparseable? <==> r == TestFailure(ExtractionFailure)
    ensures body.Body? ==>
      && r.TestResult?
      && r.input == (if body.mockData.Some? then body.mockData.value else DefaultMock())
      && r.extracted == ExtractPayerData(r.input)
      && r.analysis == Analyze(r.extracted)
  {
    match body
    case Unparseable => TestFailure(ExtractionFailure)
    case Body(mock) =>
      var details := if mock.Some? then mock.value else DefaultMock();
      var extracted := ExtractPayerData(details);
      TestResult(details, extracted, Analyze(extracted))
  }

  /** Without mock data the sample's payer is fully found. */
  lemma DefaultMockIsFullyFound()
    ensures Post(Body(None)).extracted == Extracted("João Silva", "joao.silva@email.com", "12345678901")
    ensures Post(Body(None)).analysis.allDataFound
  {
    SampleName(DefaultMock());
  }

  lemma SampleName(d: Details)
    requires PayerFirstName(d) == Some("João") && PayerLastName(d) == Some("Silva")
    ensures ExtractName(d) == "João Silva"
  {
    NameOfBothParts(d);
    SampleNameIsTrimmed();
  }

  lemma SampleNameIsTrimmed()
    ensures Trim("João" + " " + "Silva") == "João Silva"
  {
    var name := "João" + " " + "Silva";
    assert name == "João Silva";
    TrimOfTrimmed(name);
  }

  /** With both name parts truthy the name is their trimmed join. */
  lemma NameOfBothParts(d: Details)
    requires Present(PayerFirstName(d)) && Present(PayerLastName(d))
    ensures ExtractName(d) == Trim(PayerFirstName(d).value + " " + PayerLastName(d).value)
  {
    PresentPartsOfTwo(PayerFirstName(d), PayerLastName(d));
    JoinOfTwo(PayerFirstName(d).value, PayerLastName(d).value, " ");
  }
}
