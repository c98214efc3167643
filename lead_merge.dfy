/**
 * Assembling the lead on the server: the submitted form fields, with
 * selected fields falling back to the data extracted from the bill, plus the
 * file information.
 */
module LeadMerge {
  import opened Wrappers
  import opened JsValues
  import opened Uploads
  import opened BillExtraction
  import Form = FormAnswers
  import Submission

  /**
   * The parsed text fields of the request (`req.body`), by form key. Keys the
   * server never reads play no part and are not modelled.
   */
  type Body = map<Form.Field, string>

  /** The text parts of a multipart body, collected by key. */
  function RequestBody(entries: seq<Submission.Entry>): (r: Body)
    ensures forall i :: 0 <= i < |entries| && entries[i].TextEntry? ==> entries[i].field in r
  {
    if entries == [] then map[]
    else
      var e := entries[|entries| - 1];
      var body := RequestBody(entries[..|entries| - 1]);
      if e.TextEntry? then body[e.field := e.value] else body
  }

  /** `formData[f]` on the server; `None` is `undefined`, for a key that was not sent. */
  function Sent(body: Body, f: Form.Field): (v: Option<string>)
    ensures v.Some? <==> f in body
  {
    if f in body then Some(body[f]) else None
  }

  /** The lead record, without its timestamp. `None` is `undefined` for the form fields and `null` for the file information. */
  datatype Lead = Lead(
    serviceType: Option<string>,
    billProvided: Option<string>,
    contractStatus: Option<string>,
    businessName: Option<string>,
    contactName: Option<string>,
    email: Option<string>,
    phone: Option<string>,
    preferredContact: Option<string>,
    additionalInfo: Option<string>,
    meterType: Option<string>,
    dayRate: Option<string>,
    nightRate: Option<string>,
    capacity: Option<string>,
    standingCharge: Option<string>,
    meterNumber: Option<string>,
    propertyAddress: Option<string>,
    gasStandingCharge: Option<string>,
    gasDayRate: Option<string>,
    gasUsage: Option<string>,
    currentSupplier: Option<string>,
    contractEndDate: Option<string>,
    takeoverDate: Option<string>,
    energyUsage: Option<string>,
    billFileName: Option<string>,
    billFileSize: Option<nat>,
    extractedBillData: Option<Extracted>)

  /** The extracted value a form field falls back to, if it has one. */
  function Source(f: Form.Field): Option<BillField> {
    match f
    case BusinessName => Some(BillBusinessName)
    case DayRate => Some(BillDayRate)
    case NightRate => Some(BillNightRate)
    case Capacity => Some(BillCapacity)
    case StandingCharge => Some(BillStandingCharge)
    case MeterNumber => Some(BillMeterNumber)
    case PropertyAddress => Some(BillAddress)
    case CurrentSupplier => Some(BillSupplier)
    case _ => None
  }

  /**
   * `extractedBillData` in the endpoint: `null` unless a file came with the
   * request, otherwise what the extraction helper makes of the reply about it.
   */
  function Extraction(file: Option<BillFile>, reply: Reply, parse: string -> Parse): (r: Option<Extracted>)
    ensures r.Some? <==> file.Some? && ExtractBillData(reply, parse).Some?
    ensures r.Some? ==> r == ExtractBillData(reply, parse)
  {
    if file.Some? then ExtractBillData(reply, parse) else None
  }

  /**
   * The lead data: each form field as submitted, or, for the fields with a
   * source, `submitted || extracted?.source`; the file name and size exactly
   * when a file came with the request, and the extracted data as it is.
   */
  function Merge(body: Body, file: Option<BillFile>, extracted: Option<Extracted>): (r: Lead)
    ensures r.billFileName.None? <==> file.None?
    ensures r.billFileSize.None? <==> file.None?
    ensures file.Some? ==> r.billFileName == Some(file.value.name) && r.billFileSize == Some(file.value.size)
    ensures r.extractedBillData == extracted
  {
    Lead(
      serviceType := Sent(body, Form.ServiceType),
      billProvided := Sent(body, Form.BillProvided),
      contractStatus := Sent(body, Form.ContractStatus),
      businessName := Or(Sent(body, Form.BusinessName), Lookup(extracted, BillBusinessName)),
      contactName := Sent(body, Form.ContactName),
      email := Sent(body, Form.Email),
      phone := Sent(body, Form.Phone),
      preferredContact := Sent(body, Form.PreferredContact),
      additionalInfo := Sent(body, Form.AdditionalInfo),
      meterType := Sent(body, Form.MeterType),
      dayRate := Or(Sent(body, Form.DayRate), Lookup(extracted, BillDayRate)),
      nightRate := Or(Sent(body, Form.NightRate), Lookup(extracted, BillNightRate)),
      capacity := Or(Sent(body, Form.Capacity), Lookup(extracted, BillCapacity)),
      standingCharge := Or(Sent(body, Form.StandingCharge), Lookup(extracted, BillStandingCharge)),
      meterNumber := Or(Sent(body, Form.MeterNumber), Lookup(extracted, BillMeterNumber)),
      propertyAddress := Or(Sent(body, Form.PropertyAddress), Lookup(extracted, BillAddress)),
      gasStandingCharge := Sent(body, Form.GasStandingCharge),
      gasDayRate := Sent(body, Form.GasDayRate),
      gasUsage := Sent(body, Form.GasUsage),
      currentSupplier := Or(Sent(body, Form.CurrentSupplier), Lookup(extracted, BillSupplier)),
      contractEndDate := Sent(body, Form.ContractEndDate),
      takeoverDate := Sent(body, Form.TakeoverDate),
      energyUsage := Sent(body, Form.EnergyUsage),
      billFileName := if file.Some? then Some(file.value.name) else None,
      billFileSize := if file.Some? then Some(file.value.size) else None,
      extractedBillData := extracted)
  }

  /** The form fields the lead carries: all but the comparison preference and the full meter number. */
  predicate Carried(f: Form.Field) {
    f != Form.DetailedComparison && f != Form.FullMeterNumber
  }

  /** The lead's value for a carried form field. */
  function LeadField(lead: Lead, f: Form.Field): Option<string>
    requires Carried(f)
  {
    match f
    case ServiceType => lead.serviceType
    case BillProvided => lead.billProvided
    case ContractStatus => lead.contractStatus
    case MeterType => lead.meterType
    case BusinessName => lead.businessName
    case ContactName => lead.contactName
    case Email => lead.email
    case Phone => lead.phone
    case PreferredContact => lead.preferredContact
    case AdditionalInfo => lead.additionalInfo
    case DayRate => lead.dayRate
    case NightRate => lead.nightRate
    case StandingCharge => lead.standingCharge
    case Capacity => lead.capacity
    case MeterNumber => lead.meterNumber
    case PropertyAddress => lead.propertyAddress
    case ContractEndDate => lead.contractEndDate
    case TakeoverDate => lead.takeoverDate
    case EnergyUsage => lead.energyUsage
    case CurrentSupplier => lead.currentSupplier
    case GasDayRate => lead.gasDayRate
    case GasStandingCharge => lead.gasStandingCharge
    case GasUsage => lead.gasUsage
  }

  /**
   * Fields with a source: the submitted value wins when it is non-empty;
   * otherwise the extracted value is used, absent when nothing was extracted.
   */
  lemma SubmittedValueWins(body: Body, file: Option<BillFile>, x: Option<Extracted>, f: Form.Field)
    requires Source(f).Some?
    ensures Carried(f)
    ensures Truthy(Sent(body, f)) ==> LeadField(Merge(body, file, x), f) == Sent(body, f)
    ensures !Truthy(Sent(body, f)) ==> LeadField(Merge(body, file, x), f) == Lookup(x, Source(f).value)
  {
    assert LeadField(Merge(body, file, x), f) == Or(Sent(body, f), Lookup(x, Source(f).value));
  }

  /** Which extracted value each field falls back to: the same-named one, or `address` and `supplier` for the renamed two. */
  lemma Sources()
    ensures forall f :: Source(f).Some? <==>
      f in {Form.BusinessName, Form.DayRate, Form.NightRate, Form.Capacity, Form.StandingCharge,
            Form.MeterNumber, Form.PropertyAddress, Form.CurrentSupplier}
    ensures Source(Form.PropertyAddress) == Some(BillAddress)
    ensures Source(Form.CurrentSupplier) == Some(BillSupplier)
  {
  }

  /** The other carried fields are passed through as submitted, whatever was extracted. */
  lemma PassThrough(body: Body, file: Option<BillFile>, x: Option<Extracted>, f: Form.Field)
    requires Carried(f) && Source(f).None?
    ensures LeadField(Merge(body, file, x), f) == Sent(body, f)
  {
  }

  /** The comparison preference and the full meter number never reach the lead. */
  lemma DroppedFields(body: Body, file: Option<BillFile>, x: Option<Extracted>, v: string)
    ensures Merge(body[Form.FullMeterNumber := v], file, x) == Merge(body, file, x)
    ensures Merge(body[Form.DetailedComparison := v], file, x) == Merge(body, file, x)
  {
    DroppedField(body, file, x, Form.FullMeterNumber, v);
    DroppedField(body, file, x, Form.DetailedComparison, v);
  }

  lemma DroppedField(body: Body, file: Option<BillFile>, x: Option<Extracted>, g: Form.Field, v: string)
    requires !Carried(g)
    ensures Merge(body[g := v], file, x) == Merge(body, file, x)
  {
    var b := body[g := v];
    // each carried key reads the same in both bodies
    assert Sent(b, Form.ServiceType) == Sent(body, Form.ServiceType);
    assert Sent(b, Form.BillProvided) == Sent(body, Form.BillProvided);
    assert Sent(b, Form.ContractStatus) == Sent(body, Form.ContractStatus);
    assert Sent(b, Form.BusinessName) == Sent(body, Form.BusinessName);
    assert Sent(b, Form.ContactName) == Sent(body, Form.ContactName);
    assert Sent(b, Form.Email) == Sent(body, Form.Email);
    assert Sent(b, Form.Phone) == Sent(body, Form.Phone);
    assert Sent(b, Form.PreferredContact) == Sent(body, Form.PreferredContact);
    assert Sent(b, Form.AdditionalInfo) == Sent(body, Form.AdditionalInfo);
    assert Sent(b, Form.MeterType) == Sent(body, Form.MeterType);
    assert Sent(b, Form.DayRate) == Sent(body, Form.DayRate);
    assert Sent(b, Form.NightRate) == Sent(body, Form.NightRate);
    assert Sent(b, Form.Capacity) == Sent(body, Form.Capacity);
    assert Sent(b, Form.StandingCharge) == Sent(body, Form.StandingCharge);
    assert Sent(b, Form.MeterNumber) == Sent(body, Form.MeterNumber);
    assert Sent(b, Form.PropertyAddress) == Sent(body, Form.PropertyAddress);
    assert Sent(b, Form.GasStandingCharge) == Sent(body, Form.GasStandingCharge);
    assert Sent(b, Form.GasDayRate) == Sent(body, Form.GasDayRate);
    assert Sent(b, Form.GasUsage) == Sent(body, Form.GasUsage);
    assert Sent(b, Form.CurrentSupplier) == Sent(body, Form.CurrentSupplier);
    assert Sent(b, Form.ContractEndDate) == Sent(body, Form.ContractEndDate);
    assert Sent(b, Form.TakeoverDate) == Sent(body, Form.TakeoverDate);
    assert Sent(b, Form.EnergyUsage) == Sent(body, Form.EnergyUsage);
  }

  /** With nothing extracted, every carried field is the submitted one or absent. */
  lemma AbsentExtraction(body: Body, file: Option<BillFile>, f: Form.Field)
    requires Carried(f)
    ensures LeadField(Merge(body, file, None), f) == Sent(body, f) || LeadField(Merge(body, file, None), f) == None
    ensures Truthy(Sent(body, f)) ==> LeadField(Merge(body, file, None), f) == Sent(body, f)
  {
  }

  /** An answered meter question ('yes' or 'no') is what the lead records, whatever the bill says. */
  lemma AnsweredMeterQuestionWins(body: Body, file: Option<BillFile>, x: Option<Extracted>)
    requires Sent(body, Form.MeterNumber) == Some("yes") || Sent(body, Form.MeterNumber) == Some("no")
    ensures Merge(body, file, x).meterNumber == Sent(body, Form.MeterNumber)
  {
  }

  // ---------------------------------------------------------------------
  // From the form to the lead

  /** The body the server parses out of the text parts `TextEntries(a, fields)`. */
  lemma {:induction false} BodyOfTextEntries(a: Form.Answers, fields: seq<Form.Field>)
    ensures forall f ::
      Sent(RequestBody(Submission.TextEntries(a, fields)), f)
        == if f in fields && Truthy(Form.Get(a, f)) then Form.Get(a, f) else None
    decreases |fields|
  {
    if fields != [] {
      var init := fields[..|fields| - 1];
      BodyOfTextEntries(a, init);
      assert fields == init + [fields[|fields| - 1]];
      var last := fields[|fields| - 1];
      var tail := if Truthy(Form.Get(a, last)) then [Submission.TextEntry(last, Form.Get(a, last).value)] else [];
      var entries := Submission.TextEntries(a, fields);
      assert entries == Submission.TextEntries(a, init) + tail;
      var before := RequestBody(Submission.TextEntries(a, init));
      if tail != [] {
        assert entries[..|entries| - 1] == Submission.TextEntries(a, init);
        assert RequestBody(entries) == before[last := Form.Get(a, last).value];
      } else {
        assert entries == Submission.TextEntries(a, init);
      }
    }
  }

  /** What the server receives from the form: each answer that is neither `null` nor `''`, as it was. */
  lemma ReceivedBody(a: Form.Answers, billFile: Option<BillFile>)
    ensures forall f ::
      Sent(RequestBody(Submission.Submitted(a, billFile)), f)
        == if Truthy(Form.Get(a, f)) then Form.Get(a, f) else None
  {
    var texts := Submission.TextEntries(a, Form.AllFields);
    BodyOfTextEntries(a, Form.AllFields);
    if billFile.Some? {
      var entries := Submission.Submitted(a, billFile);
      assert entries[..|entries| - 1] == texts;
    } else {
      assert Submission.Submitted(a, billFile) == texts;
    }
    forall f
      ensures f in Form.AllFields
    {
      assert Form.AllFields[Form.FieldIndex(f)] == f;
    }
  }

  /**
   * End to end: a field with a source holds the visitor's answer when it is
   * non-empty and the extracted value otherwise; a field without one holds the
   * answer when it is neither `null` nor `''` and is absent otherwise.
   */
  lemma LeadFromAnswers(a: Form.Answers, billFile: Option<BillFile>, x: Option<Extracted>, f: Form.Field)
    requires Carried(f)
    ensures Source(f).Some? ==>
      LeadField(Merge(RequestBody(Submission.Submitted(a, billFile)), billFile, x), f)
        == Or(Form.Get(a, f), Lookup(x, Source(f).value))
    ensures Source(f).None? ==>
      LeadField(Merge(RequestBody(Submission.Submitted(a, billFile)), billFile, x), f)
        == if Truthy(Form.Get(a, f)) then Form.Get(a, f) else None
  {
    var body := RequestBody(Submission.Submitted(a, billFile));
    ReceivedBody(a, billFile);
    if Source(f).Some? {
      SubmittedValueWins(body, billFile, x, f);
    } else {
      PassThrough(body, billFile, x, f);
    }
  }

  /** Once the meter question is answered, the extracted meter number never becomes the lead's. */
  lemma MeterAnswerOverridesBill(a: Form.Answers, billFile: Option<BillFile>, x: Option<Extracted>)
    requires a.meterNumber == Some("yes") || a.meterNumber == Some("no")
    ensures Merge(RequestBody(Submission.Submitted(a, billFile)), billFile, x).meterNumber == a.meterNumber
  {
    LeadFromAnswers(a, billFile, x, Form.MeterNumber);
  }
}
