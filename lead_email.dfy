/**
 * The notification email for a new lead, at the level of its blocks and
 * labelled lines: which blocks appear, which lines each holds and what each
 * line shows. The submission time heading and the HTML markup are not modelled.
 */
module LeadEmail {
  import opened Wrappers
  import opened JsValues
  import opened Uploads
  import opened BillExtraction
  import opened LeadMerge
  import Form = FormAnswers
  import Submission

  /** One `<li>` of the email: its bold label and the text after it. */
  datatype Line = Line(heading: string, text: string)

  /** The blocks of the email, in order; a block the template leaves out is `None`. */
  datatype Email = Email(
    contact: seq<Line>,
    business: seq<Line>,
    electricity: Option<seq<Line>>,
    gas: Option<seq<Line>>,
    additional: seq<Line>,
    extracted: Option<seq<Line>>,
    billAttached: string)

  const NotProvided: string := "Not provided"

  /** A line that is printed only when its value is truthy. */
  function OptionalLine(heading: string, v: Option<string>): (r: seq<Line>)
    ensures |r| <= 1
    ensures !Truthy(v) ==> r == []
    ensures forall l :: l in r ==> l.heading == heading
    ensures forall w :: Line(heading, w) in r <==> Truthy(v) && v == Some(w)
  {
    if Truthy(v) then [Line(heading, v.value)] else []
  }

  /** The electricity block: five fixed lines and up to two conditional ones. */
  function ElectricityLines(lead: Lead): (r: seq<Line>)
    ensures 5 <= |r| <= 7
    ensures r[0] == Line("Meter Type", Interpolate(lead.meterType))
    ensures r[|r| - 1] == Line("Property Address", OrElse(lead.propertyAddress, NotProvided))
  {
    [Line("Meter Type", Interpolate(lead.meterType)),
     Line("Day Rate", OrElse(lead.dayRate, NotProvided))]
    + OptionalLine("Night Rate", lead.nightRate)
    + [Line("Standing Charge", OrElse(lead.standingCharge, NotProvided))]
    + OptionalLine("Capacity", lead.capacity)
    + [Line("Meter Number", OrElse(lead.meterNumber, NotProvided)),
       Line("Property Address", OrElse(lead.propertyAddress, NotProvided))]
  }

  /** The gas block: three lines, each defaulting to "Not provided". */
  function GasLines(lead: Lead): (r: seq<Line>)
    ensures |r| == 3
    ensures forall l :: l in r ==> l.text != ""
  {
    [Line("Day Rate", OrElse(lead.gasDayRate, NotProvided)),
     Line("Standing Charge", OrElse(lead.gasStandingCharge, NotProvided)),
     Line("Current Supplier", OrElse(lead.currentSupplier, NotProvided))]
  }

  /** The lines about the extracted data: four of its values, each only when truthy. */
  function ExtractedLines(x: Extracted): (r: seq<Line>)
    ensures |r| <= 4
    ensures forall l :: l in r ==> l.text != ""
  {
    OptionalLine("Meter Number", x.meterNumber)
    + OptionalLine("Supplier", x.supplier)
    + OptionalLine("Day Rate", x.dayRate)
    + OptionalLine("Standing Charge", x.standingCharge)
  }

  /**
   * The lead email. The electricity block appears only for electricity, the
   * gas block only for gas, the extracted block only with extracted data.
   */
  function GenerateLeadEmail(lead: Lead): (r: Email)
    ensures r.electricity.Some? <==> lead.serviceType == Some("Electricity")
    ensures r.gas.Some? <==> lead.serviceType == Some("Gas")
    ensures !(r.electricity.Some? && r.gas.Some?)
    ensures r.extracted.Some? <==> lead.extractedBillData.Some?
    ensures r.billAttached != ""
  {
    Email(
      contact := [
        Line("Name", Interpolate(lead.contactName)),
        Line("Email", Interpolate(lead.email)),
        Line("Phone", OrElse(lead.phone, NotProvided)),
        Line("Preferred Contact", Interpolate(lead.preferredContact))],
      business := [
        Line("Business Name", OrElse(lead.businessName, NotProvided)),
        Line("Service Type", Interpolate(lead.serviceType)),
        Line("Contract Status", Interpolate(lead.contractStatus)),
        Line("Bill Provided", Interpolate(lead.billProvided))],
      electricity := if lead.serviceType == Some("Electricity") then Some(ElectricityLines(lead)) else None,
      gas := if lead.serviceType == Some("Gas") then Some(GasLines(lead)) else None,
      additional := [
        Line("Annual Energy Usage", OrElse(lead.energyUsage, NotProvided)),
        Line("Contract End Date", OrElse(lead.contractEndDate, NotProvided))]
        + OptionalLine("Takeover Date", lead.takeoverDate)
        + [Line("Extra Details", OrElse(lead.additionalInfo, "None"))],
      extracted := if lead.extractedBillData.Some? then Some(ExtractedLines(lead.extractedBillData.value)) else None,
      billAttached := OrElse(lead.billFileName, "None"))
  }

  /** The value shown on the line headed `heading`, if the block has one. */
  predicate Shows(lines: seq<Line>, heading: string, text: string) {
    Line(heading, text) in lines
  }

  /**
   * In the electricity block, the day rate and standing charge lines are always
   * there and read "Not provided" for a missing value; the night rate and
   * capacity lines are there only for a non-empty value.
   */
  lemma ElectricityBlock(lead: Lead)
    requires lead.serviceType == Some("Electricity")
    ensures Shows(ElectricityLines(lead), "Day Rate", if Truthy(lead.dayRate) then lead.dayRate.value else NotProvided)
    ensures Shows(ElectricityLines(lead), "Standing Charge",
                  if Truthy(lead.standingCharge) then lead.standingCharge.value else NotProvided)
    ensures forall v :: Shows(ElectricityLines(lead), "Night Rate", v) <==> Truthy(lead.nightRate) && lead.nightRate == Some(v)
    ensures forall v :: Shows(ElectricityLines(lead), "Capacity", v) <==> Truthy(lead.capacity) && lead.capacity == Some(v)
    ensures forall v :: Shows(ElectricityLines(lead), "Meter Number", v) <==> v == OrElse(lead.meterNumber, NotProvided)
  {
  }

  /** The gas block's three lines always appear, with "Not provided" for a missing value. */
  lemma GasBlock(lead: Lead)
    requires lead.serviceType == Some("Gas")
    ensures Shows(GasLines(lead), "Day Rate", if Truthy(lead.gasDayRate) then lead.gasDayRate.value else NotProvided)
    ensures Shows(GasLines(lead), "Standing Charge",
                  if Truthy(lead.gasStandingCharge) then lead.gasStandingCharge.value else NotProvided)
    ensures Shows(GasLines(lead), "Current Supplier",
                  if Truthy(lead.currentSupplier) then lead.currentSupplier.value else NotProvided)
  {
  }

  /** The takeover date line appears only for a non-empty date; empty extra details read "None". */
  lemma AdditionalBlock(lead: Lead)
    ensures forall v :: Shows(GenerateLeadEmail(lead).additional, "Takeover Date", v) <==>
      Truthy(lead.takeoverDate) && lead.takeoverDate == Some(v)
    ensures Shows(GenerateLeadEmail(lead).additional, "Extra Details",
                  if Truthy(lead.additionalInfo) then lead.additionalInfo.value else "None")
    ensures Shows(GenerateLeadEmail(lead).additional, "Contract End Date",
                  if Truthy(lead.contractEndDate) then lead.contractEndDate.value else NotProvided)
  {
  }

  /** The extracted block lists the meter number, supplier, day rate and standing charge that are non-empty, and nothing else. */
  lemma ExtractedBlock(x: Extracted)
    ensures forall l :: l in ExtractedLines(x) ==>
      l.heading in {"Meter Number", "Supplier", "Day Rate", "Standing Charge"} && l.text != ""
    ensures forall v :: Shows(ExtractedLines(x), "Meter Number", v) <==> Truthy(x.meterNumber) && x.meterNumber == Some(v)
    ensures forall v :: Shows(ExtractedLines(x), "Supplier", v) <==> Truthy(x.supplier) && x.supplier == Some(v)
    ensures forall v :: Shows(ExtractedLines(x), "Day Rate", v) <==> Truthy(x.dayRate) && x.dayRate == Some(v)
    ensures forall v :: Shows(ExtractedLines(x), "Standing Charge", v) <==> Truthy(x.standingCharge) && x.standingCharge == Some(v)
  {
  }

  /** The phone, business name and annual usage lines always appear, with "Not provided" for a missing value. */
  lemma DefaultedLines(lead: Lead)
    ensures Shows(GenerateLeadEmail(lead).contact, "Phone",
                  if Truthy(lead.phone) then lead.phone.value else NotProvided)
    ensures Shows(GenerateLeadEmail(lead).business, "Business Name",
                  if Truthy(lead.businessName) then lead.businessName.value else NotProvided)
    ensures Shows(GenerateLeadEmail(lead).additional, "Annual Energy Usage",
                  if Truthy(lead.energyUsage) then lead.energyUsage.value else NotProvided)
  {
    var e := GenerateLeadEmail(lead);
    assert e.contact[2] in e.contact;
    assert e.business[0] in e.business;
    assert e.additional[0] in e.additional;
  }

  // ---------------------------------------------------------------------
  // From the form to the email

  /** The email for the lead built from a visitor's answers, a bill file and what was extracted from it. */
  function EmailFor(a: Form.Answers, billFile: Option<BillFile>, x: Option<Extracted>): Email {
    GenerateLeadEmail(Merge(RequestBody(Submission.Submitted(a, billFile)), billFile, x))
  }

  /**
   * End to end, for an electricity lead: the day rate line shows the visitor's
   * day rate when given, else the one read from the bill, else "Not provided".
   */
  lemma EmailDayRate(a: Form.Answers, billFile: Option<BillFile>, x: Option<Extracted>)
    requires a.serviceType == Some("Electricity")
    ensures EmailFor(a, billFile, x).electricity.Some?
    ensures Shows(EmailFor(a, billFile, x).electricity.value, "Day Rate",
      if a.dayRate != "" then a.dayRate
      else if Truthy(Lookup(x, BillDayRate)) then Lookup(x, BillDayRate).value
      else NotProvided)
  {
    var lead := Merge(RequestBody(Submission.Submitted(a, billFile)), billFile, x);
    assert lead.serviceType == Some("Electricity") by {
      LeadFromAnswers(a, billFile, x, Form.ServiceType);
    }
    assert lead.dayRate == Or(Some(a.dayRate), Lookup(x, BillDayRate)) by {
      LeadFromAnswers(a, billFile, x, Form.DayRate);
    }
    assert EmailFor(a, billFile, x) == GenerateLeadEmail(lead);
    ElectricityBlock(lead);
  }

  /**
   * On the server, the email has an extracted block exactly when a bill came
   * with the request and its reply was read as an object; without a file the
   * bill line reads "None".
   */
  lemma ExtractedBlockNeedsFile(body: Body, file: Option<BillFile>, reply: Reply, parse: string -> Parse)
    ensures GenerateLeadEmail(Merge(body, file, Extraction(file, reply, parse))).extracted.Some? <==>
      file.Some? && ExtractBillData(reply, parse).Some?
    ensures file.None? ==> GenerateLeadEmail(Merge(body, file, Extraction(file, reply, parse))).billAttached == "None"
  {
  }

  /**
   * A visitor who never chose a contact preference appears in the email with
   * the preference "undefined": the form does not send a `null` answer and the
   * template prints the missing value as it is.
   */
  lemma UnchosenPreference(a: Form.Answers, billFile: Option<BillFile>, x: Option<Extracted>)
    requires a.preferredContact == None
    ensures Shows(EmailFor(a, billFile, x).contact, "Preferred Contact", "undefined")
  {
    var lead := Merge(RequestBody(Submission.Submitted(a, billFile)), billFile, x);
    assert lead.preferredContact == None by {
      LeadFromAnswers(a, billFile, x, Form.PreferredContact);
    }
    var e := GenerateLeadEmail(lead);
    assert EmailFor(a, billFile, x) == e;
    assert e.contact[3] in e.contact;
  }

  /** The bill line names the attached file when there is one with a name, and reads "None" otherwise. */
  lemma BillAttachedLine(a: Form.Answers, billFile: Option<BillFile>, x: Option<Extracted>)
    ensures EmailFor(a, billFile, x).billAttached ==
      if billFile.Some? && billFile.value.name != "" then billFile.value.name else "None"
  {
  }
}
