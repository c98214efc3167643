/**
 * The flow planner of the lead form: from the answers given so far it
 * computes the ordered list of questions the form walks through.
 */
module StepPlanner {
  import opened Wrappers
  import opened JsValues
  import Form = FormAnswers

  /** The identifiers of the questionnaire's steps. */
  datatype Question =
    | ServiceType | BillProvided | UploadBill | ContractStatus | DetailedComparison
    | MeterType | DayRate | NightRate | Capacity | StandingCharge
    | MeterNumberQuestion | FullMeterNumber | PropertyAddress
    | GasDayRate | GasStandingCharge | ContractEndDate | TakeoverDate | EnergyUsage
    | CurrentSupplier | BusinessName | ContactName | Email | Phone
    | PreferredContact | AdditionalInfo | Review

  // ---------------------------------------------------------------------
  // The plan, section by section

  /** The opening questions: the array literal the plan starts from, nulls removed. */
  function Opening(a: Form.Answers): seq<Question> {
    [ServiceType, BillProvided]
    + (if a.billProvided == Some("yes") then [UploadBill] else [])
    + (if a.billProvided == Some("no") || a.billProvided == Some("yes") then [ContractStatus] else [])
  }

  /** Whether the form offers the detailed-comparison question. */
  predicate OffersComparison(a: Form.Answers) {
    a.billProvided == Some("no") && Truthy(a.contractStatus)
  }

  /** The tariff questions for an electricity meter type. */
  function RateQuestions(meterType: Option<string>): seq<Question> {
    if meterType == Some("Half-Hourly") then [DayRate, NightRate, Capacity, StandingCharge]
    else if meterType == Some("Economy 7") || meterType == Some("Single Rate") then
      [DayRate, StandingCharge] + (if meterType == Some("Economy 7") then [NightRate] else [])
    else []
  }

  function ElectricityQuestions(a: Form.Answers): seq<Question> {
    (if OffersComparison(a) then [DetailedComparison] else [])
    + (if a.detailedComparison == Some("yes") && Truthy(a.contractStatus) then [MeterType] else [])
    + RateQuestions(a.meterType)
    + (if a.meterNumber == None then [MeterNumberQuestion] else [])
    + (if a.meterNumber == Some("yes") then [FullMeterNumber] else [PropertyAddress])
  }

  function GasQuestions(a: Form.Answers): seq<Question> {
    (if OffersComparison(a) then [DetailedComparison] else [])
    + (if a.detailedComparison == Some("yes") then [GasDayRate, GasStandingCharge] else [])
    + [MeterNumberQuestion]
    + (if a.meterNumber == Some("yes") then [FullMeterNumber] else [])
  }

  function ServiceQuestions(a: Form.Answers): seq<Question> {
    (if a.serviceType == Some("Electricity") then ElectricityQuestions(a) else [])
    + (if a.serviceType == Some("Gas") then GasQuestions(a) else [])
  }

  function ContractQuestions(a: Form.Answers): seq<Question> {
    if a.serviceType != Some("Water") && Truthy(a.contractStatus) then
      [ContractEndDate] + (if a.contractStatus == Some("moved") then [TakeoverDate] else [])
    else []
  }

  function UsageQuestions(a: Form.Answers): seq<Question> {
    if a.serviceType != Some("Water") && a.billProvided == Some("no") then [EnergyUsage] else []
  }

  /** The general questions every plan ends with. */
  const Closing: seq<Question> :=
    [CurrentSupplier, BusinessName, ContactName, Email, Phone, PreferredContact, AdditionalInfo, Review]

  /** The visible steps for the answers `a`; it always ends on the review. */
  function Plan(a: Form.Answers): (r: seq<Question>)
    ensures |r| >= 10
  {
    Opening(a) + ServiceQuestions(a) + ContractQuestions(a) + UsageQuestions(a) + Closing
  }

  // ---------------------------------------------------------------------
  // The array `getVisibleSteps` builds: entries that may be null, then filtered

  /** `xs.filter(s => s !== null)`. */
  function Present(xs: seq<Option<Question>>): (r: seq<Question>)
    ensures |r| <= |xs|
  {
    if xs == [] then []
    else Present(xs[..|xs| - 1]) + (match xs[|xs| - 1] case Some(q) => [q] case None => [])
  }

  /** The entries `qs`, none of them null. */
  function Lift(qs: seq<Question>): (r: seq<Option<Question>>)
    ensures |r| == |qs| && forall i :: 0 <= i < |qs| ==> r[i] == Some(qs[i])
  {
    seq(|qs|, i requires 0 <= i < |qs| => Some(qs[i]))
  }

  /** Pushing `qs` after the pushed steps `done` is pushing `done + qs`. */
  lemma Extend(base: seq<Option<Question>>, done: seq<Question>, qs: seq<Question>)
    ensures base + Lift(done) + Lift(qs) == base + Lift(done + qs)
  {
  }

  /** `xs.push(...qs)`. */
  function Push(xs: seq<Option<Question>>, qs: seq<Question>): (r: seq<Option<Question>>)
    ensures r == xs + Lift(qs)
  {
    xs + Lift(qs)
  }

  /** Filtering after pushing keeps exactly the pushed steps. */
  lemma {:induction false} PushPresent(xs: seq<Option<Question>>, qs: seq<Question>)
    ensures Present(xs + Lift(qs)) == Present(xs) + qs
    decreases |qs|
  {
    var ys := xs + Lift(qs);
    if qs != [] {
      var init := qs[..|qs| - 1];
      PushPresent(xs, init);
      assert ys[..|ys| - 1] == xs + Lift(init);
      assert qs == init + [qs[|qs| - 1]];
    } else {
      assert ys == xs;
    }
  }

  lemma Regroup(o: seq<Question>, s: seq<Question>, c: seq<Question>, u: seq<Question>, e: seq<Question>)
    ensures o + s + c + u + e == o + (s + c + u + e)
  {
  }

  /** The array literal `getVisibleSteps` starts from. */
  function OpeningArray(a: Form.Answers): seq<Option<Question>> {
    [ Some(ServiceType),
      Some(BillProvided),
      if a.billProvided == Some("yes") then Some(UploadBill) else None,
      if a.billProvided == Some("no") || a.billProvided == Some("yes") then Some(ContractStatus) else None ]
  }

  /** Filtering the opening array literal leaves the opening questions. */
  lemma OpeningFiltered(a: Form.Answers)
    ensures Present(OpeningArray(a)) == Opening(a)
  {
    var raw := OpeningArray(a);
    assert raw[..1][..0] == [];
    assert Present(raw[..1]) == [ServiceType];
    assert raw[..2][..1] == raw[..1];
    assert Present(raw[..2]) == [ServiceType, BillProvided];
    assert raw[..3][..2] == raw[..2];
    assert raw[..|raw| - 1] == raw[..3];
  }

  /** The pushes chosen by the meter type, inside the electricity block. */
  method PushRateSteps(raw: seq<Option<Question>>, meterType: Option<string>) returns (r: seq<Option<Question>>)
    ensures r == raw + Lift(RateQuestions(meterType))
  {
    r := raw;
    if meterType == Some("Half-Hourly") {
      r := Push(r, [DayRate, NightRate, Capacity, StandingCharge]);
    } else if meterType == Some("Economy 7") || meterType == Some("Single Rate") {
      r := Push(r, [DayRate, StandingCharge]);
      if meterType == Some("Economy 7") {
        Extend(raw, [DayRate, StandingCharge], [NightRate]);
        r := Push(r, [NightRate]);
      }
    }
  }

  /** The body of the `serviceType === 'Electricity'` block. */
  method PushElectricitySteps(raw: seq<Option<Question>>, a: Form.Answers) returns (r: seq<Option<Question>>)
    ensures r == raw + Lift(ElectricityQuestions(a))
  {
    r := raw;
    ghost var done: seq<Question> := [];
    assert r == raw + Lift(done);
    if a.billProvided == Some("no") && Truthy(a.contractStatus) {
      r := Push(r, [DetailedComparison]);
      Extend(raw, done, [DetailedComparison]);
      done := done + [DetailedComparison];
    }
    if a.detailedComparison == Some("yes") && Truthy(a.contractStatus) {
      r := Push(r, [MeterType]);
      Extend(raw, done, [MeterType]);
      done := done + [MeterType];
    }
    ghost var chosen := done;
    assert chosen == (if OffersComparison(a) then [DetailedComparison] else [])
      + (if a.detailedComparison == Some("yes") && Truthy(a.contractStatus) then [MeterType] else []);
    r := PushRateSteps(r, a.meterType);
    Extend(raw, done, RateQuestions(a.meterType));
    done := done + RateQuestions(a.meterType);
    ghost var rated := done;
    if a.meterNumber == None {
      r := Push(r, [MeterNumberQuestion]);
      Extend(raw, done, [MeterNumberQuestion]);
      done := done + [MeterNumberQuestion];
    }
    ghost var asked := done;
    assert asked == rated + (if a.meterNumber == None then [MeterNumberQuestion] else []);
    if a.meterNumber == Some("yes") {
      r := Push(r, [FullMeterNumber]);
      Extend(raw, done, [FullMeterNumber]);
      done := done + [FullMeterNumber];
    } else {
      r := Push(r, [PropertyAddress]);
      Extend(raw, done, [PropertyAddress]);
      done := done + [PropertyAddress];
    }
    assert done == ElectricityQuestions(a);
  }

  /** The body of the `serviceType === 'Gas'` block. */
  method PushGasSteps(raw: seq<Option<Question>>, a: Form.Answers) returns (r: seq<Option<Question>>)
    ensures r == raw + Lift(GasQuestions(a))
  {
    r := raw;
    ghost var done: seq<Question> := [];
    assert r == raw + Lift(done);
    if a.billProvided == Some("no") && Truthy(a.contractStatus) {
      r := Push(r, [DetailedComparison]);
      Extend(raw, done, [DetailedComparison]);
      done := done + [DetailedComparison];
    }
    if a.detailedComparison == Some("yes") {
      r := Push(r, [GasDayRate, GasStandingCharge]);
      Extend(raw, done, [GasDayRate, GasStandingCharge]);
      done := done + [GasDayRate, GasStandingCharge];
    }
    r := Push(r, [MeterNumberQuestion]);
    Extend(raw, done, [MeterNumberQuestion]);
    done := done + [MeterNumberQuestion];
    ghost var asked := done;
    if a.meterNumber == Some("yes") {
      r := Push(r, [FullMeterNumber]);
      Extend(raw, done, [FullMeterNumber]);
      done := done + [FullMeterNumber];
    }
    assert done == GasQuestions(a);
  }

  /** `steps.filter(s => s !== null)`. */
  method FilterNulls(raw: seq<Option<Question>>) returns (steps: seq<Question>)
    ensures steps == Present(raw)
  {
    steps := [];
    for i := 0 to |raw|
      invariant steps == Present(raw[..i])
    {
      assert raw[..i + 1][..i] == raw[..i];
      if raw[i] != None {
        steps := steps + [raw[i].value];
      }
    }
    assert raw[..|raw|] == raw;
  }

  /**
   * `getVisibleSteps`: builds the array of steps by successive pushes and
   * removes the null entries; the result is the plan for `a`.
   */
  method GetVisibleSteps(a: Form.Answers) returns (steps: seq<Question>)
    ensures steps == Plan(a)
  {
    var raw := OpeningArray(a);
    ghost var base := raw;
    ghost var done: seq<Question> := [];
    assert raw == base + Lift(done);
    if a.serviceType == Some("Electricity") {
      raw := PushElectricitySteps(raw, a);
      done := ElectricityQuestions(a);
    }
    if a.serviceType == Some("Gas") {
      raw := PushGasSteps(raw, a);
      Extend(base, done, GasQuestions(a));
      done := done + GasQuestions(a);
    }
    assert done == ServiceQuestions(a);
    ghost var service := done;
    if a.serviceType != Some("Water") {
      if a.billProvided == Some("no") && !Truthy(a.contractStatus) {
        // straight on to the general questions
      } else if Truthy(a.contractStatus) {
        raw := Push(raw, [ContractEndDate]);
        Extend(base, done, [ContractEndDate]);
        done := done + [ContractEndDate];
        if a.contractStatus == Some("moved") {
          raw := Push(raw, [TakeoverDate]);
          Extend(base, done, [TakeoverDate]);
          done := done + [TakeoverDate];
        }
      }
    }
    assert done == service + ContractQuestions(a);
    ghost var contract := done;
    if a.serviceType != Some("Water") && a.billProvided == Some("no") {
      raw := Push(raw, [EnergyUsage]);
      Extend(base, done, [EnergyUsage]);
      done := done + [EnergyUsage];
    }
    assert done == contract + UsageQuestions(a);
    raw := Push(raw, Closing);
    Extend(base, done, Closing);
    done := done + Closing;
    assert done == ServiceQuestions(a) + ContractQuestions(a) + UsageQuestions(a) + Closing;
    PushPresent(base, done);
    OpeningFiltered(a);
    Regroup(Opening(a), ServiceQuestions(a), ContractQuestions(a), UsageQuestions(a), Closing);
    steps := FilterNulls(raw);
  }
}
