/**
 * What the questionnaire's plan promises, for every set of answers: its fixed
 * opening and closing, that no question is asked twice, and which branch
 * questions each service type brings in.
 */
module PlanProperties {
  import opened Wrappers
  import opened JsValues
  import opened StepPlanner
  import Form = FormAnswers

  /** No identifier occurs twice. */
  predicate Distinct(s: seq<Question>) {
    forall i, j :: 0 <= i < j < |s| ==> s[i] != s[j]
  }

  /** `block` occurs in `s` as a contiguous run. */
  predicate Contiguous(s: seq<Question>, block: seq<Question>) {
    exists k :: 0 <= k <= |s| - |block| && s[k..][..|block|] == block
  }

  /** The tariff questions of the electricity branch. */
  predicate IsRateQuestion(q: Question) {
    q == DayRate || q == NightRate || q == Capacity || q == StandingCharge
  }

  /** Which part of the plan a question can come from. */
  function Part(q: Question): nat {
    match q
    case ServiceType => 0
    case BillProvided => 0
    case UploadBill => 0
    case ContractStatus => 0
    case ContractEndDate => 2
    case TakeoverDate => 2
    case EnergyUsage => 3
    case CurrentSupplier => 4
    case BusinessName => 4
    case ContactName => 4
    case Email => 4
    case Phone => 4
    case PreferredContact => 4
    case AdditionalInfo => 4
    case Review => 4
    case _ => 1
  }

  /** The order of the service branch's own questions. */
  function BranchRank(q: Question): nat {
    match q
    case DetailedComparison => 0
    case MeterType => 1
    case MeterNumberQuestion => 3
    case FullMeterNumber => 4
    case PropertyAddress => 4
    case _ => 2
  }

  /** Appending a block ranked above everything before it keeps the identifiers distinct. */
  lemma {:induction false} RankedAppend(s: seq<Question>, t: seq<Question>, rank: Question -> nat, k: nat)
    requires Distinct(s) && Distinct(t)
    requires forall x :: x in s ==> rank(x) < k
    requires forall x :: x in t ==> rank(x) == k
    ensures Distinct(s + t)
    ensures forall x :: x in s + t ==> rank(x) <= k
  {
    forall i, j | 0 <= i < j < |s + t|
      ensures (s + t)[i] != (s + t)[j]
    {
      if i < |s| && |s| <= j {
        assert (s + t)[i] in s;
        assert (s + t)[j] in t;
      }
    }
  }

  lemma OpeningFacts(a: Form.Answers)
    ensures Distinct(Opening(a))
    ensures forall x :: x in Opening(a) ==> Part(x) == 0
  {
  }

  lemma RateFacts(meterType: Option<string>)
    ensures Distinct(RateQuestions(meterType))
    ensures forall x :: x in RateQuestions(meterType) ==> IsRateQuestion(x)
  {
  }

  lemma ElectricityBlocks(c: seq<Question>, t: seq<Question>, r: seq<Question>, n: seq<Question>, m: seq<Question>)
    requires c == [] || c == [DetailedComparison]
    requires t == [] || t == [MeterType]
    requires Distinct(r) && forall x :: x in r ==> IsRateQuestion(x)
    requires n == [] || n == [MeterNumberQuestion]
    requires m == [FullMeterNumber] || m == [PropertyAddress]
    ensures Distinct(c + t + r + n + m)
    ensures forall x :: x in c + t + r + n + m ==> Part(x) == 1
  {
    RankedAppend([], c, BranchRank, 0);
    assert [] + c == c;
    RankedAppend(c, t, BranchRank, 1);
    RankedAppend(c + t, r, BranchRank, 2);
    RankedAppend(c + t + r, n, BranchRank, 3);
    RankedAppend(c + t + r + n, m, BranchRank, 4);
  }

  lemma ElectricityFacts(a: Form.Answers)
    ensures Distinct(ElectricityQuestions(a))
    ensures forall x :: x in ElectricityQuestions(a) ==> Part(x) == 1
  {
    var c := if OffersComparison(a) then [DetailedComparison] else [];
    var t := if a.detailedComparison == Some("yes") && Truthy(a.contractStatus) then [MeterType] else [];
    var r := RateQuestions(a.meterType);
    var n := if a.meterNumber == None then [MeterNumberQuestion] else [];
    var m := if a.meterNumber == Some("yes") then [FullMeterNumber] else [PropertyAddress];
    assert ElectricityQuestions(a) == c + t + r + n + m;
    RateFacts(a.meterType);
    ElectricityBlocks(c, t, r, n, m);
  }

  lemma GasBlocks(c: seq<Question>, d: seq<Question>, m: seq<Question>)
    requires c == [] || c == [DetailedComparison]
    requires d == [] || d == [GasDayRate, GasStandingCharge]
    requires m == [] || m == [FullMeterNumber]
    ensures Distinct(c + d + [MeterNumberQuestion] + m)
    ensures forall x :: x in c + d + [MeterNumberQuestion] + m ==> Part(x) == 1
  {
    RankedAppend([], c, BranchRank, 0);
    assert [] + c == c;
    RankedAppend(c, d, BranchRank, 2);
    RankedAppend(c + d, [MeterNumberQuestion], BranchRank, 3);
    RankedAppend(c + d + [MeterNumberQuestion], m, BranchRank, 4);
  }

  lemma GasFacts(a: Form.Answers)
    ensures Distinct(GasQuestions(a))
    ensures forall x :: x in GasQuestions(a) ==> Part(x) == 1
  {
  }

  lemma ServiceFacts(a: Form.Answers)
    ensures Distinct(ServiceQuestions(a))
    ensures forall x :: x in ServiceQuestions(a) ==> Part(x) == 1
  {
    ElectricityFacts(a);
    GasFacts(a);
    assert ServiceQuestions(a) == ElectricityQuestions(a) || ServiceQuestions(a) == GasQuestions(a)
      || ServiceQuestions(a) == [];
  }

  lemma TailFacts(a: Form.Answers)
    ensures Distinct(ContractQuestions(a)) && Distinct(UsageQuestions(a)) && Distinct(Closing)
    ensures forall x :: x in ContractQuestions(a) ==> Part(x) == 2
    ensures forall x :: x in UsageQuestions(a) ==> Part(x) == 3
    ensures forall x :: x in Closing ==> Part(x) == 4
  {
  }

  /** No question is asked twice, whatever the answers. */
  lemma PlanDistinct(a: Form.Answers)
    ensures Distinct(Plan(a))
  {
    var o := Opening(a);
    var s := ServiceQuestions(a);
    var c := ContractQuestions(a);
    var u := UsageQuestions(a);
    OpeningFacts(a);
    ServiceFacts(a);
    TailFacts(a);
    RankedAppend([], o, Part, 0);
    RankedAppend(o, s, Part, 1);
    RankedAppend(o + s, c, Part, 2);
    RankedAppend(o + s + c, u, Part, 3);
    RankedAppend(o + s + c + u, Closing, Part, 4);
  }

  /** Each question can only come from the part of the plan `Part` names. */
  lemma PlanMembership(a: Form.Answers)
    ensures forall x :: Part(x) == 0 ==> (x in Plan(a) <==> x in Opening(a))
    ensures forall x :: Part(x) == 1 ==> (x in Plan(a) <==> x in ServiceQuestions(a))
    ensures forall x :: Part(x) == 2 ==> (x in Plan(a) <==> x in ContractQuestions(a))
    ensures forall x :: Part(x) == 3 ==> (x in Plan(a) <==> x in UsageQuestions(a))
  {
    OpeningFacts(a);
    ServiceFacts(a);
    TailFacts(a);
  }

  /** Every plan ends with the eight general questions, the review last. */
  lemma PlanClosing(a: Form.Answers)
    ensures |Plan(a)| >= 8 && Plan(a)[|Plan(a)| - 8..] == Closing
    ensures Plan(a)[|Plan(a)| - 1] == Review
  {
    var p := Opening(a) + ServiceQuestions(a) + ContractQuestions(a) + UsageQuestions(a);
    assert Plan(a) == p + Closing;
    assert (p + Closing)[|p|..] == Closing;
  }

  /** The plan opens with `serviceType, billProvided`, then `uploadBill` and `contractStatus` as the bill answer allows. */
  lemma PlanOpening(a: Form.Answers)
    ensures |Plan(a)| >= 10
    ensures Plan(a)[0] == ServiceType && Plan(a)[1] == BillProvided
    ensures (UploadBill in Plan(a)) <==> a.billProvided == Some("yes")
    ensures (ContractStatus in Plan(a)) <==> a.billProvided == Some("yes") || a.billProvided == Some("no")
    ensures a.billProvided == Some("yes") ==> Plan(a)[2] == UploadBill && Plan(a)[3] == ContractStatus
    ensures a.billProvided == Some("no") ==> Plan(a)[2] == ContractStatus
  {
    var rest := ServiceQuestions(a) + ContractQuestions(a) + UsageQuestions(a) + Closing;
    Regroup(Opening(a), ServiceQuestions(a), ContractQuestions(a), UsageQuestions(a), Closing);
    assert Plan(a) == Opening(a) + rest;
    PlanMembership(a);
  }

  /** The electricity branch, question by question. */
  predicate ElectricityAsks(a: Form.Answers, q: Question) {
    match q
    case DetailedComparison => a.billProvided == Some("no") && Truthy(a.contractStatus)
    case MeterType => a.detailedComparison == Some("yes") && Truthy(a.contractStatus)
    case MeterNumberQuestion => a.meterNumber == None
    case FullMeterNumber => a.meterNumber == Some("yes")
    case PropertyAddress => a.meterNumber != Some("yes")
    case _ => q in RateQuestions(a.meterType)
  }

  /** The gas branch, question by question. */
  predicate GasAsks(a: Form.Answers, q: Question) {
    match q
    case DetailedComparison => a.billProvided == Some("no") && Truthy(a.contractStatus)
    case GasDayRate => a.detailedComparison == Some("yes")
    case GasStandingCharge => a.detailedComparison == Some("yes")
    case MeterNumberQuestion => true
    case FullMeterNumber => a.meterNumber == Some("yes")
    case _ => false
  }

  lemma ElectricityMembers(a: Form.Answers)
    ensures forall q :: q in ElectricityQuestions(a) <==> ElectricityAsks(a, q)
  {
    if a.meterType == Some("Half-Hourly") {
    } else if a.meterType == Some("Economy 7") {
    } else if a.meterType == Some("Single Rate") {
    } else {
    }
  }

  lemma GasMembers(a: Form.Answers)
    ensures forall q :: q in GasQuestions(a) <==> GasAsks(a, q)
  {
  }

  /**
   * Which questions the form asks, question by question: a reference
   * definition of the plan's contents, independent of its order.
   */
  predicate Asks(a: Form.Answers, q: Question) {
    match q
    case ServiceType => true
    case BillProvided => true
    case UploadBill => a.billProvided == Some("yes")
    case ContractStatus => a.billProvided == Some("yes") || a.billProvided == Some("no")
    case ContractEndDate => a.serviceType != Some("Water") && Truthy(a.contractStatus)
    case TakeoverDate => a.serviceType != Some("Water") && a.contractStatus == Some("moved")
    case EnergyUsage => a.serviceType != Some("Water") && a.billProvided == Some("no")
    case CurrentSupplier => true
    case BusinessName => true
    case ContactName => true
    case Email => true
    case Phone => true
    case PreferredContact => true
    case AdditionalInfo => true
    case Review => true
    case _ =>
      (a.serviceType == Some("Electricity") && ElectricityAsks(a, q))
      || (a.serviceType == Some("Gas") && GasAsks(a, q))
  }

  /** A question is in the plan exactly when the form asks it. */
  lemma PlanAsks(a: Form.Answers)
    ensures forall q :: q in Plan(a) <==> Asks(a, q)
  {
    PlanMembership(a);
    ElectricityMembers(a);
    GasMembers(a);
    forall q | Part(q) == 4
      ensures q in Plan(a)
    {
      assert q in Closing;
    }
  }

  // ---------------------------------------------------------------------
  // What `Asks` says about each branch

  lemma ElectricityMeterAsked(a: Form.Answers)
    requires a.serviceType == Some("Electricity")
    ensures Asks(a, MeterNumberQuestion) <==> a.meterNumber == None
    ensures Asks(a, FullMeterNumber) <==> a.meterNumber == Some("yes")
    ensures Asks(a, PropertyAddress) <==> a.meterNumber != Some("yes")
  {
  }

  lemma ElectricityComparisonAsked(a: Form.Answers)
    requires a.serviceType == Some("Electricity")
    ensures Asks(a, DetailedComparison) <==> a.billProvided == Some("no") && Truthy(a.contractStatus)
    ensures Asks(a, MeterType) <==> a.detailedComparison == Some("yes") && Truthy(a.contractStatus)
    ensures !Asks(a, GasDayRate) && !Asks(a, GasStandingCharge)
  {
  }

  lemma ElectricityRatesAsked(a: Form.Answers)
    requires a.serviceType == Some("Electricity")
    ensures forall q :: IsRateQuestion(q) ==> (Asks(a, q) <==> q in RateQuestions(a.meterType))
  {
  }

  lemma GasAsked(a: Form.Answers)
    requires a.serviceType == Some("Gas")
    ensures Asks(a, MeterNumberQuestion)
    ensures Asks(a, GasDayRate) <==> a.detailedComparison == Some("yes")
    ensures Asks(a, GasStandingCharge) <==> a.detailedComparison == Some("yes")
    ensures Asks(a, DetailedComparison) <==> a.billProvided == Some("no") && Truthy(a.contractStatus)
    ensures Asks(a, FullMeterNumber) <==> a.meterNumber == Some("yes")
    ensures !Asks(a, PropertyAddress) && !Asks(a, MeterType)
    ensures forall q :: IsRateQuestion(q) ==> !Asks(a, q)
  {
  }

  lemma ContractAsked(a: Form.Answers)
    requires a.serviceType != Some("Water")
    ensures Asks(a, ContractEndDate) <==> Truthy(a.contractStatus)
    ensures Asks(a, TakeoverDate) <==> a.contractStatus == Some("moved")
    ensures Asks(a, EnergyUsage) <==> a.billProvided == Some("no")
  {
  }

  lemma SplitAround(o: seq<Question>, c: seq<Question>, t: seq<Question>, r: seq<Question>,
                    n: seq<Question>, m: seq<Question>, k: seq<Question>, u: seq<Question>, e: seq<Question>)
    ensures o + (c + t + r + n + m) + k + u + e == (o + (c + t)) + r + ((n + m) + k + u + e)
  {
  }

  // ---------------------------------------------------------------------
  // The branches of the plan

  /** Whether the electricity branch asks for the meter number, the full number or the address. */
  lemma ElectricityMeterNumber(a: Form.Answers)
    requires a.serviceType == Some("Electricity")
    ensures (MeterNumberQuestion in Plan(a)) <==> a.meterNumber == None
    ensures (FullMeterNumber in Plan(a)) <==> a.meterNumber == Some("yes")
    ensures (PropertyAddress in Plan(a)) <==> a.meterNumber != Some("yes")
  {
    PlanAsks(a);
    ElectricityMeterAsked(a);
  }

  /** The comparison questions of the electricity branch. */
  lemma ElectricityComparison(a: Form.Answers)
    requires a.serviceType == Some("Electricity")
    ensures (DetailedComparison in Plan(a)) <==> a.billProvided == Some("no") && Truthy(a.contractStatus)
    ensures (MeterType in Plan(a)) <==> a.detailedComparison == Some("yes") && Truthy(a.contractStatus)
    ensures GasDayRate !in Plan(a) && GasStandingCharge !in Plan(a)
  {
    PlanAsks(a);
    ElectricityComparisonAsked(a);
  }

  /** The electricity plan splits around its run of rate questions. */
  lemma ElectricityRateRun(a: Form.Answers)
    requires a.serviceType == Some("Electricity")
    ensures exists x, y :: Plan(a) == x + RateQuestions(a.meterType) + y
  {
    var c := if OffersComparison(a) then [DetailedComparison] else [];
    var t := if a.detailedComparison == Some("yes") && Truthy(a.contractStatus) then [MeterType] else [];
    var r := RateQuestions(a.meterType);
    var n := if a.meterNumber == None then [MeterNumberQuestion] else [];
    var m := if a.meterNumber == Some("yes") then [FullMeterNumber] else [PropertyAddress];
    assert ServiceQuestions(a) == c + t + r + n + m;
    SplitAround(Opening(a), c, t, r, n, m, ContractQuestions(a), UsageQuestions(a), Closing);
    assert Plan(a) == (Opening(a) + (c + t)) + r + ((n + m) + ContractQuestions(a) + UsageQuestions(a) + Closing);
  }

  /** The rate questions in an electricity plan are those of its meter type. */
  lemma ElectricityRateMembers(a: Form.Answers)
    requires a.serviceType == Some("Electricity")
    ensures forall q :: IsRateQuestion(q) ==> (q in Plan(a) <==> q in RateQuestions(a.meterType))
  {
    PlanAsks(a);
    ElectricityRatesAsked(a);
  }

  /** The rate questions form one run that depends on the meter type alone. */
  lemma ElectricityRates(a: Form.Answers)
    requires a.serviceType == Some("Electricity")
    ensures a.meterType == Some("Half-Hourly") ==>
      Contiguous(Plan(a), [DayRate, NightRate, Capacity, StandingCharge])
    ensures a.meterType == Some("Economy 7") ==>
      Contiguous(Plan(a), [DayRate, StandingCharge, NightRate]) && Capacity !in Plan(a)
    ensures a.meterType == Some("Single Rate") ==>
      Contiguous(Plan(a), [DayRate, StandingCharge]) && NightRate !in Plan(a) && Capacity !in Plan(a)
    ensures (a.meterType != Some("Half-Hourly") && a.meterType != Some("Economy 7")
             && a.meterType != Some("Single Rate")) ==> forall q :: IsRateQuestion(q) ==> q !in Plan(a)
  {
    ElectricityRateRun(a);
    ElectricityRateMembers(a);
    var r := RateQuestions(a.meterType);
    var x, y :| Plan(a) == x + r + y;
    assert Plan(a)[|x|..][..|r|] == r;
    assert Contiguous(Plan(a), r);
  }

  /** Of the meter types the form offers, only Half-Hourly leads to any rate question. */
  lemma OfferedMeterTypes(a: Form.Answers)
    requires a.serviceType == Some("Electricity")
    requires a.meterType == Some("Economy 7 / two-rate") || a.meterType == Some("Single Rate")
      || a.meterType == Some("Half-Hourly") || a.meterType == None
    ensures (NightRate in Plan(a)) <==> a.meterType == Some("Half-Hourly")
    ensures (DayRate in Plan(a)) <==> a.meterType == Some("Half-Hourly") || a.meterType == Some("Single Rate")
  {
    ElectricityRateMembers(a);
  }

  /** The gas branch. */
  lemma GasBranch(a: Form.Answers)
    requires a.serviceType == Some("Gas")
    ensures MeterNumberQuestion in Plan(a)
    ensures (GasDayRate in Plan(a)) <==> a.detailedComparison == Some("yes")
    ensures (GasStandingCharge in Plan(a)) <==> a.detailedComparison == Some("yes")
    ensures (DetailedComparison in Plan(a)) <==> a.billProvided == Some("no") && Truthy(a.contractStatus)
    ensures (FullMeterNumber in Plan(a)) <==> a.meterNumber == Some("yes")
    ensures PropertyAddress !in Plan(a) && MeterType !in Plan(a)
    ensures forall q :: IsRateQuestion(q) ==> q !in Plan(a)
  {
    PlanAsks(a);
    GasAsked(a);
  }

  /** Contract dates and usage, for every service type but Water (and for none chosen yet). */
  lemma ContractAndUsage(a: Form.Answers)
    requires a.serviceType != Some("Water")
    ensures (ContractEndDate in Plan(a)) <==> Truthy(a.contractStatus)
    ensures (TakeoverDate in Plan(a)) <==> a.contractStatus == Some("moved")
    ensures (EnergyUsage in Plan(a)) <==> a.billProvided == Some("no")
  {
    PlanAsks(a);
    ContractAsked(a);
  }

  /** Water asks nothing beyond the opening and the general questions. */
  lemma WaterPlan(a: Form.Answers)
    requires a.serviceType == Some("Water")
    ensures Plan(a) == Opening(a) + Closing
    ensures forall q :: Part(q) == 1 || Part(q) == 2 || Part(q) == 3 ==> q !in Plan(a)
  {
    assert Plan(a) == Opening(a) + [] + [] + [] + Closing;
    OpeningFacts(a);
  }

  // ---------------------------------------------------------------------
  // How answering a question changes the plan

  /** The answers the plan reads: the six set by buttons other than the contact preference. */
  predicate Steers(f: Form.Field) {
    f in {Form.ServiceType, Form.BillProvided, Form.ContractStatus, Form.MeterType,
          Form.DetailedComparison, Form.MeterNumber}
  }

  /** The two sets of answers agree on every steering answer. */
  predicate SameSteering(a: Form.Answers, b: Form.Answers) {
    a.serviceType == b.serviceType && a.billProvided == b.billProvided
    && a.contractStatus == b.contractStatus && a.meterType == b.meterType
    && a.detailedComparison == b.detailedComparison && a.meterNumber == b.meterNumber
  }

  /** Two sets of answers that agree on the steering answers have the same plan. */
  lemma PlanReadsSteering(a: Form.Answers, b: Form.Answers)
    requires SameSteering(a, b)
    ensures Plan(a) == Plan(b)
  {
    assert Opening(a) == Opening(b);
    assert ElectricityQuestions(a) == ElectricityQuestions(b);
    assert GasQuestions(a) == GasQuestions(b);
    assert ServiceQuestions(a) == ServiceQuestions(b);
    assert ContractQuestions(a) == ContractQuestions(b);
    assert UsageQuestions(a) == UsageQuestions(b);
  }

  /** Typing into a text box, choosing a contact preference or picking an annual usage leaves the plan as it was. */
  lemma TextInputKeepsPlan(a: Form.Answers, f: Form.Field, v: string)
    requires !Steers(f)
    ensures Plan(Form.With(a, f, v)) == Plan(a)
  {
    var b := Form.With(a, f, v);
    assert Form.Get(b, Form.ServiceType) == Form.Get(a, Form.ServiceType);
    assert Form.Get(b, Form.BillProvided) == Form.Get(a, Form.BillProvided);
    assert Form.Get(b, Form.ContractStatus) == Form.Get(a, Form.ContractStatus);
    assert Form.Get(b, Form.MeterType) == Form.Get(a, Form.MeterType);
    assert Form.Get(b, Form.DetailedComparison) == Form.Get(a, Form.DetailedComparison);
    assert Form.Get(b, Form.MeterNumber) == Form.Get(a, Form.MeterNumber);
    PlanReadsSteering(b, a);
  }

  /** The electricity questions before the meter-number question. */
  function MeterSitePrefix(a: Form.Answers): seq<Question> {
    Opening(a)
      + ((if OffersComparison(a) then [DetailedComparison] else [])
      + (if a.detailedComparison == Some("yes") && Truthy(a.contractStatus) then [MeterType] else [])
      + RateQuestions(a.meterType))
  }

  /** The meter-number question and its follow-up. */
  function MeterSiteQuestions(meterNumber: Option<string>): seq<Question> {
    (if meterNumber == None then [MeterNumberQuestion] else [])
      + (if meterNumber == Some("yes") then [FullMeterNumber] else [PropertyAddress])
  }

  /** Everything after the electricity questions. */
  function MeterSiteSuffix(a: Form.Answers): seq<Question> {
    ContractQuestions(a) + UsageQuestions(a) + Closing
  }

  lemma SplitMeterSite(o: seq<Question>, ctr: seq<Question>, nm: seq<Question>,
                       k: seq<Question>, u: seq<Question>, e: seq<Question>)
    ensures o + (ctr + nm) + k + u + e == (o + ctr) + nm + (k + u + e)
  {
  }

  /** An electricity plan around its meter-number questions. */
  lemma MeterSite(a: Form.Answers)
    requires a.serviceType == Some("Electricity")
    ensures Plan(a) == MeterSitePrefix(a) + MeterSiteQuestions(a.meterNumber) + MeterSiteSuffix(a)
  {
    var c := if OffersComparison(a) then [DetailedComparison] else [];
    var t := if a.detailedComparison == Some("yes") && Truthy(a.contractStatus) then [MeterType] else [];
    var r := RateQuestions(a.meterType);
    var nm := MeterSiteQuestions(a.meterNumber);
    assert ServiceQuestions(a) == (c + t + r) + nm;
    SplitMeterSite(Opening(a), c + t + r, nm, ContractQuestions(a), UsageQuestions(a), Closing);
  }

  /**
   * In the electricity branch, answering the meter question removes it from the
   * plan, so the unchanged cursor lands on the follow-up question: the full
   * number after 'yes', the property address after anything else.
   */
  lemma MeterAnswerShowsFollowUp(a: Form.Answers, k: nat, v: string)
    requires a.serviceType == Some("Electricity") && a.meterNumber == None
    requires k < |Plan(a)| && Plan(a)[k] == MeterNumberQuestion
    ensures k < |Plan(Form.With(a, Form.MeterNumber, v))|
    ensures Plan(Form.With(a, Form.MeterNumber, v))[k] == if v == "yes" then FullMeterNumber else PropertyAddress
  {
    var b := Form.With(a, Form.MeterNumber, v);
    assert b == a.(meterNumber := Some(v));
    var p := MeterSitePrefix(a);
    MeterSite(a);
    MeterSite(b);
    PlanDistinct(a);
    assert MeterSiteQuestions(a.meterNumber) == [MeterNumberQuestion, PropertyAddress];
    assert Plan(a)[|p|] == MeterNumberQuestion;
    assert k == |p|;
    assert MeterSitePrefix(b) == p;
    assert Plan(b)[|p|] == MeterSiteQuestions(b.meterNumber)[0];
  }
}
