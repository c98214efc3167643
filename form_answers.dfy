/**
 * The questionnaire's answer store: the `formData` state of the lead form.
 * Seven answers start out as `null` and are only ever set by a button; the
 * other eighteen are set from input boxes, a text area and the usage drop-down,
 * and start out as the empty string.
 */
module FormAnswers {
  import opened Wrappers

  /** The keys of `formData`, in the order the initial object literal lists them. */
  datatype Field =
    | ServiceType | BillProvided | ContractStatus | MeterType | DetailedComparison
    | BusinessName | ContactName | Email | Phone | PreferredContact | AdditionalInfo
    | DayRate | NightRate | StandingCharge | Capacity | MeterNumber | PropertyAddress
    | FullMeterNumber | ContractEndDate | TakeoverDate | EnergyUsage | CurrentSupplier
    | GasDayRate | GasStandingCharge | GasUsage

  datatype Answers = Answers(
    serviceType: Option<string>,
    billProvided: Option<string>,
    contractStatus: Option<string>,
    meterType: Option<string>,
    detailedComparison: Option<string>,
    businessName: string,
    contactName: string,
    email: string,
    phone: string,
    preferredContact: Option<string>,
    additionalInfo: string,
    dayRate: string,
    nightRate: string,
    standingCharge: string,
    capacity: string,
    meterNumber: Option<string>,
    propertyAddress: string,
    fullMeterNumber: string,
    contractEndDate: string,
    takeoverDate: string,
    energyUsage: string,
    currentSupplier: string,
    gasDayRate: string,
    gasStandingCharge: string,
    gasUsage: string)

  /** The state the form starts in. */
  const Initial: Answers := Answers(
    None, None, None, None, None, "", "", "", "", None, "",
    "", "", "", "", None, "", "", "", "", "", "", "", "", "")

  /** `Object.keys(formData)`: every field once, in declaration order. */
  const AllFields: seq<Field> := [
    ServiceType, BillProvided, ContractStatus, MeterType, DetailedComparison,
    BusinessName, ContactName, Email, Phone, PreferredContact, AdditionalInfo,
    DayRate, NightRate, StandingCharge, Capacity, MeterNumber, PropertyAddress,
    FullMeterNumber, ContractEndDate, TakeoverDate, EnergyUsage, CurrentSupplier,
    GasDayRate, GasStandingCharge, GasUsage]

  /** The position of a field among the keys of `formData`. */
  function FieldIndex(f: Field): (i: nat)
    ensures i < |AllFields| && AllFields[i] == f
  {
    match f
    case ServiceType => 0
    case BillProvided => 1
    case ContractStatus => 2
    case MeterType => 3
    case DetailedComparison => 4
    case BusinessName => 5
    case ContactName => 6
    case Email => 7
    case Phone => 8
    case PreferredContact => 9
    case AdditionalInfo => 10
    case DayRate => 11
    case NightRate => 12
    case StandingCharge => 13
    case Capacity => 14
    case MeterNumber => 15
    case PropertyAddress => 16
    case FullMeterNumber => 17
    case ContractEndDate => 18
    case TakeoverDate => 19
    case EnergyUsage => 20
    case CurrentSupplier => 21
    case GasDayRate => 22
    case GasStandingCharge => 23
    case GasUsage => 24
  }

  /** No key of `formData` is listed twice. */
  lemma AllFieldsDistinct()
    ensures forall i :: 0 <= i < |AllFields| ==> FieldIndex(AllFields[i]) == i
  {
  }

  /** True for the answers that start out as `null`. */
  predicate Nullable(f: Field) {
    f in {ServiceType, BillProvided, ContractStatus, MeterType, DetailedComparison,
          PreferredContact, MeterNumber}
  }

  /** `formData[f]`, with `None` for `null`. */
  function Get(a: Answers, f: Field): (v: Option<string>)
    ensures !Nullable(f) ==> v.Some?
  {
    match f
    case ServiceType => a.serviceType
    case BillProvided => a.billProvided
    case ContractStatus => a.contractStatus
    case MeterType => a.meterType
    case DetailedComparison => a.detailedComparison
    case BusinessName => Some(a.businessName)
    case ContactName => Some(a.contactName)
    case Email => Some(a.email)
    case Phone => Some(a.phone)
    case PreferredContact => a.preferredContact
    case AdditionalInfo => Some(a.additionalInfo)
    case DayRate => Some(a.dayRate)
    case NightRate => Some(a.nightRate)
    case StandingCharge => Some(a.standingCharge)
    case Capacity => Some(a.capacity)
    case MeterNumber => a.meterNumber
    case PropertyAddress => Some(a.propertyAddress)
    case FullMeterNumber => Some(a.fullMeterNumber)
    case ContractEndDate => Some(a.contractEndDate)
    case TakeoverDate => Some(a.takeoverDate)
    case EnergyUsage => Some(a.energyUsage)
    case CurrentSupplier => Some(a.currentSupplier)
    case GasDayRate => Some(a.gasDayRate)
    case GasStandingCharge => Some(a.gasStandingCharge)
    case GasUsage => Some(a.gasUsage)
  }

  /** `{ ...a, [f]: v }`: field `f` becomes `v` and every other field is kept. */
  function With(a: Answers, f: Field, v: string): (r: Answers)
    ensures Get(r, f) == Some(v)
    ensures forall g :: g != f ==> Get(r, g) == Get(a, g)
  {
    match f
    case ServiceType => a.(serviceType := Some(v))
    case BillProvided => a.(billProvided := Some(v))
    case ContractStatus => a.(contractStatus := Some(v))
    case MeterType => a.(meterType := Some(v))
    case DetailedComparison => a.(detailedComparison := Some(v))
    case BusinessName => a.(businessName := v)
    case ContactName => a.(contactName := v)
    case Email => a.(email := v)
    case Phone => a.(phone := v)
    case PreferredContact => a.(preferredContact := Some(v))
    case AdditionalInfo => a.(additionalInfo := v)
    case DayRate => a.(dayRate := v)
    case NightRate => a.(nightRate := v)
    case StandingCharge => a.(standingCharge := v)
    case Capacity => a.(capacity := v)
    case MeterNumber => a.(meterNumber := Some(v))
    case PropertyAddress => a.(propertyAddress := v)
    case FullMeterNumber => a.(fullMeterNumber := v)
    case ContractEndDate => a.(contractEndDate := v)
    case TakeoverDate => a.(takeoverDate := v)
    case EnergyUsage => a.(energyUsage := v)
    case CurrentSupplier => a.(currentSupplier := v)
    case GasDayRate => a.(gasDayRate := v)
    case GasStandingCharge => a.(gasStandingCharge := v)
    case GasUsage => a.(gasUsage := v)
  }
}
