/// The closed categories of a bond record (the string enums of the form
/// layer), plus the two failure-carrying wrappers the calculators return.
module Enums {

  /// Who bears an issuance cost.
  datatype Actor = Emitter | Bondholder | Both

  /// Kind of a grace-period entry.
  datatype GracePeriodType = NoGrace | Partial | Total

  /// Whether the premium is sized on the commercial value or on the balance
  /// entering the final period.
  datatype ApplyPrimaIn = Beginning | End

  datatype InterestRateType = Nominal | Effective

  datatype PaymentFrequency = Annual | SemiAnnual | Quarterly | Bimonthly | Monthly | Daily

  datatype CompoundingFrequency =
    | CAnnual | CSemiAnnual | CQuarterly | CBimonthly | CMonthly | CDaily

  datatype Option<+T> = None | Some(value: T)

  /// Why a calculation produced no schedule.
  datatype CalcError =
    | MissingCompoundingFrequency   // nominal rate without a compounding frequency
    | AnnuityUndefined              // French quota divides by (1+r)^n - 1 == 0

  datatype Result<+T> = Success(value: T) | Failure(error: CalcError)

  /// The string each payment frequency carries in the record.
  function FrequencyName(f: PaymentFrequency): (s: string)
    ensures |s| > 0
  {
    match f
    case Annual => "annual"
    case SemiAnnual => "semi_annual"
    case Quarterly => "quarterly"
    case Bimonthly => "bimonthly"
    case Monthly => "monthly"
    case Daily => "daily"
  }

  /// The string each actor carries in the record.
  function ActorName(a: Actor): (s: string)
    ensures |s| > 0
  {
    match a
    case Emitter => "emitter"
    case Bondholder => "bondholder"
    case Both => "both"
  }
}
