/// The earlier German bond schedule: the nominal value is split into equal
/// parts over all N periods (grace periods included), the first entry naming
/// a period decides its grace kind, a total grace period pays no coupon at
/// all, and the premium and the initial costs enter the flows of period 1.
module GermanSchedule {
  import opened Enums
  import opened Grace
  import Costs
  import opened CashFlow
  import GermanCalculator

  /// Days per period by frequency name; a name missing from the table
  /// counts as 30 days.
  const FrequencyToDays: map<string, nat> :=
    map["annual" := 360, "semi_annual" := 180, "quarterly" := 90, "bimonthly" := 60,
        "monthly" := 30, "biweekly" := 15, "daily" := 1]

  function DaysFromFrequency(freq: string): (d: nat)
    ensures d > 0
  {
    if freq in FrequencyToDays then FrequencyToDays[freq] else 30
  }

  /// For every frequency the calculators know, the table gives the German
  /// calculator's period length; `biweekly` is known only here, and any
  /// other name falls back to the monthly length.
  lemma DayTableAgreesWithCalculator(f: PaymentFrequency, other: string)
    ensures DaysFromFrequency(FrequencyName(f)) == GermanCalculator.FrequencyDays(f)
    ensures FrequencyName(f) != "biweekly" && DaysFromFrequency("biweekly") == 15
    ensures other !in FrequencyToDays ==> DaysFromFrequency(other) == DaysFromFrequency("monthly")
  {
  }

  /// Whole periods in `years` years of 360 days, rounded down.
  function GetPeriods(years: real, freq: string): int
  {
    (years * 360.0 / DaysFromFrequency(freq) as real).Floor
  }

  /// The period count is the largest whole number of periods that fits in
  /// the term.
  lemma GetPeriodsIsFloor(years: real, freq: string)
    ensures var d := DaysFromFrequency(freq) as real;
            var p := GetPeriods(years, freq);
            p as real * d <= years * 360.0 < (p + 1) as real * d
  {
    var d := DaysFromFrequency(freq) as real;
    var x := years * 360.0 / d;
    assert x * d == years * 360.0;
    FloorBounds(x, d);
  }

  /// x.Floor periods of d days fit in x * d days, one more does not.
  lemma FloorBounds(x: real, d: real)
    requires d > 0.0
    ensures x.Floor as real * d <= x * d < (x.Floor + 1) as real * d
  {
    var f := x.Floor as real;
    assert f <= x < f + 1.0;
    assert f * d <= x * d;
    assert x * d < (f + 1.0) * d;
  }

  /// The cost settings of a plan; a missing field takes its default.
  datatype CostSettings = CostSettings(
    structuration: Option<real>, colocation: Option<real>,
    flotation: Option<real>, cavali: Option<real>,
    structurationApplyTo: Option<string>, colocationApplyTo: Option<string>,
    flotationApplyTo: Option<string>, cavaliApplyTo: Option<string>)

  /// The plan record this schedule reads.
  datatype PaymentPlanInput = PaymentPlanInput(
    nominalValue: real,
    comercialValue: real,
    paymentFrequency: string,
    years: real,
    gracePeriods: Option<seq<GracePeriodEntry>>,
    prima: Option<real>,
    costs: CostSettings,
    incomeTax: Option<real>)

  function OrElse<T>(o: Option<T>, default: T): T
  {
    if o.Some? then o.value else default
  }

  /// Whether an assignment string charges the emitter or the bondholder.
  predicate ChargesEmitter(applyTo: string) { applyTo == "emitter" || applyTo == "both" }

  predicate ChargesBondholder(applyTo: string) { applyTo == "bondholder" || applyTo == "both" }

  function PctIf(charged: bool, pct: real): real { if charged then pct else 0.0 }

  /// Percentage points the emitter bears, defaults applied: structuration
  /// and colocation go to the emitter, flotation and cavali to both.
  function EmitterPct(c: CostSettings): real
  {
    PctIf(ChargesEmitter(OrElse(c.structurationApplyTo, "emitter")), OrElse(c.structuration, 0.0))
    + PctIf(ChargesEmitter(OrElse(c.colocationApplyTo, "emitter")), OrElse(c.colocation, 0.0))
    + PctIf(ChargesEmitter(OrElse(c.flotationApplyTo, "both")), OrElse(c.flotation, 0.0))
    + PctIf(ChargesEmitter(OrElse(c.cavaliApplyTo, "both")), OrElse(c.cavali, 0.0))
  }

  /// Percentage points the bondholder bears, defaults applied.
  function BondholderPct(c: CostSettings): real
  {
    PctIf(ChargesBondholder(OrElse(c.structurationApplyTo, "emitter")), OrElse(c.structuration, 0.0))
    + PctIf(ChargesBondholder(OrElse(c.colocationApplyTo, "emitter")), OrElse(c.colocation, 0.0))
    + PctIf(ChargesBondholder(OrElse(c.flotationApplyTo, "both")), OrElse(c.flotation, 0.0))
    + PctIf(ChargesBondholder(OrElse(c.cavaliApplyTo, "both")), OrElse(c.cavali, 0.0))
  }

  /// Sums the percentage points each side bears, then applies each sum to
  /// the commercial value.
  method GetInitialCosts(comercialValue: real, c: CostSettings)
    returns (emitter: real, bondholder: real)
    ensures emitter == Costs.CostAmount(comercialValue, EmitterPct(c))
    ensures bondholder == Costs.CostAmount(comercialValue, BondholderPct(c))
  {
    var structuration := OrElse(c.structuration, 0.0);
    var colocation := OrElse(c.colocation, 0.0);
    var flotation := OrElse(c.flotation, 0.0);
    var cavali := OrElse(c.cavali, 0.0);
    var structurationApplyTo := OrElse(c.structurationApplyTo, "emitter");
    var colocationApplyTo := OrElse(c.colocationApplyTo, "emitter");
    var flotationApplyTo := OrElse(c.flotationApplyTo, "both");
    var cavaliApplyTo := OrElse(c.cavaliApplyTo, "both");

    ghost var e1 := PctIf(ChargesEmitter(structurationApplyTo), structuration);
    ghost var e2 := PctIf(ChargesEmitter(colocationApplyTo), colocation);
    ghost var e3 := PctIf(ChargesEmitter(flotationApplyTo), flotation);
    ghost var e4 := PctIf(ChargesEmitter(cavaliApplyTo), cavali);
    var emitterPct := 0.0;
    if structurationApplyTo == "emitter" || structurationApplyTo == "both" {
      emitterPct := emitterPct + structuration;
    }
    assert emitterPct == e1;
    if colocationApplyTo == "emitter" || colocationApplyTo == "both" {
      emitterPct := emitterPct + colocation;
    }
    assert emitterPct == e1 + e2;
    if flotationApplyTo == "emitter" || flotationApplyTo == "both" {
      emitterPct := emitterPct + flotation;
    }
    assert emitterPct == e1 + e2 + e3;
    if cavaliApplyTo == "emitter" || cavaliApplyTo == "both" {
      emitterPct := emitterPct + cavali;
    }
    assert emitterPct == e1 + e2 + e3 + e4;

    ghost var b1 := PctIf(ChargesBondholder(structurationApplyTo), structuration);
    ghost var b2 := PctIf(ChargesBondholder(colocationApplyTo), colocation);
    ghost var b3 := PctIf(ChargesBondholder(flotationApplyTo), flotation);
    ghost var b4 := PctIf(ChargesBondholder(cavaliApplyTo), cavali);
    var bondholderPct := 0.0;
    if structurationApplyTo == "bondholder" || structurationApplyTo == "both" {
      bondholderPct := bondholderPct + structuration;
    }
    assert bondholderPct == b1;
    if colocationApplyTo == "bondholder" || colocationApplyTo == "both" {
      bondholderPct := bondholderPct + colocation;
    }
    assert bondholderPct == b1 + b2;
    if flotationApplyTo == "bondholder" || flotationApplyTo == "both" {
      bondholderPct := bondholderPct + flotation;
    }
    assert bondholderPct == b1 + b2 + b3;
    if cavaliApplyTo == "bondholder" || cavaliApplyTo == "both" {
      bondholderPct := bondholderPct + cavali;
    }
    assert bondholderPct == b1 + b2 + b3 + b4;

    assert emitterPct == EmitterPct(c) && bondholderPct == BondholderPct(c);
    emitter := Costs.CostAmount(comercialValue, emitterPct);
    bondholder := Costs.CostAmount(comercialValue, bondholderPct);
  }

  /// With no assignment given, the emitter bears all four costs and the
  /// bondholder flotation and cavali.
  lemma DefaultAssignments(c: CostSettings)
    requires c.structurationApplyTo.None? && c.colocationApplyTo.None?
    requires c.flotationApplyTo.None? && c.cavaliApplyTo.None?
    ensures EmitterPct(c) == OrElse(c.structuration, 0.0) + OrElse(c.colocation, 0.0)
                             + OrElse(c.flotation, 0.0) + OrElse(c.cavali, 0.0)
    ensures BondholderPct(c) == OrElse(c.flotation, 0.0) + OrElse(c.cavali, 0.0)
  {
  }

  /// The settings that spell out an issuance-cost record of the calculators.
  function SettingsOf(c: Costs.IssuanceCosts): CostSettings
  {
    CostSettings(Some(c.structuration), Some(c.colocation), Some(c.flotation), Some(c.cavali),
                 Some(ActorName(c.structurationApplyTo)), Some(ActorName(c.colocationApplyTo)),
                 Some(ActorName(c.flotationApplyTo)), Some(ActorName(c.cavaliApplyTo)))
  }

  /// The name of an assignment charges the sides the assignment charges.
  lemma ActorNameCharges(a: Actor)
    ensures ChargesEmitter(ActorName(a)) == Costs.ChargesEmitter(a)
    ensures ChargesBondholder(ActorName(a)) == Costs.ChargesBondholder(a)
  {
  }

  /// A percentage charged to a side and applied to the commercial value is
  /// the cost amount charged to it.
  lemma ScaledTerm(b: bool, pct: real, v: real)
    ensures Costs.CostAmount(v, PctIf(b, pct)) == Costs.ChargedIf(b, Costs.CostAmount(v, pct))
  {
  }

  lemma ScaledSum(a: real, b: real, c: real, d: real, v: real)
    ensures Costs.CostAmount(v, a + b + c + d)
            == Costs.CostAmount(v, a) + Costs.CostAmount(v, b) + Costs.CostAmount(v, c)
               + Costs.CostAmount(v, d)
  {
  }

  /// Summing percentage points first and applying the sum to the commercial
  /// value charges each side what the calculators charge it.
  lemma CostsAgreeWithCalculators(c: Costs.IssuanceCosts, comercialValue: real)
    ensures Costs.CostAmount(comercialValue, EmitterPct(SettingsOf(c)))
            == Costs.EmitterShare(c, comercialValue)
    ensures Costs.CostAmount(comercialValue, BondholderPct(SettingsOf(c)))
            == Costs.BondholderShare(c, comercialValue)
  {
    var v := comercialValue;
    ActorNameCharges(c.structurationApplyTo);
    ActorNameCharges(c.colocationApplyTo);
    ActorNameCharges(c.flotationApplyTo);
    ActorNameCharges(c.cavaliApplyTo);
    var e1 := PctIf(Costs.ChargesEmitter(c.structurationApplyTo), c.structuration);
    var e2 := PctIf(Costs.ChargesEmitter(c.colocationApplyTo), c.colocation);
    var e3 := PctIf(Costs.ChargesEmitter(c.flotationApplyTo), c.flotation);
    var e4 := PctIf(Costs.ChargesEmitter(c.cavaliApplyTo), c.cavali);
    assert EmitterPct(SettingsOf(c)) == e1 + e2 + e3 + e4;
    ScaledSum(e1, e2, e3, e4, v);
    ScaledTerm(Costs.ChargesEmitter(c.structurationApplyTo), c.structuration, v);
    ScaledTerm(Costs.ChargesEmitter(c.colocationApplyTo), c.colocation, v);
    ScaledTerm(Costs.ChargesEmitter(c.flotationApplyTo), c.flotation, v);
    ScaledTerm(Costs.ChargesEmitter(c.cavaliApplyTo), c.cavali, v);
    var b1 := PctIf(Costs.ChargesBondholder(c.structurationApplyTo), c.structuration);
    var b2 := PctIf(Costs.ChargesBondholder(c.colocationApplyTo), c.colocation);
    var b3 := PctIf(Costs.ChargesBondholder(c.flotationApplyTo), c.flotation);
    var b4 := PctIf(Costs.ChargesBondholder(c.cavaliApplyTo), c.cavali);
    assert BondholderPct(SettingsOf(c)) == b1 + b2 + b3 + b4;
    ScaledSum(b1, b2, b3, b4, v);
    ScaledTerm(Costs.ChargesBondholder(c.structurationApplyTo), c.structuration, v);
    ScaledTerm(Costs.ChargesBondholder(c.colocationApplyTo), c.colocation, v);
    ScaledTerm(Costs.ChargesBondholder(c.flotationApplyTo), c.flotation, v);
    ScaledTerm(Costs.ChargesBondholder(c.cavaliApplyTo), c.cavali, v);
  }

  /// Grace kind of period i: the FIRST entry naming i decides; none when no
  /// entry names it.
  function FirstGraceType(entries: seq<GracePeriodEntry>, i: int): GracePeriodType
  {
    if entries == [] then NoGrace
    else if entries[0].period == i then entries[0].kind
    else FirstGraceType(entries[1..], i)
  }

  /// The first entry naming i decides its kind.
  lemma {:induction false} FirstEntryDecides(entries: seq<GracePeriodEntry>, i: int, j: nat)
    requires j < |entries| && entries[j].period == i
    requires forall k :: 0 <= k < j ==> entries[k].period != i
    ensures FirstGraceType(entries, i) == entries[j].kind
  {
    if j > 0 {
      FirstEntryDecides(entries[1..], i, j - 1);
    }
  }

  /// Putting an entry in front of a list changes the last-wins label of i
  /// only when no later entry names i.
  lemma {:induction false} LabelAtFront(x: GracePeriodEntry, rest: seq<GracePeriodEntry>, i: int)
    ensures LabelAt([x] + rest, i)
            == if i in PeriodsOf(rest) then LabelAt(rest, i)
               else if x.period == i then LabelOf(x.kind) else S
  {
    if rest == [] {
      assert [x] + rest == [x];
      assert [x][..0] == [];
    } else {
      var init := rest[..|rest| - 1];
      var last := rest[|rest| - 1];
      assert ([x] + rest)[..|rest|] == [x] + init;
      assert ([x] + rest)[|rest|] == last;
      LabelAtFront(x, init, i);
      if i !in PeriodsOf(init) && last.period != i {
        LabelAtUnnamed(init, i);
      }
    }
  }

  /// With distinct periods the first-entry rule and the last-entry rule of
  /// the calculators' grace map give every period the same label.
  lemma {:induction false} FirstAgreesWithLastWhenDistinct(entries: seq<GracePeriodEntry>, i: int)
    requires forall j, k :: 0 <= j < k < |entries| ==> entries[j].period != entries[k].period
    ensures LabelOf(FirstGraceType(entries, i)) == LabelAt(entries, i)
  {
    if entries != [] {
      var x := entries[0];
      var rest := entries[1..];
      assert [x] + rest == entries;
      FirstAgreesWithLastWhenDistinct(rest, i);
      LabelAtFront(x, rest, i);
      if x.period == i && i in PeriodsOf(rest) {
        var k := PeriodIndex(rest, i);
        assert false;
      }
      if i !in PeriodsOf(rest) {
        LabelAtUnnamed(rest, i);
      }
    }
  }

  /// With a repeated period the two rules disagree: the first entry says
  /// total grace, the calculators' map keeps the later partial grace.
  lemma FirstDiffersFromLastOnRepeats()
    ensures var entries := [GracePeriodEntry(1, Total), GracePeriodEntry(1, Partial)];
            FirstGraceType(entries, 1) == Total && LabelAt(entries, 1) == P
  {
    var entries := [GracePeriodEntry(1, Total), GracePeriodEntry(1, Partial)];
    assert entries[1..] == [GracePeriodEntry(1, Partial)];
  }

  function GracePeriodsOf(input: PaymentPlanInput): seq<GracePeriodEntry>
  {
    OrElse(input.gracePeriods, [])
  }

  /// Equal share of the nominal value per period, all N periods counted.
  function AmortizationShare(input: PaymentPlanInput, n: int): real
  {
    if n > 0 then input.nominalValue / n as real else 0.0
  }

  /// N shares make up the nominal value.
  lemma SharesMakeNominal(input: PaymentPlanInput, n: int)
    requires n > 0
    ensures AmortizationShare(input, n) * n as real == input.nominalValue
  {
  }

  /// Number of periods among 1..k that the first-entry rule leaves without
  /// grace.
  function NoGraceCount(entries: seq<GracePeriodEntry>, k: nat): nat
  {
    if k == 0 then 0
    else NoGraceCount(entries, k - 1) + (if FirstGraceType(entries, k) == NoGrace then 1 else 0)
  }

  lemma {:induction false} NoGraceCountBound(entries: seq<GracePeriodEntry>, k: nat)
    ensures NoGraceCount(entries, k) <= k
  {
    if k > 0 {
      NoGraceCountBound(entries, k - 1);
    }
  }

  /// A period among 1..k with a partial or total entry first leaves fewer
  /// than k periods without grace.
  lemma {:induction false} GraceLowersCount(entries: seq<GracePeriodEntry>, k: nat, j: int)
    requires 1 <= j <= k && FirstGraceType(entries, j) != NoGrace
    ensures NoGraceCount(entries, k) < k
  {
    if j == k {
      NoGraceCountBound(entries, k - 1);
    } else {
      GraceLowersCount(entries, k - 1, j);
    }
  }

  /// With no grace among 1..k, all k periods are without grace.
  lemma {:induction false} NoGraceKeepsCount(entries: seq<GracePeriodEntry>, k: nat)
    requires forall j :: 1 <= j <= k ==> FirstGraceType(entries, j) == NoGrace
    ensures NoGraceCount(entries, k) == k
  {
    if k > 0 {
      NoGraceKeepsCount(entries, k - 1);
    }
  }

  /// All k periods are without grace exactly when none of 1..k has a
  /// partial or total entry first.
  lemma NoGraceCountFull(entries: seq<GracePeriodEntry>, k: nat)
    ensures NoGraceCount(entries, k) == k
            <==> forall j :: 1 <= j <= k ==> FirstGraceType(entries, j) == NoGrace
  {
    if forall j :: 1 <= j <= k ==> FirstGraceType(entries, j) == NoGrace {
      NoGraceKeepsCount(entries, k);
    } else {
      var j :| 1 <= j <= k && FirstGraceType(entries, j) != NoGrace;
      GraceLowersCount(entries, k, j);
    }
  }

  /// Balance entering period i >= 1: the nominal value less what the
  /// periods before i amortized.
  function BalanceAt(input: PaymentPlanInput, n: int, i: nat): real
    requires i >= 1
  {
    input.nominalValue - AmortizedBy(input, n, i - 1)
  }

  /// The balance entering period i is the nominal value less one share per
  /// earlier period without grace.
  lemma BalanceClosedForm(input: PaymentPlanInput, n: int, i: nat)
    requires i >= 1
    ensures BalanceAt(input, n, i)
            == input.nominalValue
               - Shares(AmortizationShare(input, n), NoGraceCount(GracePeriodsOf(input), i - 1))
  {
    AmortizedByShares(input, n, i - 1);
  }

  /// Interest a balance earns in one period at the period rate.
  function CouponOn(balance: real, rate: real): real
  {
    balance * rate
  }

  /// Coupon of period i: the rate on the balance, or nothing under total grace.
  function CouponAt(input: PaymentPlanInput, rates: PeriodRates, n: int, i: nat): real
    requires i >= 1
  {
    if FirstGraceType(GracePeriodsOf(input), i) == Total then 0.0
    else CouponOn(BalanceAt(input, n, i), rates.effectivePeriodRate)
  }

  /// Amortization of period i: the share in a period without grace.
  function AmortAt(input: PaymentPlanInput, n: int, i: nat): real
  {
    if FirstGraceType(GracePeriodsOf(input), i) == NoGrace then AmortizationShare(input, n) else 0.0
  }

  /// Installment of a period: nothing under total grace, the coupon under
  /// partial grace, coupon plus amortization otherwise.
  function Installment(grace: GracePeriodType, coupon: real, amort: real): (q: real)
    ensures grace == Total ==> q == 0.0
    ensures grace == Partial ==> q == coupon
    ensures grace == NoGrace ==> q == coupon + amort
  {
    match grace
    case Total => 0.0
    case Partial => coupon
    case NoGrace => coupon + amort
  }

  /// Premium of period i: the premium as given, in period 1 only.
  function PremiumAt(input: PaymentPlanInput, i: nat): real
  {
    if i == 1 then OrElse(input.prima, 0.0) else 0.0
  }

  /// One row of the schedule.
  datatype PaymentRow = PaymentRow(
    period: nat,
    date: PaymentDate,
    gracePeriod: GracePeriodType,
    bond: real,
    coupon: real,
    installment: real,
    amortization: real,
    premium: real,
    shield: real,
    emitterFlow: real,
    emitterFlowWithShield: real,
    bondholderFlow: real,
    actualizedFlow: real,
    faByPeriod: real,
    convexityFactor: real)

  /// Row i from its grace kind, balance, coupon, installment, amortization
  /// and premium: period 1 also carries the premium and each side's initial
  /// costs; the emitter pays, the bondholder receives net of them.
  function MakeRow(i: nat, paymentDays: nat, grace: GracePeriodType, bond: real, coupon: real,
                   installment: real, amort: real, premium: real, incomeTax: real,
                   emitterCosts: real, bondholderCosts: real, effCok: real): (r: PaymentRow)
    requires effCok > -1.0
    ensures r.period == i && r.gracePeriod == grace && r.bond == bond && r.coupon == coupon
    ensures r.installment == installment && r.amortization == amort && r.premium == premium
    ensures r.emitterFlow == installment + (if i == 1 then emitterCosts + premium else 0.0)
    ensures r.bondholderFlow == installment - (if i == 1 then bondholderCosts + premium else 0.0)
    ensures r.emitterFlowWithShield == r.emitterFlow - r.shield
  {
    var shield := coupon * incomeTax;
    var emitterFlow := installment + (if i == 1 then emitterCosts + premium else 0.0);
    var emitterFlowWithShield := emitterFlow - shield;
    var bondholderFlow := installment - (if i == 1 then bondholderCosts + premium else 0.0);
    var actualizedFlow := bondholderFlow / Pow(1.0 + effCok, i);
    var faByPeriod := actualizedFlow * i as real;
    var convexityFactor := actualizedFlow * i as real * (i + 1) as real;
    PaymentRow(i, DaysAfterEmission(paymentDays * i), grace, bond, coupon, installment, amort,
               premium, shield, emitterFlow, emitterFlowWithShield, bondholderFlow,
               actualizedFlow, faByPeriod, convexityFactor)
  }

  /// The row's shield is the coupon times the tax rate (as a fraction, not
  /// a percentage), and its bondholder flow is discounted i periods.
  lemma MakeRowDiscounting(i: nat, paymentDays: nat, grace: GracePeriodType, bond: real,
                           coupon: real, installment: real, amort: real, premium: real,
                           incomeTax: real, emitterCosts: real, bondholderCosts: real,
                           effCok: real)
    requires effCok > -1.0
    ensures var r := MakeRow(i, paymentDays, grace, bond, coupon, installment, amort, premium,
                             incomeTax, emitterCosts, bondholderCosts, effCok);
            && r.shield == coupon * incomeTax
            && r.date == DaysAfterEmission(paymentDays * i)
            && r.actualizedFlow * Pow(1.0 + effCok, i) == r.bondholderFlow
            && r.faByPeriod == r.actualizedFlow * i as real
  {
    var d := Pow(1.0 + effCok, i);
    assert d > 0.0;
  }

  function EmitterCostsOf(input: PaymentPlanInput): real
  {
    Costs.CostAmount(input.comercialValue, EmitterPct(input.costs))
  }

  function BondholderCostsOf(input: PaymentPlanInput): real
  {
    Costs.CostAmount(input.comercialValue, BondholderPct(input.costs))
  }

  /// Row i of an n-period schedule.
  function RowAt(input: PaymentPlanInput, rates: PeriodRates, n: int, i: nat): PaymentRow
    requires i >= 1 && rates.periodCOK > -1.0
  {
    var grace := FirstGraceType(GracePeriodsOf(input), i);
    MakeRow(i, DaysFromFrequency(input.paymentFrequency), grace, BalanceAt(input, n, i),
            CouponAt(input, rates, n, i),
            Installment(grace, CouponAt(input, rates, n, i), AmortAt(input, n, i)),
            AmortAt(input, n, i), PremiumAt(input, i), OrElse(input.incomeTax, 0.0),
            EmitterCostsOf(input), BondholderCostsOf(input), rates.periodCOK)
  }

  function PeriodsOfPlan(input: PaymentPlanInput): int
  {
    GetPeriods(input.years, input.paymentFrequency)
  }

  /// Rows 1..N of the schedule (none when N <= 0).
  function Schedule(input: PaymentPlanInput, rates: PeriodRates): (rows: seq<PaymentRow>)
    requires rates.periodCOK > -1.0
    ensures |rows| == if PeriodsOfPlan(input) > 0 then PeriodsOfPlan(input) else 0
  {
    var n := PeriodsOfPlan(input);
    seq(if n > 0 then n else 0, k requires 0 <= k => RowAt(input, rates, n, k + 1))
  }

  /// Row k of the schedule is period k + 1.
  lemma ScheduleRow(input: PaymentPlanInput, rates: PeriodRates, k: nat)
    requires rates.periodCOK > -1.0 && k < |Schedule(input, rates)|
    ensures Schedule(input, rates)[k] == RowAt(input, rates, PeriodsOfPlan(input), k + 1)
  {
  }

  /// Total grace pays nothing, not even its coupon; partial grace pays the
  /// coupon; a period without grace pays coupon plus share and lowers the
  /// balance by the share. The balance moves in no grace period.
  lemma PeriodRule(input: PaymentPlanInput, rates: PeriodRates, n: int, i: nat)
    requires i >= 1 && rates.periodCOK > -1.0
    ensures var row := RowAt(input, rates, n, i);
            var grace := FirstGraceType(GracePeriodsOf(input), i);
            && row.bond == BalanceAt(input, n, i)
            && (grace == Total ==> row.coupon == 0.0 && row.installment == 0.0 && row.amortization == 0.0)
            && (grace == Partial ==> row.installment == row.coupon && row.amortization == 0.0)
            && (grace == NoGrace ==>
                  row.amortization == AmortizationShare(input, n)
                  && row.installment == row.coupon + row.amortization)
            && BalanceAt(input, n, i + 1) == BalanceAt(input, n, i) - row.amortization
  {
  }

  /// Only period 1 carries the premium and the initial costs.
  lemma LaterPeriodsCarryNoCosts(input: PaymentPlanInput, rates: PeriodRates, n: int, i: nat)
    requires i > 1 && rates.periodCOK > -1.0
    ensures RowAt(input, rates, n, i).premium == 0.0
    ensures RowAt(input, rates, n, i).emitterFlow == RowAt(input, rates, n, i).installment
    ensures RowAt(input, rates, n, i).bondholderFlow == RowAt(input, rates, n, i).installment
  {
  }

  /// Sum of the amortizations of periods 1..k.
  function AmortizedBy(input: PaymentPlanInput, n: int, k: nat): real
  {
    if k == 0 then 0.0 else AmortizedBy(input, n, k - 1) + AmortAt(input, n, k)
  }

  /// Periods 1..k amortize one share per period without grace.
  lemma {:induction false} AmortizedByShares(input: PaymentPlanInput, n: int, k: nat)
    ensures AmortizedBy(input, n, k)
            == Shares(AmortizationShare(input, n), NoGraceCount(GracePeriodsOf(input), k))
  {
    if k > 0 {
      AmortizedByShares(input, n, k - 1);
      var standard := FirstGraceType(GracePeriodsOf(input), k) == NoGrace;
      OneMoreShare(AmortizationShare(input, n), NoGraceCount(GracePeriodsOf(input), k - 1),
                   AmortizedBy(input, n, k - 1), AmortAt(input, n, k), standard);
    }
  }

  /// The amortization column of rows 1..k sums to what periods 1..k amortize.
  lemma {:induction false} AmortizationColumn(input: PaymentPlanInput, rates: PeriodRates, k: nat)
    requires rates.periodCOK > -1.0 && k <= |Schedule(input, rates)|
    ensures SumOfAmortization(Schedule(input, rates)[..k])
            == AmortizedBy(input, PeriodsOfPlan(input), k)
  {
    var rows := Schedule(input, rates);
    if k > 0 {
      AmortizationColumn(input, rates, k - 1);
      assert rows[..k][..k - 1] == rows[..k - 1];
      ScheduleRow(input, rates, k - 1);
    }
  }

  function SumOfAmortization(rows: seq<PaymentRow>): real
  {
    if rows == [] then 0.0
    else SumOfAmortization(rows[..|rows| - 1]) + rows[|rows| - 1].amortization
  }

  /// Because the share divides the nominal value by all N periods, the
  /// N periods repay the nominal value exactly when none of them has a
  /// partial or total grace entry; with one, part of it is never repaid.
  lemma RepaysIffNoGrace(input: PaymentPlanInput, n: nat)
    requires n >= 1 && input.nominalValue != 0.0
    ensures AmortizedBy(input, n, n) == input.nominalValue
            <==> forall j :: 1 <= j <= n ==> FirstGraceType(GracePeriodsOf(input), j) == NoGrace
  {
    AmortizedByShares(input, n, n);
    NoGraceCountFull(GracePeriodsOf(input), n);
    SharesMakeNominal(input, n);
    SharesRepayIffAll(input.nominalValue, n, NoGraceCount(GracePeriodsOf(input), n),
                      AmortizationShare(input, n));
  }

  /// The amortization column of the whole schedule sums to what its N
  /// periods amortize.
  lemma ColumnTotal(input: PaymentPlanInput, rates: PeriodRates)
    requires rates.periodCOK > -1.0 && PeriodsOfPlan(input) >= 1
    ensures SumOfAmortization(Schedule(input, rates))
            == AmortizedBy(input, PeriodsOfPlan(input), PeriodsOfPlan(input))
  {
    var n := PeriodsOfPlan(input);
    var rows := Schedule(input, rates);
    AmortizationColumn(input, rates, n);
    assert rows[..n] == rows;
  }

  /// c shares of v / n make up v exactly when c == n (v != 0).
  lemma SharesRepayIffAll(v: real, n: nat, c: nat, a: real)
    requires n >= 1 && v != 0.0 && a * n as real == v
    ensures Shares(a, c) == v <==> c == n
  {
    assert a != 0.0;
    if a * c as real == v {
      assert a * c as real == a * n as real;
      assert a * (c as real - n as real) == 0.0;
    }
  }

  /// Period i of the loop: the grace kind by the first entry, the coupon
  /// on the balance (none under total grace), installment and
  /// amortization by grace kind, premium and costs in period 1.
  lemma LoopRowIsRowAt(input: PaymentPlanInput, rates: PeriodRates, n: int, i: nat,
                       grace: GracePeriodType, balance: real, coupon: real, amort: real,
                       installment: real, premium: real, emitterCosts: real,
                       bondholderCosts: real)
    requires i >= 1 && rates.periodCOK > -1.0
    requires grace == FirstGraceType(GracePeriodsOf(input), i)
    requires balance == BalanceAt(input, n, i)
    requires coupon == CouponAt(input, rates, n, i) && amort == AmortAt(input, n, i)
    requires installment == Installment(grace, coupon, amort)
    requires premium == PremiumAt(input, i)
    requires emitterCosts == EmitterCostsOf(input) && bondholderCosts == BondholderCostsOf(input)
    ensures MakeRow(i, DaysFromFrequency(input.paymentFrequency), grace, balance, coupon,
                    installment, amort, premium, OrElse(input.incomeTax, 0.0),
                    emitterCosts, bondholderCosts, rates.periodCOK)
            == RowAt(input, rates, n, i)
  {
  }

  /// The coupon the loop computes is CouponAt(i).
  lemma CouponOfBalance(input: PaymentPlanInput, rates: PeriodRates, n: int, i: nat, balance: real)
    requires i >= 1 && balance == BalanceAt(input, n, i)
    requires FirstGraceType(GracePeriodsOf(input), i) != Total
    ensures CouponOn(balance, rates.effectivePeriodRate) == CouponAt(input, rates, n, i)
  {
  }

  /// Assembles period i of the loop from the balance entering it; returns
  /// the row and the balance after it.
  method PeriodRow(input: PaymentPlanInput, rates: PeriodRates, n: int, i: nat,
                   balance: real, amortization: real, emitterCosts: real, bondholderCosts: real)
    returns (row: PaymentRow, newBalance: real)
    requires i >= 1 && rates.periodCOK > -1.0
    requires balance == BalanceAt(input, n, i) && amortization == AmortizationShare(input, n)
    requires emitterCosts == EmitterCostsOf(input) && bondholderCosts == BondholderCostsOf(input)
    ensures row == RowAt(input, rates, n, i)
    ensures newBalance == balance - row.amortization
  {
    var paymentDays := DaysFromFrequency(input.paymentFrequency);
    var graceType := FirstGraceType(GracePeriodsOf(input), i);
    var coupon := CouponOn(balance, rates.effectivePeriodRate);
    var amort := 0.0;
    var installment := 0.0;
    newBalance := balance;
    if graceType == Total {
      coupon := 0.0;
      amort := 0.0;
      installment := 0.0;
    } else if graceType == Partial {
      CouponOfBalance(input, rates, n, i, balance);
      amort := 0.0;
      installment := coupon;
    } else {
      CouponOfBalance(input, rates, n, i, balance);
      amort := amortization;
      installment := coupon + amort;
      newBalance := newBalance - amort;
    }
    var premium := if i == 1 then OrElse(input.prima, 0.0) else 0.0;
    LoopRowIsRowAt(input, rates, n, i, graceType, newBalance + amort, coupon, amort, installment,
                   premium, emitterCosts, bondholderCosts);
    row := MakeRow(i, paymentDays, graceType, newBalance + amort, coupon, installment, amort,
                   premium, OrElse(input.incomeTax, 0.0), emitterCosts, bondholderCosts,
                   rates.periodCOK);
  }

  /// Builds rows 1..N: equal shares of the nominal value, the first entry
  /// naming a period deciding its grace, the balance lowered only in periods
  /// without grace.
  method CalculateGermanBondSchedule(input: PaymentPlanInput, rates: PeriodRates)
    returns (schedule: seq<PaymentRow>)
    requires rates.periodCOK > -1.0
    ensures schedule == Schedule(input, rates)
  {
    var periods := GetPeriods(input.years, input.paymentFrequency);
    var amortization := if periods > 0 then input.nominalValue / periods as real else 0.0;
    var emitterCosts, bondholderCosts := GetInitialCosts(input.comercialValue, input.costs);
    schedule := [];
    var balance := input.nominalValue;
    var i := 1;
    while i <= periods
      invariant 1 <= i <= (if periods > 0 then periods else 0) + 1
      invariant |schedule| == i - 1
      invariant forall k :: 0 <= k < i - 1 ==> schedule[k] == RowAt(input, rates, periods, k + 1)
      invariant balance == BalanceAt(input, periods, i)
    {
      var row;
      PeriodRule(input, rates, periods, i);
      row, balance := PeriodRow(input, rates, periods, i, balance, amortization,
                                emitterCosts, bondholderCosts);
      schedule := schedule + [row];
      i := i + 1;
    }
    assert periods == PeriodsOfPlan(input);
    assert |schedule| == |Schedule(input, rates)|;
    forall k | 0 <= k < |schedule|
      ensures schedule[k] == Schedule(input, rates)[k]
    {
      ScheduleRow(input, rates, k);
    }
  }
}
