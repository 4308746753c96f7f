/// What the German calculator and the French method share once the coupon,
/// quota, amortization and premium of a period are known: the row layout,
/// the payment calendar, the three signed flow series, discounting at the
/// period opportunity rate, and the summary folds over periods 1..N.
module CashFlow {
  import opened Enums
  import opened Grace
  import opened Costs

  /// The calculators' input record (the fields they read).
  datatype BondInput = BondInput(
    comercialValue: real,
    interestRateType: InterestRateType,
    compoundingFrequency: Option<CompoundingFrequency>,
    daysPerYear: real,
    paymentFrequency: PaymentFrequency,
    years: real,
    prima: real,
    costs: IssuanceCosts,
    incomeTax: real,
    gracePeriod: seq<GracePeriodEntry>,
    applyPrimaIn: ApplyPrimaIn)

  /// The period count is a natural number (years times periods per year).
  predicate WholePeriods(x: real)
  {
    x >= 0.0 && x.Floor as real == x
  }

  /// The two period rates the calculators derive with fractional powers
  /// (coupon rate per period, opportunity rate per period); given here.
  datatype PeriodRates = PeriodRates(effectivePeriodRate: real, periodCOK: real)

  /// How far apart consecutive payment dates are.
  datatype CalendarStep = EveryDays(days: nat) | EveryMonths(months: nat)

  /// A payment date, as an offset from the emission date.
  datatype PaymentDate = DaysAfterEmission(days: nat) | MonthsAfterEmission(months: nat)

  /// One row of the schedule. Period 0 is the emission; in periods 1..N the
  /// coupon, quota, amortization and premium are stored negated (outflows of
  /// the emitter).
  datatype Period = Period(
    period: nat,
    programmingDate: PaymentDate,
    gracePeriodType: Option<GraceLabel>,
    bond: real,
    coupon: real,
    quota: real,
    amortization: real,
    premium: real,
    shield: real,
    emitterFlow: real,
    emitterFlowWithShield: real,
    bondholderFlow: real,
    actualFlow: real,
    faXTerm: real,
    convexityFactor: real)

  /// The calendar step of each payment frequency: days for daily payments,
  /// whole months otherwise.
  function DateStep(f: PaymentFrequency): CalendarStep
  {
    match f
    case Daily => EveryDays(1)
    case Monthly => EveryMonths(1)
    case Bimonthly => EveryMonths(2)
    case Quarterly => EveryMonths(3)
    case SemiAnnual => EveryMonths(6)
    case Annual => EveryMonths(12)
  }

  /// The date of period i: the emission date advanced by i steps.
  function DateOf(step: CalendarStep, i: nat): PaymentDate
  {
    match step
    case EveryDays(k) => DaysAfterEmission(k * i)
    case EveryMonths(k) => MonthsAfterEmission(k * i)
  }

  /// How many days after the emission a date lies, counting a month as 30
  /// days (the day count the period lengths use).
  function DaysOf(d: PaymentDate): nat
  {
    match d
    case DaysAfterEmission(k) => k
    case MonthsAfterEmission(m) => 30 * m
  }

  /// b raised to a natural power.
  function Pow(b: real, k: nat): (p: real)
    ensures b > 0.0 ==> p > 0.0
  {
    if k == 0 then 1.0 else b * Pow(b, k - 1)
  }

  /// Powers of a larger positive base are at least as large.
  lemma {:induction false} PowMonotone(b1: real, b2: real, k: nat)
    requires 0.0 < b1 <= b2
    ensures Pow(b1, k) <= Pow(b2, k)
  {
    if k > 0 {
      PowMonotone(b1, b2, k - 1);
      var p1, p2 := Pow(b1, k - 1), Pow(b2, k - 1);
      assert 0.0 < p1 <= p2;
      ScaleLe(b1, b2, p1);
      ScaleLe(p1, p2, b2);
      assert b1 * p1 <= b2 * p1 <= b2 * p2;
      assert Pow(b1, k) == b1 * p1;
      assert Pow(b2, k) == b2 * p2;
    }
  }

  /// c equal shares of a.
  function Shares(a: real, c: nat): real
  {
    a * c as real
  }

  /// Adding one period's amortization to c shares of a gives one more share
  /// after a standard period and the same c shares after a grace period.
  lemma OneMoreShare(a: real, c: nat, paid: real, step: real, standard: bool)
    requires paid == Shares(a, c) && step == (if standard then a else 0.0)
    ensures paid + step == Shares(a, if standard then c + 1 else c)
  {
  }

  /// Multiplying by a non-negative factor keeps an inequality.
  lemma ScaleLe(x: real, y: real, z: real)
    requires x <= y && z >= 0.0
    ensures x * z <= y * z && z * x <= z * y
  {
  }

  /// The emission row: only the commercial value exchanged net of each
  /// side's initial costs; every period-specific column is zero.
  function EmissionRow(comercialValue: real, emitterCosts: real, bondholderCosts: real,
                       date: PaymentDate): (r: Period)
    ensures r.period == 0 && r.programmingDate == date && r.gracePeriodType == None
    ensures r.bond == 0.0 && r.coupon == 0.0 && r.quota == 0.0 && r.amortization == 0.0
    ensures r.premium == 0.0 && r.shield == 0.0
    ensures r.actualFlow == 0.0 && r.faXTerm == 0.0 && r.convexityFactor == 0.0
    ensures r.emitterFlow == r.emitterFlowWithShield == comercialValue - emitterCosts
    ensures r.bondholderFlow == -(comercialValue + bondholderCosts)
    ensures r.emitterFlow + r.bondholderFlow == -(emitterCosts + bondholderCosts)
  {
    var emitterPeriod0Flow := comercialValue - emitterCosts;
    Period(0, date, None, 0.0, 0.0, 0.0, 0.0, 0.0, 0.0,
           emitterPeriod0Flow, emitterPeriod0Flow, -(comercialValue + bondholderCosts),
           0.0, 0.0, 0.0)
  }

  /// Row i >= 1 from the unsigned coupon, quota, amortization and premium of
  /// the period: the shield is the coupon's tax saving, the bondholder
  /// receives quota plus premium and the emitter pays it, the shield lowers
  /// the emitter's outflow, and the bondholder flow is discounted i periods
  /// at the period opportunity rate.
  function AssembleRow(i: nat, date: PaymentDate, grace: GraceLabel, bond: real,
                       coupon: real, quota: real, amortization: real, premium: real,
                       incomeTax: real, periodCOK: real, frequencyDays: nat, daysPerYear: real)
    : (r: Period)
    requires periodCOK > -1.0 && daysPerYear != 0.0
    ensures r.period == i && r.bond == bond && r.gracePeriodType == Some(grace)
    ensures r.coupon == -coupon && r.amortization == -amortization
    ensures r.quota == -quota && r.premium == -premium
    ensures r.bondholderFlow == quota + premium
    ensures r.emitterFlow == -r.bondholderFlow
    ensures r.emitterFlowWithShield == r.emitterFlow + r.shield
  {
    var shield := coupon * incomeTax / 100.0;
    var emitterFlow := quota + premium;
    var emitterFlowWithShield := emitterFlow - shield;
    var bondholderFlow := quota + premium;
    var discountFactor := Pow(1.0 + periodCOK, i);
    var actualFlow := bondholderFlow / discountFactor;
    var periodDaysRatio := frequencyDays as real / daysPerYear;
    var faXTerm := actualFlow * (i as real) * periodDaysRatio;
    var convexityFactor := actualFlow * (i as real) * ((i + 1) as real);
    Period(i, date, Some(grace), bond, -coupon, -quota, -amortization, -premium, shield,
           -emitterFlow, -emitterFlowWithShield, bondholderFlow,
           actualFlow, faXTerm, convexityFactor)
  }

  /// The tax shield, the discounted flow and the duration and convexity
  /// contributions of an assembled row.
  lemma AssembledRowDiscounting(i: nat, date: PaymentDate, grace: GraceLabel, bond: real,
                                coupon: real, quota: real, amortization: real, premium: real,
                                incomeTax: real, periodCOK: real, frequencyDays: nat,
                                daysPerYear: real)
    requires periodCOK > -1.0 && daysPerYear != 0.0
    ensures var r := AssembleRow(i, date, grace, bond, coupon, quota, amortization, premium,
                                 incomeTax, periodCOK, frequencyDays, daysPerYear);
      && r.shield == coupon * incomeTax / 100.0
      && DiscountedRow(r, periodCOK)
      && r.faXTerm == r.actualFlow * (i as real) * (frequencyDays as real / daysPerYear)
      && r.convexityFactor == r.actualFlow * (i as real) * ((i + 1) as real)
  {
    var d := Pow(1.0 + periodCOK, i);
    assert d > 0.0;
    assert (quota + premium) / d * d == quota + premium;
  }

  /// A row's premium columns: none before the last period, and in the last
  /// one prima percent of the premium base on top of the quota.
  predicate AssemblesWithPremium(row: Period, i: nat, n: nat, applyPrimaIn: ApplyPrimaIn,
                                 prima: real, comercialValue: real, lastPeriodInitialBond: real)
  {
    var base := if applyPrimaIn == Beginning then comercialValue else lastPeriodInitialBond;
    && (i != n ==> row.premium == 0.0 && row.bondholderFlow == -row.quota)
    && (i == n ==> row.premium == -PremiumOn(base, prima)
                   && row.bondholderFlow == -row.quota + PremiumOn(base, prima))
  }

  /// prima percent of a premium base.
  function PremiumOn(base: real, prima: real): real
  {
    base * prima / 100.0
  }

  /// The premium columns of an assembled row: none before the last
  /// period, and in the last one prima percent of the premium base, which
  /// the bondholder receives on top of the quota.
  lemma AssembledPremium(i: nat, date: PaymentDate, grace: GraceLabel, bond: real,
                         coupon: real, quota: real, amortization: real,
                         applyPrimaIn: ApplyPrimaIn, prima: real, comercialValue: real,
                         lastPeriodInitialBond: real, n: nat,
                         incomeTax: real, periodCOK: real, frequencyDays: nat, daysPerYear: real)
    requires periodCOK > -1.0 && daysPerYear != 0.0
    ensures AssemblesWithPremium(
              AssembleRow(i, date, grace, bond, coupon, quota, amortization,
                          PremiumAt(applyPrimaIn, prima, comercialValue, lastPeriodInitialBond, n, i),
                          incomeTax, periodCOK, frequencyDays, daysPerYear),
              i, n, applyPrimaIn, prima, comercialValue, lastPeriodInitialBond)
  {
  }

  /// Premium of period i of an n-period schedule: only the last period
  /// carries one, sized on the commercial value ("beginning") or on the
  /// balance entering the last period ("end").
  function PremiumAt(applyPrimaIn: ApplyPrimaIn, prima: real, comercialValue: real,
                     lastPeriodInitialBond: real, n: nat, i: nat): (p: real)
    ensures i != n ==> p == 0.0
    ensures i == n && applyPrimaIn == Beginning ==> p == comercialValue * prima / 100.0
    ensures i == n && applyPrimaIn == End ==> p == lastPeriodInitialBond * prima / 100.0
  {
    if i != n then 0.0
    else
      var premiumBase := if applyPrimaIn == Beginning then comercialValue else lastPeriodInitialBond;
      premiumBase * prima / 100.0
  }

  /// Sum of the discounted flows.
  function SumActualFlow(rows: seq<Period>): real
  {
    if rows == [] then 0.0 else SumActualFlow(rows[..|rows| - 1]) + rows[|rows| - 1].actualFlow
  }

  /// Sum of the duration contributions.
  function SumFaXTerm(rows: seq<Period>): real
  {
    if rows == [] then 0.0 else SumFaXTerm(rows[..|rows| - 1]) + rows[|rows| - 1].faXTerm
  }

  /// Sum of the convexity contributions.
  function SumConvexityFactor(rows: seq<Period>): real
  {
    if rows == [] then 0.0
    else SumConvexityFactor(rows[..|rows| - 1]) + rows[|rows| - 1].convexityFactor
  }

  /// Sum of the (stored, negated) amortizations.
  function SumAmortization(rows: seq<Period>): real
  {
    if rows == [] then 0.0 else SumAmortization(rows[..|rows| - 1]) + rows[|rows| - 1].amortization
  }

  /// Present value of the bondholder flows, each discounted by its own period
  /// number (the "actual price" fold).
  function PresentValue(rows: seq<Period>, periodCOK: real): real
    requires periodCOK > -1.0
  {
    if rows == [] then 0.0
    else PresentValue(rows[..|rows| - 1], periodCOK)
         + rows[|rows| - 1].bondholderFlow / Pow(1.0 + periodCOK, rows[|rows| - 1].period)
  }

  /// A row's discounted flow is its bondholder flow over (1+periodCOK)^period.
  predicate DiscountedRow(row: Period, periodCOK: real)
  {
    row.actualFlow * Pow(1.0 + periodCOK, row.period) == row.bondholderFlow
  }

  /// Every row is discounted.
  ghost predicate Discounted(rows: seq<Period>, periodCOK: real)
  {
    forall k :: 0 <= k < |rows| ==> DiscountedRow(rows[k], periodCOK)
  }

  /// Discounting that holds of rows 1.. of a schedule holds of its tail.
  lemma DiscountedTail(rows: seq<Period>, periodCOK: real)
    requires |rows| >= 1
    requires forall k :: 1 <= k < |rows| ==> DiscountedRow(rows[k], periodCOK)
    ensures Discounted(rows[1..], periodCOK)
  {
    var tail := rows[1..];
    forall k | 0 <= k < |tail| ensures DiscountedRow(tail[k], periodCOK) {
      assert tail[k] == rows[k + 1];
    }
  }

  /// The actual price recomputed from the bondholder flows equals the sum
  /// of the discounted-flow column.
  lemma {:induction false} PresentValueIsSumActualFlow(rows: seq<Period>, periodCOK: real)
    requires periodCOK > -1.0 && Discounted(rows, periodCOK)
    ensures PresentValue(rows, periodCOK) == SumActualFlow(rows)
  {
    if rows != [] {
      var last := rows[|rows| - 1];
      assert Discounted(rows[..|rows| - 1], periodCOK) by {
        forall k | 0 <= k < |rows| - 1
          ensures rows[..|rows| - 1][k] == rows[k] { }
      }
      PresentValueIsSumActualFlow(rows[..|rows| - 1], periodCOK);
      var d := Pow(1.0 + periodCOK, last.period);
      assert d > 0.0;
      assert DiscountedRow(last, periodCOK);
      assert last.actualFlow * d == last.bondholderFlow;
      assert last.bondholderFlow / d == last.actualFlow;
    }
  }

  /// With non-negative bondholder flows, the actual price does not rise when
  /// the opportunity rate rises.
  lemma {:induction false} PresentValueFallsAsRateRises(rows: seq<Period>, cok1: real, cok2: real)
    requires -1.0 < cok1 <= cok2
    requires forall k :: 0 <= k < |rows| ==> rows[k].bondholderFlow >= 0.0
    ensures PresentValue(rows, cok2) <= PresentValue(rows, cok1)
  {
    if rows != [] {
      var last := rows[|rows| - 1];
      PresentValueFallsAsRateRises(rows[..|rows| - 1], cok1, cok2);
      var d1, d2 := Pow(1.0 + cok1, last.period), Pow(1.0 + cok2, last.period);
      PowMonotone(1.0 + cok1, 1.0 + cok2, last.period);
      assert 0.0 < d1 <= d2;
      var f := last.bondholderFlow;
      assert f >= 0.0;
      assert f / d2 <= f / d1 by {
        assert f / d2 * d2 == f == f / d1 * d1;
        assert f / d1 >= 0.0;
        assert f / d1 * d1 <= f / d1 * d2;
      }
    }
  }

  /// A calculator's output: rows 0..N and their summary.
  datatype ScheduleResult = ScheduleResult(periods: seq<Period>, summary: CalculationSummary)

  /// Summary figures of a schedule (the Decimal NaN/Infinity of a zero
  /// divisor is None here).
  datatype CalculationSummary = CalculationSummary(
    couponFrequency: nat,
    capitalizationDays: nat,
    periodsPerYear: real,
    totalPeriods: nat,
    effectivePeriodCouponRate: real,
    periodCOK: real,
    initialEmitterCosts: real,
    initialBondholderCosts: real,
    actualPrice: real,
    utility: real,
    duration: Option<real>,
    convexity: Option<real>,
    total: Option<real>,
    modifiedDuration: Option<real>)

  /// The divisor of the convexity: (1 + COK)^2 times the discounted flows
  /// times the square of the periods per year.
  function ConvexityDenominator(periodCOK: real, totalActualFlow: real, daysPerYear: real,
                                frequencyDays: nat): real
    requires frequencyDays > 0
  {
    Pow(1.0 + periodCOK, 2) * totalActualFlow * Pow(daysPerYear / frequencyDays as real, 2)
  }

  /// With a year of non-zero length, the convexity divisor vanishes exactly
  /// when the discounted flows sum to zero, so the convexity is defined
  /// exactly when the duration is.
  lemma ConvexityDefinedWithDuration(periodCOK: real, totalActualFlow: real, daysPerYear: real,
                                     frequencyDays: nat)
    requires periodCOK > -1.0 && frequencyDays > 0 && daysPerYear != 0.0
    ensures ConvexityDenominator(periodCOK, totalActualFlow, daysPerYear, frequencyDays) != 0.0
            <==> totalActualFlow != 0.0
  {
    var a := Pow(1.0 + periodCOK, 2);
    var f := daysPerYear / frequencyDays as real;
    assert f != 0.0;
    var b := Pow(f, 2);
    assert Pow(f, 1) == f;
    assert b == f * f;
    NonZeroProduct(f, f);
    NonZeroProduct(a, totalActualFlow);
    NonZeroProduct(a * totalActualFlow, b);
  }

  /// A product is non-zero exactly when both factors are.
  lemma NonZeroProduct(x: real, y: real)
    ensures x * y != 0.0 <==> x != 0.0 && y != 0.0
  {
  }

  /// The summary over a schedule (rows 1..N enter the sums; row 0 only the utility).
  function Summarize(periods: seq<Period>, rates: PeriodRates, frequencyDays: nat,
                     daysPerYear: real, periodsPerYear: real, n: nat,
                     emitterCosts: real, bondholderCosts: real): (s: CalculationSummary)
    requires |periods| >= 1 && rates.periodCOK > -1.0 && frequencyDays > 0
    ensures s.utility == periods[0].bondholderFlow + s.actualPrice
    ensures s.actualPrice == PresentValue(periods[1..], rates.periodCOK)
    ensures s.duration.Some? <==> SumActualFlow(periods[1..]) != 0.0
    ensures s.duration.Some? ==>
              s.duration.value * SumActualFlow(periods[1..]) == SumFaXTerm(periods[1..])
    ensures s.modifiedDuration.Some? <==> s.duration.Some?
    ensures s.duration.Some? ==>
              s.modifiedDuration.value * (1.0 + rates.periodCOK) == s.duration.value
    ensures s.convexity.Some? <==>
              ConvexityDenominator(rates.periodCOK, SumActualFlow(periods[1..]), daysPerYear,
                                   frequencyDays) != 0.0
    ensures s.convexity.Some? ==>
              s.convexity.value * ConvexityDenominator(rates.periodCOK, SumActualFlow(periods[1..]),
                                                       daysPerYear, frequencyDays)
              == SumConvexityFactor(periods[1..])
    ensures s.total.Some? <==> s.duration.Some? && s.convexity.Some?
    ensures s.total.Some? ==> s.total.value == s.duration.value + s.convexity.value
  {
    var rows := periods[1..];
    var pc := rates.periodCOK;
    var totalActualFlow := SumActualFlow(rows);
    var totalFAXTerm := SumFaXTerm(rows);
    var totalConvexityFactor := SumConvexityFactor(rows);
    var actualPrice := PresentValue(rows, pc);
    var utility := periods[0].bondholderFlow + actualPrice;
    var duration := if totalActualFlow != 0.0 then Some(totalFAXTerm / totalActualFlow) else None;
    var convexityDenominator :=
      ConvexityDenominator(pc, totalActualFlow, daysPerYear, frequencyDays);
    var convexity :=
      if convexityDenominator != 0.0 then Some(totalConvexityFactor / convexityDenominator) else None;
    var total := if duration.Some? && convexity.Some? then Some(duration.value + convexity.value) else None;
    var modifiedDuration := if duration.Some? then Some(duration.value / (1.0 + pc)) else None;
    CalculationSummary(frequencyDays, 1, periodsPerYear, n, rates.effectivePeriodRate * 100.0,
                         pc * 100.0, emitterCosts, bondholderCosts, actualPrice, utility,
                         duration, convexity, total, modifiedDuration)
  }
}
