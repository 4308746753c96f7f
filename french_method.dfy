/// The French (constant-quota) method: the payment frequency is forced to the
/// four-month period, every standard period pays the same annuity quota (its
/// coupon on the balance plus the rest as amortization), a partial grace
/// period pays only its coupon and a total grace period pays nothing; in both
/// grace kinds the balance is carried over unchanged.
module FrenchMethod {
  import opened Enums
  import opened Grace
  import opened Costs
  import opened CashFlow
  import GermanCalculator

  /// Length of a payment period in days; the quarterly entry is the
  /// four-month period of 120 days.
  function FrequencyDays(f: PaymentFrequency): (d: nat)
    ensures d > 0 && 360 % d == 0
  {
    match f
    case Daily => 1
    case Monthly => 30
    case Bimonthly => 60
    case Quarterly => 120
    case SemiAnnual => 180
    case Annual => 360
  }

  /// The day table of the French method differs from the German
  /// calculator's at the quarterly frequency and nowhere else.
  lemma DayTablesDifferOnlyAtQuarterly(f: PaymentFrequency)
    ensures FrequencyDays(f) != GermanCalculator.FrequencyDays(f) <==> f == Quarterly
    ensures f == Quarterly ==> 3 * FrequencyDays(f) == 4 * GermanCalculator.FrequencyDays(f)
  {
  }

  /// Number of payment periods in a year of `daysPerYear` days.
  function PeriodsPerYear(f: PaymentFrequency, daysPerYear: real): (p: real)
    ensures p * FrequencyDays(f) as real == daysPerYear
  {
    daysPerYear / FrequencyDays(f) as real
  }

  /// The frequency every French schedule is built with, whatever the input
  /// says.
  const ForcedFrequency: PaymentFrequency := Quarterly

  /// The calendar step of the forced frequency as the payment-date helper
  /// takes it: three months per period, although a period is 120 days long.
  function AsWrittenDateStep(): (step: CalendarStep)
    ensures step == DateStep(ForcedFrequency)
  {
    DateStep(ForcedFrequency)
  }

  /// With the three-month step, period i is dated 90 * i days after the
  /// emission while 120 * i days of interest have accrued by then.
  lemma AsWrittenDatesFallBehind(i: nat)
    requires i >= 1
    ensures AsWrittenDateStep().EveryMonths?
    ensures DaysOf(DateOf(AsWrittenDateStep(), i)) < i * FrequencyDays(ForcedFrequency)
    ensures DateOf(AsWrittenDateStep(), 3) == MonthsAfterEmission(9)
  {
  }

  /// The calendar step that matches the 120-day period: four months.
  function ForcedDateStep(): (step: CalendarStep)
    ensures step.EveryMonths? && 30 * step.months == FrequencyDays(ForcedFrequency)
  {
    EveryMonths(4)
  }

  /// With the four-month step, period i is dated exactly i periods of
  /// 120 days after the emission; one year of 360 days ends at period 3.
  lemma ForcedDatesMatchPeriods(i: nat)
    ensures DaysOf(DateOf(ForcedDateStep(), i)) == i * FrequencyDays(ForcedFrequency)
    ensures DateOf(ForcedDateStep(), 3) == MonthsAfterEmission(12)
  {
  }

  function TotalPeriods(data: BondInput): real
  {
    data.years * PeriodsPerYear(ForcedFrequency, data.daysPerYear)
  }

  /// The period count as a natural number.
  function PeriodCount(data: BondInput): nat
    requires WholePeriods(TotalPeriods(data))
  {
    TotalPeriods(data).Floor
  }

  /// A schedule with at least one period has a non-zero year length.
  lemma PeriodsNeedDays(data: BondInput)
    requires WholePeriods(TotalPeriods(data)) && PeriodCount(data) >= 1
    ensures data.daysPerYear != 0.0
  {
  }

  /// One plus the rate to the power of zero or more periods: 1 stays 1.
  lemma {:induction false} PowOfOne(k: nat)
    ensures Pow(1.0, k) == 1.0
  {
    if k > 0 {
      PowOfOne(k - 1);
    }
  }

  /// The annuity quota that repays `comercialValue` in `nonGracePeriods`
  /// standard periods at the period rate r: zero when no standard period
  /// remains, undefined when (1+r)^n is 1 (the annuity divides by zero).
  function ConstantQuota(comercialValue: real, r: real, nonGracePeriods: int): (q: Result<real>)
    ensures nonGracePeriods <= 0 ==> q == Success(0.0)
    ensures nonGracePeriods > 0 ==>
              (q.Failure? <==> Pow(1.0 + r, nonGracePeriods as nat) == 1.0)
    ensures q.Failure? ==> q.error == AnnuityUndefined
    ensures nonGracePeriods > 0 && q.Success? ==>
              var x := Pow(1.0 + r, nonGracePeriods as nat);
              q.value * (x - 1.0) == comercialValue * r * x
  {
    if nonGracePeriods <= 0 then Success(0.0)
    else
      var x := Pow(1.0 + r, nonGracePeriods as nat);
      if x - 1.0 == 0.0 then Failure(AnnuityUndefined)
      else Success(comercialValue * r * x / (x - 1.0))
  }

  /// A zero rate leaves no annuity to compute.
  lemma ZeroRateAnnuityUndefined(comercialValue: real, nonGracePeriods: int)
    requires nonGracePeriods > 0
    ensures ConstantQuota(comercialValue, 0.0, nonGracePeriods) == Failure(AnnuityUndefined)
  {
    PowOfOne(nonGracePeriods as nat);
  }

  /// The annuity of this bond: N minus one period per grace entry.
  function AnnuityOf(data: BondInput, rates: PeriodRates, n: nat): Result<real>
  {
    ConstantQuota(data.comercialValue, rates.effectivePeriodRate,
                  n - GraceEntryCount(data.gracePeriod))
  }

  /// Quota of a period of the given kind: nothing under total grace, the
  /// coupon under partial grace, the annuity otherwise.
  function PeriodQuota(grace: GraceLabel, coupon: real, q: real): (quota: real)
    ensures grace == T ==> quota == 0.0
    ensures grace == P ==> quota == coupon
    ensures grace == S ==> quota == q
  {
    match grace
    case T => 0.0
    case P => coupon
    case S => q
  }

  /// Amortization of a period of the given kind: the part of the annuity
  /// left after the coupon in a standard period, nothing in a grace period.
  function PeriodAmortization(grace: GraceLabel, coupon: real, q: real): (a: real)
    ensures grace == S ==> a + coupon == PeriodQuota(grace, coupon, q)
    ensures grace != S ==> a == 0.0
  {
    if grace == S then q - coupon else 0.0
  }

  /// Balance entering period i >= 1 under period rate r and annuity q:
  /// each period lowers it by that period's amortization.
  function Balance(data: BondInput, r: real, q: real, i: nat): real
    requires i >= 1
    decreases i
  {
    if i == 1 then data.comercialValue
    else
      var b := Balance(data, r, q, i - 1);
      b - PeriodAmortization(LabelAt(data.gracePeriod, i - 1), b * r, q)
  }

  /// The closed form of the balance b after standard periods that raised
  /// (1+r) to x: r * b == cv * r * x - q * (x - 1).
  predicate ClosedForm(cv: real, r: real, q: real, x: real, b: real)
  {
    r * b == cv * r * x - q * (x - 1.0)
  }

  /// One standard period keeps the closed form: paying the annuity q on a
  /// balance b multiplies x by 1 + r.
  lemma ClosedFormStep(cv: real, r: real, q: real, x: real, b: real)
    requires ClosedForm(cv, r, q, x, b)
    ensures ClosedForm(cv, r, q, (1.0 + r) * x, b - (q - b * r))
  {
    var rb := r * b;
    assert rb == cv * r * x - q * (x - 1.0);
    calc {
      r * (b - (q - b * r));
      rb + r * rb - r * q;
      (1.0 + r) * rb - r * q;
      (1.0 + r) * (cv * r * x - q * (x - 1.0)) - r * q;
      cv * r * ((1.0 + r) * x) - q * ((1.0 + r) * x - 1.0);
    }
  }

  /// A standard period i - 1 carries the closed form from i - 1 to i: it
  /// adds one factor 1 + r to the power and pays the annuity on the balance.
  lemma StandardStep(data: BondInput, r: real, q: real, i: nat)
    requires i > 1 && LabelAt(data.gracePeriod, i - 1) == S
    requires ClosedForm(data.comercialValue, r, q,
                        Pow(1.0 + r, StandardCount(data.gracePeriod, i - 2)),
                        Balance(data, r, q, i - 1))
    ensures ClosedForm(data.comercialValue, r, q,
                       Pow(1.0 + r, StandardCount(data.gracePeriod, i - 1)), Balance(data, r, q, i))
  {
    var b := Balance(data, r, q, i - 1);
    var x := Pow(1.0 + r, StandardCount(data.gracePeriod, i - 2));
    assert Balance(data, r, q, i) == b - (q - b * r);
    assert Pow(1.0 + r, StandardCount(data.gracePeriod, i - 1)) == (1.0 + r) * x;
    ClosedFormStep(data.comercialValue, r, q, x, b);
  }

  /// A grace period i - 1 leaves the balance and the standard count alone.
  lemma GraceStep(data: BondInput, r: real, q: real, i: nat)
    requires i > 1 && LabelAt(data.gracePeriod, i - 1) != S
    ensures Balance(data, r, q, i) == Balance(data, r, q, i - 1)
    ensures StandardCount(data.gracePeriod, i - 1) == StandardCount(data.gracePeriod, i - 2)
  {
  }

  /// The balance entering period i is in closed form with x = (1+r)^s, s
  /// the number of standard periods before i; grace periods leave it where
  /// it was.
  lemma {:induction false} BalanceClosedForm(data: BondInput, r: real, q: real, i: nat)
    requires i >= 1
    ensures ClosedForm(data.comercialValue, r, q,
                       Pow(1.0 + r, StandardCount(data.gracePeriod, i - 1)), Balance(data, r, q, i))
  {
    if i > 1 {
      BalanceClosedForm(data, r, q, i - 1);
      if LabelAt(data.gracePeriod, i - 1) == S {
        StandardStep(data, r, q, i);
      } else {
        GraceStep(data, r, q, i);
      }
    }
  }

  /// With valid entries, periods 1..N hold N minus one standard period per
  /// grace entry, so the closed form after period N has that exponent.
  lemma BalanceAtMaturity(data: BondInput, r: real, q: real, n: nat)
    requires ValidEntries(data.gracePeriod, n)
    requires n - GraceEntryCount(data.gracePeriod) >= 0
    ensures ClosedForm(data.comercialValue, r, q,
                       Pow(1.0 + r, (n - GraceEntryCount(data.gracePeriod)) as nat),
                       Balance(data, r, q, n + 1))
  {
    GraceCountMatches(data.gracePeriod, n);
    BalanceClosedForm(data, r, q, n + 1);
  }

  /// At the annuity's own exponent the closed form gives r * b == 0, hence
  /// b == 0 since the annuity needs r != 0.
  lemma ClosedFormAtMaturity(cv: real, r: real, q: real, x: real, b: real)
    requires ClosedForm(cv, r, q, x, b)
    requires q * (x - 1.0) == cv * r * x
    requires r != 0.0
    ensures b == 0.0
  {
    assert r * b == 0.0;
  }

  /// With valid grace entries, at least one standard period and a defined
  /// annuity, the balance after period N is zero: the annuity repays the
  /// commercial value exactly, grace periods included.
  lemma FrenchFinalBalanceZero(data: BondInput, rates: PeriodRates, n: nat)
    requires ValidEntries(data.gracePeriod, n)
    requires n - GraceEntryCount(data.gracePeriod) > 0
    requires AnnuityOf(data, rates, n).Success?
    ensures Balance(data, rates.effectivePeriodRate, AnnuityOf(data, rates, n).value, n + 1) == 0.0
  {
    var r := rates.effectivePeriodRate;
    var ng := n - GraceEntryCount(data.gracePeriod);
    var q := AnnuityOf(data, rates, n).value;
    assert r != 0.0 by {
      if r == 0.0 {
        ZeroRateAnnuityUndefined(data.comercialValue, ng);
      }
    }
    BalanceAtMaturity(data, r, q, n);
    ClosedFormAtMaturity(data.comercialValue, r, q, Pow(1.0 + r, ng as nat),
                         Balance(data, r, q, n + 1));
  }

  /// Coupon of period i: the period rate on the balance entering i.
  function CouponAt(data: BondInput, r: real, q: real, i: nat): real
    requires i >= 1
  {
    Balance(data, r, q, i) * r
  }

  /// Amortization of period i.
  function AmortizationAt(data: BondInput, r: real, q: real, i: nat): real
    requires i >= 1
  {
    PeriodAmortization(LabelAt(data.gracePeriod, i), CouponAt(data, r, q, i), q)
  }

  /// One period lowers the balance by that period's amortization.
  lemma BalanceStep(data: BondInput, r: real, q: real, i: nat)
    requires i >= 1
    ensures Balance(data, r, q, i + 1) == Balance(data, r, q, i) - AmortizationAt(data, r, q, i)
  {
  }

  /// Sum of the amortizations of periods 1..k.
  function AmortizedBy(data: BondInput, r: real, q: real, k: nat): real
  {
    if k == 0 then 0.0 else AmortizedBy(data, r, q, k - 1) + AmortizationAt(data, r, q, k)
  }

  /// Periods 1..k amortize exactly what the balance has fallen by.
  lemma {:induction false} AmortizedByTelescopes(data: BondInput, r: real, q: real, k: nat)
    ensures AmortizedBy(data, r, q, k) == data.comercialValue - Balance(data, r, q, k + 1)
  {
    if k > 0 {
      AmortizedByTelescopes(data, r, q, k - 1);
    }
  }

  /// Row i of an n-period schedule with annuity q, 1 <= i <= n.
  function RowAt(data: BondInput, rates: PeriodRates, q: real, n: nat, i: nat): Period
    requires 1 <= i <= n && rates.periodCOK > -1.0 && data.daysPerYear != 0.0
  {
    var r := rates.effectivePeriodRate;
    AssembleRow(i, DateOf(ForcedDateStep(), i), LabelAt(data.gracePeriod, i),
                Balance(data, r, q, i), CouponAt(data, r, q, i),
                PeriodQuota(LabelAt(data.gracePeriod, i), CouponAt(data, r, q, i), q),
                AmortizationAt(data, r, q, i),
                PremiumAt(data.applyPrimaIn, data.prima, data.comercialValue,
                          Balance(data, r, q, n), n, i),
                data.incomeTax, rates.periodCOK,
                FrequencyDays(ForcedFrequency), data.daysPerYear)
  }

  /// The emission row of the French schedule.
  function EmissionRowOf(data: BondInput): Period
  {
    var cv := data.comercialValue;
    EmissionRow(cv, EmitterShare(data.costs, cv), BondholderShare(data.costs, cv),
                DateOf(ForcedDateStep(), 0))
  }

  /// Rows 0..N of the French schedule with annuity q.
  function Schedule(data: BondInput, rates: PeriodRates, q: real): (rows: seq<Period>)
    requires WholePeriods(TotalPeriods(data)) && rates.periodCOK > -1.0
    ensures |rows| == PeriodCount(data) + 1
    ensures forall i :: 0 <= i < |rows| ==> rows[i].period == i
  {
    var n := PeriodCount(data);
    var row0 := EmissionRowOf(data);
    if n == 0 then [row0]
    else
      PeriodsNeedDays(data);
      [row0] + seq(n, k requires 0 <= k < n => RowAt(data, rates, q, n, k + 1))
  }

  /// Row i >= 1 of the schedule is RowAt(i).
  lemma ScheduleRow(data: BondInput, rates: PeriodRates, q: real, i: nat)
    requires WholePeriods(TotalPeriods(data)) && rates.periodCOK > -1.0
    requires 1 <= i <= PeriodCount(data)
    ensures data.daysPerYear != 0.0
    ensures Schedule(data, rates, q)[i] == RowAt(data, rates, q, PeriodCount(data), i)
  {
    PeriodsNeedDays(data);
  }

  /// A sequence that has the emission row first and RowAt(i) at every
  /// i in 1..N is the schedule.
  lemma ScheduleFromRows(data: BondInput, rates: PeriodRates, q: real, periods: seq<Period>)
    requires WholePeriods(TotalPeriods(data)) && rates.periodCOK > -1.0
    requires |periods| == PeriodCount(data) + 1 && periods[0] == EmissionRowOf(data)
    requires PeriodCount(data) >= 1 ==> data.daysPerYear != 0.0
    requires forall j :: 1 <= j < |periods| ==> periods[j] == RowAt(data, rates, q, PeriodCount(data), j)
    ensures periods == Schedule(data, rates, q)
  {
    var rows := Schedule(data, rates, q);
    forall j | 0 <= j < |rows| ensures periods[j] == rows[j] {
      if j > 0 {
        ScheduleRow(data, rates, q, j);
      }
    }
  }

  /// Row i carries its bondholder flow discounted over i periods.
  lemma RowDiscounted(data: BondInput, rates: PeriodRates, q: real, n: nat, i: nat)
    requires 1 <= i <= n && rates.periodCOK > -1.0 && data.daysPerYear != 0.0
    ensures DiscountedRow(RowAt(data, rates, q, n, i), rates.periodCOK)
  {
    var r := rates.effectivePeriodRate;
    AssembledRowDiscounting(i, DateOf(ForcedDateStep(), i), LabelAt(data.gracePeriod, i),
                            Balance(data, r, q, i), CouponAt(data, r, q, i),
                            PeriodQuota(LabelAt(data.gracePeriod, i), CouponAt(data, r, q, i), q),
                            AmortizationAt(data, r, q, i),
                            PremiumAt(data.applyPrimaIn, data.prima, data.comercialValue,
                                      Balance(data, r, q, n), n, i),
                            data.incomeTax, rates.periodCOK,
                            FrequencyDays(ForcedFrequency), data.daysPerYear);
  }

  /// Every row after the emission carries its discounted bondholder flow.
  lemma ScheduleDiscounted(data: BondInput, rates: PeriodRates, q: real)
    requires WholePeriods(TotalPeriods(data)) && rates.periodCOK > -1.0
    ensures Discounted(Schedule(data, rates, q)[1..], rates.periodCOK)
  {
    var rows := Schedule(data, rates, q);
    forall k | 1 <= k < |rows| ensures DiscountedRow(rows[k], rates.periodCOK) {
      ScheduleRow(data, rates, q, k);
      RowDiscounted(data, rates, q, PeriodCount(data), k);
    }
    DiscountedTail(rows, rates.periodCOK);
  }

  /// Periods before the last pay no premium: the bondholder receives
  /// exactly the quota.
  lemma PremiumOnlyAtMaturity(data: BondInput, rates: PeriodRates, q: real, n: nat, i: nat)
    requires 1 <= i < n && rates.periodCOK > -1.0 && data.daysPerYear != 0.0
    ensures RowAt(data, rates, q, n, i).premium == 0.0
    ensures RowAt(data, rates, q, n, i).bondholderFlow == -RowAt(data, rates, q, n, i).quota
  {
    PremiumColumns(data, rates, q, n, i);
  }

  /// The last period pays the premium: prima percent of the commercial
  /// value ("beginning") or of the balance entering the last period
  /// ("end"), which the bondholder receives on top of the quota.
  lemma MaturityPremium(data: BondInput, rates: PeriodRates, q: real, n: nat)
    requires 1 <= n && rates.periodCOK > -1.0 && data.daysPerYear != 0.0
    ensures var base := if data.applyPrimaIn == Beginning then data.comercialValue
                        else Balance(data, rates.effectivePeriodRate, q, n);
            var row := RowAt(data, rates, q, n, n);
            && row.premium == -PremiumOn(base, data.prima)
            && row.bondholderFlow == -row.quota + PremiumOn(base, data.prima)
  {
    PremiumColumns(data, rates, q, n, n);
  }

  /// The premium columns of row i, from those of an assembled row.
  lemma PremiumColumns(data: BondInput, rates: PeriodRates, q: real, n: nat, i: nat)
    requires 1 <= i <= n && rates.periodCOK > -1.0 && data.daysPerYear != 0.0
    ensures var r := rates.effectivePeriodRate;
            AssemblesWithPremium(RowAt(data, rates, q, n, i), i, n, data.applyPrimaIn, data.prima,
                                 data.comercialValue, Balance(data, r, q, n))
  {
    var r := rates.effectivePeriodRate;
    AssembledPremium(i, DateOf(ForcedDateStep(), i), LabelAt(data.gracePeriod, i),
                     Balance(data, r, q, i), CouponAt(data, r, q, i),
                     PeriodQuota(LabelAt(data.gracePeriod, i), CouponAt(data, r, q, i), q),
                     AmortizationAt(data, r, q, i),
                     data.applyPrimaIn, data.prima, data.comercialValue, Balance(data, r, q, n), n,
                     data.incomeTax, rates.periodCOK,
                     FrequencyDays(ForcedFrequency), data.daysPerYear);
  }

  /// Partial grace pays the coupon alone, total grace pays nothing (its
  /// coupon is computed and shown but not paid), a standard period pays the
  /// annuity; the balance moves only in standard periods.
  lemma PeriodRule(data: BondInput, rates: PeriodRates, q: real, n: nat, i: nat)
    requires 1 <= i <= n && rates.periodCOK > -1.0 && data.daysPerYear != 0.0
    ensures var row := RowAt(data, rates, q, n, i);
            var r := rates.effectivePeriodRate;
            var grace := LabelAt(data.gracePeriod, i);
            && row.bond == Balance(data, r, q, i)
            && row.coupon == -CouponAt(data, r, q, i)
            && (grace == T ==> row.quota == 0.0 && row.amortization == 0.0)
            && (grace == P ==> row.quota == row.coupon && row.amortization == 0.0)
            && (grace == S ==> row.quota == -q && row.amortization == row.quota - row.coupon)
            && (grace != S ==> Balance(data, r, q, i + 1) == Balance(data, r, q, i))
            && (grace == S ==> Balance(data, r, q, i + 1) == Balance(data, r, q, i) + row.amortization)
  {
    var r := rates.effectivePeriodRate;
    var grace := LabelAt(data.gracePeriod, i);
    var coupon := CouponAt(data, r, q, i);
    var row := RowAt(data, rates, q, n, i);
    assert row.quota == -PeriodQuota(grace, coupon, q);
    assert row.amortization == -AmortizationAt(data, r, q, i);
    BalanceStep(data, r, q, i);
  }

  /// The stored amortization column of periods 1..k sums to minus the
  /// amortization repaid by period k.
  lemma {:induction false} AmortizationColumn(data: BondInput, rates: PeriodRates, q: real, k: nat)
    requires WholePeriods(TotalPeriods(data)) && rates.periodCOK > -1.0
    requires k <= PeriodCount(data)
    ensures SumAmortization(Schedule(data, rates, q)[1..k + 1])
            == -AmortizedBy(data, rates.effectivePeriodRate, q, k)
  {
    var rows := Schedule(data, rates, q);
    if k > 0 {
      AmortizationColumn(data, rates, q, k - 1);
      assert rows[1..k + 1][..k - 1] == rows[1..k];
      ScheduleRow(data, rates, q, k);
    }
  }

  /// With valid grace entries, at least one standard period and a defined
  /// annuity, the stored amortizations of the French schedule sum to minus
  /// the commercial value.
  lemma FrenchFullRepayment(data: BondInput, rates: PeriodRates)
    requires WholePeriods(TotalPeriods(data)) && rates.periodCOK > -1.0
    requires ValidEntries(data.gracePeriod, PeriodCount(data))
    requires PeriodCount(data) - GraceEntryCount(data.gracePeriod) > 0
    requires AnnuityOf(data, rates, PeriodCount(data)).Success?
    ensures SumAmortization(Schedule(data, rates, AnnuityOf(data, rates, PeriodCount(data)).value)[1..])
            == -data.comercialValue
  {
    var n := PeriodCount(data);
    var q := AnnuityOf(data, rates, n).value;
    FrenchFinalBalanceZero(data, rates, n);
    AmortizedByTelescopes(data, rates.effectivePeriodRate, q, n);
    AmortizationColumn(data, rates, q, n);
    var rows := Schedule(data, rates, q);
    assert rows[1..n + 1] == rows[1..];
  }

  /// The coupon on the running balance is CouponAt(i).
  lemma CouponOfBalance(data: BondInput, r: real, q: real, i: nat, bond: real)
    requires i >= 1 && bond == Balance(data, r, q, i)
    ensures bond * r == CouponAt(data, r, q, i)
  {
  }

  /// The premium the loop charges in period N from its premium base.
  lemma PremiumOfBase(data: BondInput, r: real, q: real, n: nat, premiumBase: real)
    requires n >= 1
    requires premiumBase
             == if data.applyPrimaIn == Beginning then data.comercialValue else Balance(data, r, q, n)
    ensures premiumBase * data.prima / 100.0
            == PremiumAt(data.applyPrimaIn, data.prima, data.comercialValue,
                         Balance(data, r, q, n), n, n)
  {
  }

  /// The row the loop assembles for period i is RowAt(i).
  lemma LoopRowIsRowAt(data: BondInput, rates: PeriodRates, q: real, n: nat, i: nat,
                       grace: GraceLabel, bond: real, coupon: real, quota: real,
                       amortization: real, premium: real)
    requires 1 <= i <= n && rates.periodCOK > -1.0 && data.daysPerYear != 0.0
    requires grace == LabelAt(data.gracePeriod, i)
    requires bond == Balance(data, rates.effectivePeriodRate, q, i)
    requires coupon == CouponAt(data, rates.effectivePeriodRate, q, i)
    requires quota == PeriodQuota(grace, coupon, q)
    requires amortization == PeriodAmortization(grace, coupon, q)
    requires premium == PremiumAt(data.applyPrimaIn, data.prima, data.comercialValue,
                                  Balance(data, rates.effectivePeriodRate, q, n), n, i)
    ensures AssembleRow(i, DateOf(ForcedDateStep(), i), grace, bond,
                        coupon, quota, amortization, premium,
                        data.incomeTax, rates.periodCOK,
                        FrequencyDays(ForcedFrequency), data.daysPerYear)
            == RowAt(data, rates, q, n, i)
  {
  }

  /// Assembles period i from the balance entering it: its coupon, then the
  /// quota and amortization its grace kind calls for.
  method PeriodRow(data: BondInput, rates: PeriodRates, q: real, n: nat, i: nat,
                   gracePeriodType: GraceLabel, remainingBond: real, premiumAmount: real)
    returns (row: Period, amortization: real)
    requires 1 <= i <= n && rates.periodCOK > -1.0 && data.daysPerYear != 0.0
    requires gracePeriodType == LabelAt(data.gracePeriod, i)
    requires remainingBond == Balance(data, rates.effectivePeriodRate, q, i)
    requires premiumAmount
             == PremiumAt(data.applyPrimaIn, data.prima, data.comercialValue,
                          Balance(data, rates.effectivePeriodRate, q, n), n, i)
    ensures row == RowAt(data, rates, q, n, i)
    ensures amortization == AmortizationAt(data, rates.effectivePeriodRate, q, i)
  {
    var isTotalGrace := gracePeriodType == T;
    var isPartialGrace := gracePeriodType == P;
    var coupon := remainingBond * rates.effectivePeriodRate;
    CouponOfBalance(data, rates.effectivePeriodRate, q, i, remainingBond);
    var quota := 0.0;
    amortization := 0.0;
    if isTotalGrace {
      quota := 0.0;
      amortization := 0.0;
    } else if isPartialGrace {
      quota := coupon;
      amortization := 0.0;
    } else {
      quota := q;
      amortization := quota - coupon;
    }
    LoopRowIsRowAt(data, rates, q, n, i, gracePeriodType, remainingBond,
                   coupon, quota, amortization, premiumAmount);
    row := AssembleRow(i, DateOf(ForcedDateStep(), i), gracePeriodType,
                       remainingBond, coupon, quota, amortization, premiumAmount,
                       data.incomeTax, rates.periodCOK,
                       FrequencyDays(ForcedFrequency), data.daysPerYear);
  }

  /// Appends periods 1..N to the emission row; the running balance falls by
  /// each period's amortization and the premium is charged in period N.
  method AppendPeriods(data: BondInput, rates: PeriodRates, q: real, emission: Period)
    returns (periods: seq<Period>)
    requires WholePeriods(TotalPeriods(data)) && rates.periodCOK > -1.0
    requires emission == EmissionRowOf(data)
    ensures periods == Schedule(data, rates, q)
  {
    var comercialValue := data.comercialValue;
    var r := rates.effectivePeriodRate;
    var totalPeriods: nat := PeriodCount(data);
    var gracePeriodMap, nonGracePeriods := BuildGraceMap(data.gracePeriod, totalPeriods);

    var remainingBond := comercialValue;
    periods := [emission];
    var premiumBase := if data.applyPrimaIn == Beginning then comercialValue else 0.0;
    var lastPeriodInitialBond := 0.0;
    if totalPeriods >= 1 {
      PeriodsNeedDays(data);
    }

    var i := 1;
    while i <= totalPeriods
      invariant 1 <= i <= totalPeriods + 1
      invariant |periods| == i
      invariant periods[0] == EmissionRowOf(data)
      invariant forall j :: 1 <= j < i ==> periods[j] == RowAt(data, rates, q, totalPeriods, j)
      invariant remainingBond == Balance(data, r, q, i)
      invariant i <= totalPeriods ==> lastPeriodInitialBond == 0.0
      invariant data.applyPrimaIn == Beginning ==> premiumBase == comercialValue
      invariant data.applyPrimaIn == End && i <= totalPeriods ==> premiumBase == 0.0
    {
      var gracePeriodType := if i in gracePeriodMap then gracePeriodMap[i] else S;
      if i == totalPeriods {
        lastPeriodInitialBond := remainingBond;
      }
      var premiumAmount := 0.0;
      if i == totalPeriods {
        if data.applyPrimaIn == End {
          premiumBase := lastPeriodInitialBond;
        }
        PremiumOfBase(data, r, q, totalPeriods, premiumBase);
        premiumAmount := premiumBase * data.prima / 100.0;
      }
      var row, amortization := PeriodRow(data, rates, q, totalPeriods, i, gracePeriodType,
                                         remainingBond, premiumAmount);
      periods := periods + [row];
      BalanceStep(data, r, q, i);
      remainingBond := remainingBond - amortization;
      i := i + 1;
    }
    ScheduleFromRows(data, rates, q, periods);
  }

  /// Builds the French schedule and its summary. A nominal rate without a
  /// compounding frequency fails first; an annuity that divides by zero
  /// fails next.
  method CalculateFrenchMethod(data: BondInput, rates: PeriodRates)
    returns (res: Result<ScheduleResult>)
    requires WholePeriods(TotalPeriods(data)) && rates.periodCOK > -1.0
    ensures data.interestRateType == Nominal && data.compoundingFrequency.None? ==>
              res == Failure(MissingCompoundingFrequency)
    ensures !(data.interestRateType == Nominal && data.compoundingFrequency.None?) ==>
              (res.Failure? <==> AnnuityOf(data, rates, PeriodCount(data)).Failure?)
    ensures res.Failure? ==> res.error == MissingCompoundingFrequency || res.error == AnnuityUndefined
    ensures res.Success? ==>
              && AnnuityOf(data, rates, PeriodCount(data)).Success?
              && res.value.periods
                 == Schedule(data, rates, AnnuityOf(data, rates, PeriodCount(data)).value)
    ensures res.Success? ==>
              res.value.summary
              == Summarize(res.value.periods, rates, FrequencyDays(ForcedFrequency),
                           data.daysPerYear, PeriodsPerYear(ForcedFrequency, data.daysPerYear),
                           PeriodCount(data), EmitterShare(data.costs, data.comercialValue),
                           BondholderShare(data.costs, data.comercialValue))
    ensures res.Success? ==>
              res.value.summary.actualPrice == SumActualFlow(res.value.periods[1..])
  {
    var comercialValue := data.comercialValue;
    var periodsPerYear := PeriodsPerYear(ForcedFrequency, data.daysPerYear);
    var totalPeriods := PeriodCount(data);
    var frequencyDays := FrequencyDays(ForcedFrequency);
    if data.interestRateType == Nominal && data.compoundingFrequency.None? {
      return Failure(MissingCompoundingFrequency);
    }
    var nonGracePeriods := totalPeriods - GraceEntryCount(data.gracePeriod);
    var constantQuota := ConstantQuota(comercialValue, rates.effectivePeriodRate, nonGracePeriods);
    if constantQuota.Failure? {
      return Failure(constantQuota.error);
    }
    var emitterCosts, bondholderCosts := CalculateInitialCosts(data.costs, comercialValue);
    var emission := EmissionRow(comercialValue, emitterCosts, bondholderCosts,
                                DateOf(ForcedDateStep(), 0));
    var periods := AppendPeriods(data, rates, constantQuota.value, emission);
    ScheduleDiscounted(data, rates, constantQuota.value);
    var summary := Summarize(periods, rates, frequencyDays, data.daysPerYear, periodsPerYear,
                             totalPeriods, emitterCosts, bondholderCosts);
    PresentValueIsSumActualFlow(periods[1..], rates.periodCOK);
    return Success(ScheduleResult(periods, summary));
  }
}
