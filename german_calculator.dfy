/// The German (constant-amortization) calculator: the commercial value is
/// repaid in equal parts over the standard periods, grace periods (partial
/// or total) repay nothing and leave the balance unchanged, and the coupon is
/// paid on the balance entering every period, total grace included.
module GermanCalculator {
  import opened Enums
  import opened Grace
  import opened Costs
  import opened CashFlow

  /// Length of a payment period in days.
  function FrequencyDays(f: PaymentFrequency): (d: nat)
    ensures d > 0 && 360 % d == 0
  {
    match f
    case Daily => 1
    case Monthly => 30
    case Bimonthly => 60
    case Quarterly => 90
    case SemiAnnual => 180
    case Annual => 360
  }

  /// Number of payment periods in a year of `daysPerYear` days.
  function PeriodsPerYear(f: PaymentFrequency, daysPerYear: real): (p: real)
    ensures p * FrequencyDays(f) as real == daysPerYear
  {
    daysPerYear / FrequencyDays(f) as real
  }

  /// The payment calendar agrees with the day count: with 30-day months,
  /// the date of period i lies i period lengths after the emission.
  lemma CalendarMatchesDayCount(f: PaymentFrequency, i: nat)
    ensures DaysOf(DateOf(DateStep(f), i)) == i * FrequencyDays(f)
  {
  }

  function TotalPeriods(data: BondInput): real
  {
    data.years * PeriodsPerYear(data.paymentFrequency, data.daysPerYear)
  }

  /// The period count as a natural number.
  function PeriodCount(data: BondInput): nat
    requires WholePeriods(TotalPeriods(data))
  {
    TotalPeriods(data).Floor
  }

  /// A schedule with at least one period has a non-zero year length.
  lemma PeriodsNeedDays(data: BondInput)
    requires WholePeriods(TotalPeriods(data)) && PeriodCount(data) >= 1
    ensures data.daysPerYear != 0.0
  {
  }

  /// Periods left to amortize in: N minus one per partial/total entry.
  function NonGracePeriods(data: BondInput, n: nat): int
  {
    n - GraceEntryCount(data.gracePeriod)
  }

  /// Equal share of the commercial value per standard period (none when no
  /// standard period remains).
  function ConstantAmortization(comercialValue: real, nonGracePeriods: int): (a: real)
    ensures nonGracePeriods > 0 ==> a * nonGracePeriods as real == comercialValue
    ensures nonGracePeriods <= 0 ==> a == 0.0
  {
    if nonGracePeriods > 0 then comercialValue / nonGracePeriods as real else 0.0
  }

  /// Balance entering period i >= 1: the commercial value less one constant
  /// amortization per standard period before i.
  function Balance(data: BondInput, n: nat, i: nat): real
    requires i >= 1
  {
    data.comercialValue
    - Shares(ConstantAmortization(data.comercialValue, NonGracePeriods(data, n)),
             StandardCount(data.gracePeriod, i - 1))
  }

  /// One period moves the balance by that period's amortization: the
  /// constant amortization in a standard period, nothing in a grace period.
  lemma BalanceStep(data: BondInput, n: nat, i: nat)
    requires i >= 1
    ensures Balance(data, n, i + 1)
         == Balance(data, n, i)
            - (if LabelAt(data.gracePeriod, i) == S
               then ConstantAmortization(data.comercialValue, NonGracePeriods(data, n)) else 0.0)
  {
    var a := ConstantAmortization(data.comercialValue, NonGracePeriods(data, n));
    var c := StandardCount(data.gracePeriod, i - 1) as real;
    assert StandardCount(data.gracePeriod, i) as real
        == c + (if LabelAt(data.gracePeriod, i) == S then 1.0 else 0.0);
    assert a * (c + 1.0) == a * c + a;
  }

  /// Coupon of period i: the effective period rate on the balance entering i.
  function CouponAt(data: BondInput, rates: PeriodRates, n: nat, i: nat): real
    requires i >= 1
  {
    Balance(data, n, i) * rates.effectivePeriodRate
  }

  /// Amortization of period i: the constant amortization in a standard
  /// period, nothing in a partial or total grace period.
  function AmortizationAt(data: BondInput, n: nat, i: nat): real
  {
    if LabelAt(data.gracePeriod, i) == S
    then ConstantAmortization(data.comercialValue, NonGracePeriods(data, n))
    else 0.0
  }

  /// Row i of an n-period schedule, 1 <= i <= n.
  function RowAt(data: BondInput, rates: PeriodRates, n: nat, i: nat): Period
    requires 1 <= i <= n && rates.periodCOK > -1.0 && data.daysPerYear != 0.0
  {
    AssembleRow(i, DateOf(DateStep(data.paymentFrequency), i), LabelAt(data.gracePeriod, i),
                Balance(data, n, i), CouponAt(data, rates, n, i),
                CouponAt(data, rates, n, i) + AmortizationAt(data, n, i),
                AmortizationAt(data, n, i),
                PremiumAt(data.applyPrimaIn, data.prima, data.comercialValue,
                          Balance(data, n, n), n, i),
                data.incomeTax, rates.periodCOK,
                FrequencyDays(data.paymentFrequency), data.daysPerYear)
  }

  /// The emission row of the German schedule.
  function EmissionRowOf(data: BondInput): Period
  {
    var cv := data.comercialValue;
    EmissionRow(cv, EmitterShare(data.costs, cv), BondholderShare(data.costs, cv),
                DateOf(DateStep(data.paymentFrequency), 0))
  }

  /// Rows 0..N of the German schedule.
  function Schedule(data: BondInput, rates: PeriodRates): (rows: seq<Period>)
    requires WholePeriods(TotalPeriods(data)) && rates.periodCOK > -1.0
    ensures |rows| == PeriodCount(data) + 1
    ensures forall i :: 0 <= i < |rows| ==> rows[i].period == i
  {
    var n := PeriodCount(data);
    var row0 := EmissionRowOf(data);
    if n == 0 then [row0]
    else
      PeriodsNeedDays(data);
      [row0] + seq(n, k requires 0 <= k < n => RowAt(data, rates, n, k + 1))
  }

  /// Row i >= 1 of the schedule is RowAt(i).
  lemma ScheduleRow(data: BondInput, rates: PeriodRates, i: nat)
    requires WholePeriods(TotalPeriods(data)) && rates.periodCOK > -1.0
    requires 1 <= i <= PeriodCount(data)
    ensures data.daysPerYear != 0.0
    ensures Schedule(data, rates)[i] == RowAt(data, rates, PeriodCount(data), i)
  {
    PeriodsNeedDays(data);
  }

  /// A sequence that has the emission row first and RowAt(i) at every
  /// i in 1..N is the schedule.
  lemma ScheduleFromRows(data: BondInput, rates: PeriodRates, periods: seq<Period>)
    requires WholePeriods(TotalPeriods(data)) && rates.periodCOK > -1.0
    requires |periods| == PeriodCount(data) + 1 && periods[0] == EmissionRowOf(data)
    requires PeriodCount(data) >= 1 ==> data.daysPerYear != 0.0
    requires forall j :: 1 <= j < |periods| ==> periods[j] == RowAt(data, rates, PeriodCount(data), j)
    ensures periods == Schedule(data, rates)
  {
    var rows := Schedule(data, rates);
    forall j | 0 <= j < |rows| ensures periods[j] == rows[j] {
      if j > 0 {
        ScheduleRow(data, rates, j);
      }
    }
  }

  /// The row the loop assembles for period i is RowAt(i), given the balance
  /// entering i and the coupon, amortization, quota and premium of i.
  lemma LoopRowIsRowAt(data: BondInput, rates: PeriodRates, n: nat, i: nat,
                       grace: GraceLabel, bond: real, coupon: real, quota: real,
                       amortization: real, premium: real)
    requires 1 <= i <= n && rates.periodCOK > -1.0 && data.daysPerYear != 0.0
    requires grace == LabelAt(data.gracePeriod, i) && bond == Balance(data, n, i)
    requires coupon == CouponAt(data, rates, n, i) && amortization == AmortizationAt(data, n, i)
    requires quota == coupon + amortization
    requires premium == PremiumAt(data.applyPrimaIn, data.prima, data.comercialValue,
                                  Balance(data, n, n), n, i)
    ensures AssembleRow(i, DateOf(DateStep(data.paymentFrequency), i), grace, bond,
                        coupon, quota, amortization, premium,
                        data.incomeTax, rates.periodCOK,
                        FrequencyDays(data.paymentFrequency), data.daysPerYear)
            == RowAt(data, rates, n, i)
  {
  }

  /// The coupon on the running balance is CouponAt(i).
  lemma CouponOfBalance(data: BondInput, rates: PeriodRates, n: nat, i: nat, bond: real)
    requires i >= 1 && bond == Balance(data, n, i)
    ensures bond * rates.effectivePeriodRate == CouponAt(data, rates, n, i)
  {
  }

  /// The premium the loop charges in period N from its premium base.
  lemma PremiumOfBase(data: BondInput, n: nat, premiumBase: real)
    requires n >= 1
    requires premiumBase
             == if data.applyPrimaIn == Beginning then data.comercialValue else Balance(data, n, n)
    ensures premiumBase * data.prima / 100.0
            == PremiumAt(data.applyPrimaIn, data.prima, data.comercialValue, Balance(data, n, n), n, n)
  {
  }

  /// Row i carries its bondholder flow discounted over i periods.
  lemma RowDiscounted(data: BondInput, rates: PeriodRates, n: nat, i: nat)
    requires 1 <= i <= n && rates.periodCOK > -1.0 && data.daysPerYear != 0.0
    ensures DiscountedRow(RowAt(data, rates, n, i), rates.periodCOK)
  {
    AssembledRowDiscounting(i, DateOf(DateStep(data.paymentFrequency), i),
                            LabelAt(data.gracePeriod, i),
                            Balance(data, n, i), CouponAt(data, rates, n, i),
                            CouponAt(data, rates, n, i) + AmortizationAt(data, n, i),
                            AmortizationAt(data, n, i),
                            PremiumAt(data.applyPrimaIn, data.prima, data.comercialValue,
                                      Balance(data, n, n), n, i),
                            data.incomeTax, rates.periodCOK,
                            FrequencyDays(data.paymentFrequency), data.daysPerYear);
  }

  /// Every row after the emission carries its discounted bondholder flow.
  lemma ScheduleDiscounted(data: BondInput, rates: PeriodRates)
    requires WholePeriods(TotalPeriods(data)) && rates.periodCOK > -1.0
    ensures Discounted(Schedule(data, rates)[1..], rates.periodCOK)
  {
    var rows := Schedule(data, rates);
    forall k | 1 <= k < |rows| ensures DiscountedRow(rows[k], rates.periodCOK) {
      ScheduleRow(data, rates, k);
      RowDiscounted(data, rates, PeriodCount(data), k);
    }
    DiscountedTail(rows, rates.periodCOK);
  }

  /// Assembles period i from the balance entering it: the coupon on that
  /// balance, the constant amortization unless i is a grace period, and the
  /// quota as their sum.
  method PeriodRow(data: BondInput, rates: PeriodRates, n: nat, i: nat, gracePeriodType: GraceLabel,
                   remainingBond: real, constantAmortization: real, premiumAmount: real)
    returns (row: Period, amortization: real)
    requires 1 <= i <= n && rates.periodCOK > -1.0 && data.daysPerYear != 0.0
    requires gracePeriodType == LabelAt(data.gracePeriod, i)
    requires remainingBond == Balance(data, n, i)
    requires constantAmortization == ConstantAmortization(data.comercialValue, NonGracePeriods(data, n))
    requires premiumAmount
             == PremiumAt(data.applyPrimaIn, data.prima, data.comercialValue, Balance(data, n, n), n, i)
    ensures row == RowAt(data, rates, n, i)
    ensures amortization == AmortizationAt(data, n, i)
  {
    var hasGracePeriod := gracePeriodType == T || gracePeriodType == P;
    var coupon := remainingBond * rates.effectivePeriodRate;
    amortization := if hasGracePeriod then 0.0 else constantAmortization;
    var quota := coupon + amortization;
    CouponOfBalance(data, rates, n, i, remainingBond);
    LoopRowIsRowAt(data, rates, n, i, gracePeriodType, remainingBond,
                   coupon, quota, amortization, premiumAmount);
    row := AssembleRow(i, DateOf(DateStep(data.paymentFrequency), i), gracePeriodType,
                       remainingBond, coupon, quota, amortization, premiumAmount,
                       data.incomeTax, rates.periodCOK,
                       FrequencyDays(data.paymentFrequency), data.daysPerYear);
  }

  /// Appends periods 1..N to the emission row: the grace map decides each
  /// period's kind, the running balance falls by the constant amortization in
  /// standard periods only, and the premium is charged in period N.
  method AppendPeriods(data: BondInput, rates: PeriodRates, emission: Period)
    returns (periods: seq<Period>)
    requires WholePeriods(TotalPeriods(data)) && rates.periodCOK > -1.0
    requires emission == EmissionRowOf(data)
    ensures periods == Schedule(data, rates)
  {
    var comercialValue := data.comercialValue;
    var totalPeriods: nat := PeriodCount(data);

    var gracePeriodMap, nonGracePeriods := BuildGraceMap(data.gracePeriod, totalPeriods);
    var constantAmortization :=
      if nonGracePeriods > 0 then comercialValue / nonGracePeriods as real else 0.0;

    var remainingBond := comercialValue;
    periods := [emission];
    var premiumBase := if data.applyPrimaIn == Beginning then comercialValue else 0.0;
    var lastPeriodInitialBond := 0.0;
    if totalPeriods >= 1 {
      PeriodsNeedDays(data);
    }

    var i := 1;
    while i <= totalPeriods
      invariant 1 <= i <= totalPeriods + 1
      invariant |periods| == i
      invariant periods[0] == EmissionRowOf(data)
      invariant forall j :: 1 <= j < i ==> periods[j] == RowAt(data, rates, totalPeriods, j)
      invariant remainingBond == Balance(data, totalPeriods, i)
      invariant i <= totalPeriods ==> lastPeriodInitialBond == 0.0
      invariant data.applyPrimaIn == Beginning ==> premiumBase == comercialValue
      invariant data.applyPrimaIn == End && i <= totalPeriods ==> premiumBase == 0.0
    {
      var gracePeriodType := if i in gracePeriodMap then gracePeriodMap[i] else S;
      var hasGracePeriod := gracePeriodType == T || gracePeriodType == P;
      if i == totalPeriods {
        lastPeriodInitialBond := remainingBond;
      }
      var premiumAmount := 0.0;
      if i == totalPeriods {
        if data.applyPrimaIn == End {
          premiumBase := lastPeriodInitialBond;
        }
        PremiumOfBase(data, totalPeriods, premiumBase);
        premiumAmount := premiumBase * data.prima / 100.0;
      }
      var row, amortization := PeriodRow(data, rates, totalPeriods, i, gracePeriodType,
                                         remainingBond, constantAmortization, premiumAmount);
      periods := periods + [row];
      BalanceStep(data, totalPeriods, i);
      if !hasGracePeriod {
        remainingBond := remainingBond - amortization;
      }
      i := i + 1;
    }
    ScheduleFromRows(data, rates, periods);
  }

  /// Builds the German schedule and its summary. A nominal rate without a
  /// compounding frequency fails before any row is built.
  method CalculateGermanMethod(data: BondInput, rates: PeriodRates)
    returns (res: Result<ScheduleResult>)
    requires WholePeriods(TotalPeriods(data)) && rates.periodCOK > -1.0
    ensures res.Failure? <==> data.interestRateType == Nominal && data.compoundingFrequency.None?
    ensures res.Failure? ==> res.error == MissingCompoundingFrequency
    ensures res.Success? ==> res.value.periods == Schedule(data, rates)
    ensures res.Success? ==>
              res.value.summary
              == Summarize(res.value.periods, rates, FrequencyDays(data.paymentFrequency),
                           data.daysPerYear, PeriodsPerYear(data.paymentFrequency, data.daysPerYear),
                           PeriodCount(data), EmitterShare(data.costs, data.comercialValue),
                           BondholderShare(data.costs, data.comercialValue))
    ensures res.Success? ==>
              res.value.summary.actualPrice == SumActualFlow(res.value.periods[1..])
  {
    var comercialValue := data.comercialValue;
    var periodsPerYear := PeriodsPerYear(data.paymentFrequency, data.daysPerYear);
    var totalPeriods := PeriodCount(data);
    var frequencyDays := FrequencyDays(data.paymentFrequency);
    if data.interestRateType == Nominal && data.compoundingFrequency.None? {
      return Failure(MissingCompoundingFrequency);
    }
    var emitterCosts, bondholderCosts := CalculateInitialCosts(data.costs, comercialValue);
    var emission := EmissionRow(comercialValue, emitterCosts, bondholderCosts,
                                DateOf(DateStep(data.paymentFrequency), 0));
    var periods := AppendPeriods(data, rates, emission);
    ScheduleDiscounted(data, rates);
    var summary := Summarize(periods, rates, frequencyDays, data.daysPerYear, periodsPerYear,
                             totalPeriods, emitterCosts, bondholderCosts);
    PresentValueIsSumActualFlow(periods[1..], rates.periodCOK);
    return Success(ScheduleResult(periods, summary));
  }

  /// Grace periods repay nothing: the quota is the coupon alone (a total
  /// grace period still pays its coupon) and the balance is carried over
  /// unchanged; a standard period repays the constant amortization on top of
  /// the coupon and lowers the balance by it.
  lemma PeriodRule(data: BondInput, rates: PeriodRates, n: nat, i: nat)
    requires 1 <= i <= n && rates.periodCOK > -1.0 && data.daysPerYear != 0.0
    ensures var row := RowAt(data, rates, n, i);
            var a := ConstantAmortization(data.comercialValue, NonGracePeriods(data, n));
            && row.bond == Balance(data, n, i)
            && row.coupon == -CouponAt(data, rates, n, i)
            && (LabelAt(data.gracePeriod, i) != S ==>
                  row.amortization == 0.0 && row.quota == row.coupon
                  && Balance(data, n, i + 1) == Balance(data, n, i))
            && (LabelAt(data.gracePeriod, i) == S ==>
                  row.amortization == -a && row.quota == row.coupon - a
                  && Balance(data, n, i + 1) == Balance(data, n, i) - a)
  {
    BalanceStep(data, n, i);
  }

  /// The premium is charged in the last period only.
  lemma PremiumOnlyAtMaturity(data: BondInput, rates: PeriodRates, n: nat, i: nat)
    requires 1 <= i < n && rates.periodCOK > -1.0 && data.daysPerYear != 0.0
    ensures RowAt(data, rates, n, i).premium == 0.0
    ensures RowAt(data, rates, n, i).bondholderFlow == -RowAt(data, rates, n, i).quota
  {
  }

  /// The last period pays the premium: prima percent of the commercial
  /// value ("beginning") or of the balance entering the last period ("end"),
  /// which the bondholder receives on top of the quota.
  lemma MaturityPremium(data: BondInput, rates: PeriodRates, n: nat)
    requires 1 <= n && rates.periodCOK > -1.0 && data.daysPerYear != 0.0
    ensures var base := if data.applyPrimaIn == Beginning then data.comercialValue
                        else Balance(data, n, n);
            var row := RowAt(data, rates, n, n);
            && row.premium == -PremiumOn(base, data.prima)
            && row.bondholderFlow == -row.quota + PremiumOn(base, data.prima)
  {
    AssembledPremium(n, DateOf(DateStep(data.paymentFrequency), n), LabelAt(data.gracePeriod, n),
                     Balance(data, n, n), CouponAt(data, rates, n, n),
                     CouponAt(data, rates, n, n) + AmortizationAt(data, n, n),
                     AmortizationAt(data, n, n),
                     data.applyPrimaIn, data.prima, data.comercialValue, Balance(data, n, n), n,
                     data.incomeTax, rates.periodCOK,
                     FrequencyDays(data.paymentFrequency), data.daysPerYear);
  }

  /// Sum of the amortizations of periods 1..k.
  function AmortizedBy(data: BondInput, n: nat, k: nat): real
  {
    if k == 0 then 0.0 else AmortizedBy(data, n, k - 1) + AmortizationAt(data, n, k)
  }

  /// Periods 1..k repay one constant amortization per standard period, and
  /// the balance entering k+1 is what is left.
  lemma AmortizedByStandardPeriods(data: BondInput, n: nat, k: nat)
    ensures AmortizedBy(data, n, k)
            == ConstantAmortization(data.comercialValue, NonGracePeriods(data, n))
               * StandardCount(data.gracePeriod, k) as real
    ensures Balance(data, n, k + 1) == data.comercialValue - AmortizedBy(data, n, k)
  {
    var a := ConstantAmortization(data.comercialValue, NonGracePeriods(data, n));
    var c := StandardCount(data.gracePeriod, k);
    StandardShares(data, n, k);
    assert Balance(data, n, k + 1) == data.comercialValue - Shares(a, c);
  }

  /// The inductive half of AmortizedByStandardPeriods.
  lemma {:induction false} StandardShares(data: BondInput, n: nat, k: nat)
    ensures AmortizedBy(data, n, k)
            == Shares(ConstantAmortization(data.comercialValue, NonGracePeriods(data, n)),
                      StandardCount(data.gracePeriod, k))
  {
    if k > 0 {
      StandardShares(data, n, k - 1);
      var a := ConstantAmortization(data.comercialValue, NonGracePeriods(data, n));
      var c := StandardCount(data.gracePeriod, k - 1);
      var standard := LabelAt(data.gracePeriod, k) == S;
      assert StandardCount(data.gracePeriod, k) == if standard then c + 1 else c;
      OneMoreShare(a, c, AmortizedBy(data, n, k - 1), AmortizationAt(data, n, k), standard);
    }
  }

  /// The stored amortization column of periods 1..k sums to minus the
  /// amortization repaid by period k.
  lemma {:induction false} AmortizationColumn(data: BondInput, rates: PeriodRates, k: nat)
    requires WholePeriods(TotalPeriods(data)) && rates.periodCOK > -1.0
    requires k <= PeriodCount(data)
    ensures SumAmortization(Schedule(data, rates)[1..k + 1]) == -AmortizedBy(data, PeriodCount(data), k)
  {
    var rows := Schedule(data, rates);
    if k > 0 {
      AmortizationColumn(data, rates, k - 1);
      assert rows[1..k + 1][..k - 1] == rows[1..k];
      ScheduleRow(data, rates, k);
    }
  }

  /// With valid grace entries and at least one standard period, the German
  /// schedule repays the commercial value exactly: the balance after period
  /// N is zero and the stored amortizations sum to minus the commercial value.
  lemma GermanFullRepayment(data: BondInput, rates: PeriodRates)
    requires WholePeriods(TotalPeriods(data)) && rates.periodCOK > -1.0
    requires ValidEntries(data.gracePeriod, PeriodCount(data))
    requires NonGracePeriods(data, PeriodCount(data)) > 0
    ensures SumAmortization(Schedule(data, rates)[1..]) == -data.comercialValue
  {
    var n := PeriodCount(data);
    FinalBalanceZero(data, n);
    AmortizationColumn(data, rates, n);
    var rows := Schedule(data, rates);
    assert rows[1..n + 1] == rows[1..];
  }

  /// The balance after the last period is zero when at least one standard
  /// period exists and the entries are valid.
  lemma FinalBalanceZero(data: BondInput, n: nat)
    requires ValidEntries(data.gracePeriod, n) && NonGracePeriods(data, n) > 0
    ensures Balance(data, n, n + 1) == 0.0
    ensures AmortizedBy(data, n, n) == data.comercialValue
  {
    var ng := NonGracePeriods(data, n);
    var a := ConstantAmortization(data.comercialValue, ng);
    GraceCountMatches(data.gracePeriod, n);
    assert StandardCount(data.gracePeriod, n) == ng;
    assert a * ng as real == data.comercialValue;
    AmortizedByStandardPeriods(data, n, n);
  }
}
