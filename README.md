# Bond cash-flow calculators (finecorp) in Dafny

finecorp is a web application that issues bonds and prints their cash
flows. A bond record gives these inputs:
- the commercial and nominal values;
- the coupon rate, either nominal or effective;
- the payment frequency and the number of years;
- a premium ("prima") and the income tax;
- four issuance costs (structuration, colocation, flotation and CAVALI), each borne by the
  emitter, the bondholder or both;
- a list of grace periods, each partial (only interest is paid) or total (nothing is paid).

From these the calculators build a period-by-period schedule. Each row holds the balance
("bond"), the coupon, the quota or installment, the amortization, the premium, the tax shield,
the three flow series (emitter, emitter with shield, bondholder) and the discounted columns.
A summary follows: present value ("actual price"), utility, duration, modified duration and
convexity.

This project models four parts of the repository.

* **German calculator** (`src/lib/german-method-calculator.ts`, module
  `GermanCalculator`, with the shared modules `Grace`, `Costs` and `CashFlow`). The
  amortization is constant. The commercial value is split evenly over the periods that have
  no grace. Period 0 is the emission row.
* **French method** (`src/lib/french-method.ts`, module `FrenchMethod`). The quota is a
  constant annuity over the periods without grace. The payment frequency is forced to the
  120-day "cuatrimestral" period.
* **Older German schedule** (`src/lib/german-method.ts`, module `GermanSchedule`). This is a
  separate, earlier schedule builder:
  - frequencies are looked up in a string table;
  - the period count is a floor;
  - the first matching grace entry wins;
  - the amortization is nominal divided by all periods;
  - costs and premium enter period 1 only.
* **Dashboard breadcrumbs** (`src/components/header-sidebar-content.tsx`, module
  `Breadcrumbs`). A URL path is split into segments. "dashboard" and empty segments are dropped.
  Each remaining segment gets a Spanish or title-cased name and the path up to it.

The two effective period rates are parameters of the model (`CashFlow.PeriodRates`): the
coupon rate per period and the opportunity cost (COK) per period. The source derives them
with fractional powers. Every calculator method is proved equal to a specification function
(`Schedule`, `Breadcrumbs`). The lemmas state what those functions mean:
- how a grace period changes a row;
- that the amortization column adds up to the full value;
- that the balance reaches zero at maturity;
- that the present value equals the sum of the discounted flows;
- that the breadcrumb paths chain and the split and join functions invert each other.

## Model

| member | source | states |
|---|---|---|
| Grace.GraceEntryCount | src/lib/german-method-calculator.ts:281-289 | the number of partial/total entries never exceeds the number of entries |
| Grace.GraceLabelCount | src/lib/german-method-calculator.ts:291-298 | among periods 1..k, the grace periods and the standard periods together number k |
| Grace.LabelAtUnnamed | src/lib/german-method-calculator.ts:291-298 | a period that no entry names is a standard ('S') period |
| Grace.GraceCountMatches | src/lib/german-method-calculator.ts:277-298 | with entries that name distinct periods in 1..N, the grace periods in 1..N are exactly the partial/total entries, and the standard periods number N minus that count |
| Grace.NoEntriesNoGrace | src/lib/german-method-calculator.ts:277-298 | without entries no period is a grace period |
| Grace.BuildGraceMap | src/lib/german-method-calculator.ts:277-298 | the map covers periods 1..N plus every named period; each period maps to the label of its last entry, 'S' when unnamed; the non-grace count is N minus the partial/total entries |
| Costs.CalculateInitialCosts | src/lib/german-method-calculator.ts:194-240 | each share is the sum of the cost percentages assigned to that party (or to both) times the commercial value; the two shares add up to the total plus the costs charged to both |
| Costs.SplitConservesTotalWithoutBoth | src/lib/german-method-calculator.ts:194-240 | with positive costs, the shares add up to exactly the total cost if and only if no cost is assigned to both parties |
| CashFlow.EmissionRow | src/lib/german-method-calculator.ts:317-331 | the period-0 row carries no period figures (bond, coupon, quota, amortization, premium, shield, discounted flow and duration/convexity factors are all 0); the emitter receives the commercial value less its costs, with or without shield, and the bondholder pays the commercial value plus its costs, so the two flows add up to minus all initial costs |
| CashFlow.AssembleRow | src/lib/german-method-calculator.ts:371-406 | the row stores coupon, quota, amortization and premium as outflows; the bondholder receives quota plus premium; the emitter's flow is the negation; the shield is added to the emitter flow |
| CashFlow.AssembledRowDiscounting | src/lib/german-method-calculator.ts:370-388 | the shield is coupon times tax over 100; the actual flow times (1+COK)^i is the bondholder flow; the duration and convexity factors weight it by the period's time and by i(i+1) |
| CashFlow.PresentValueIsSumActualFlow | src/lib/german-method-calculator.ts:419-428 | the actual price (bondholder flows discounted at the period COK) equals the sum of the actual-flow column |
| CashFlow.PresentValueFallsAsRateRises | src/lib/german-method-calculator.ts:424-428 | with non-negative bondholder flows, a higher opportunity rate never raises the actual price |
| CashFlow.Summarize | src/lib/german-method-calculator.ts:418-443 | utility is the period-0 bondholder flow plus the actual price; duration exists exactly when the actual flows do not sum to zero, and then times that sum gives the duration-factor sum; modified duration times (1+COK) is the duration; convexity exists exactly when (1+COK)²·(sum of actual flows)·(days per year / period days)² is non-zero, and then times it gives the convexity-factor sum; total exists exactly when duration and convexity do and is their sum |
| CashFlow.ConvexityDefinedWithDuration | src/lib/german-method-calculator.ts:430-440 | with a COK above -1 and a non-zero year length, the convexity divisor is non-zero exactly when the actual flows do not sum to zero, so convexity is defined exactly when duration is |
| GermanCalculator.FrequencyDays | src/lib/german-method-calculator.ts:64-74 | every payment frequency has a positive day count that divides the 360-day year |
| GermanCalculator.PeriodsPerYear | src/lib/german-method-calculator.ts:79-82 | periods per year times days per period is the length of the year |
| GermanCalculator.CalendarMatchesDayCount | src/lib/german-method-calculator.ts:152-190 | counting a month as 30 days, the date of period i lies i period lengths (the day table's days) after the emission, for every frequency and every i |
| GermanCalculator.ConstantAmortization | src/lib/german-method-calculator.ts:301 | the constant amortization times the number of non-grace periods is the commercial value; with no such period it is 0 |
| GermanCalculator.BalanceStep | src/lib/german-method-calculator.ts:412-414 | the balance falls by the constant amortization after a standard period and is unchanged after a grace period |
| GermanCalculator.Schedule | src/lib/german-method-calculator.ts:303-416 | the schedule has one row per period 0..N, and row i carries period number i |
| GermanCalculator.ScheduleDiscounted | src/lib/german-method-calculator.ts:379-388 | every row after the emission discounts its bondholder flow at (1+COK)^period |
| GermanCalculator.PeriodRule | src/lib/german-method-calculator.ts:342-414 | in a grace period the amortization is 0, the quota is the coupon and the balance is unchanged; in a standard period the quota is coupon plus the constant amortization and the balance falls by it; the coupon is the balance times the period rate |
| GermanCalculator.PremiumOnlyAtMaturity | src/lib/german-method-calculator.ts:361-376 | before the last period the premium is 0 and the bondholder receives exactly the quota |
| GermanCalculator.MaturityPremium | src/lib/german-method-calculator.ts:334-368 | the last period pays the premium: prima percent of the commercial value ("beginning") or of the balance entering the last period ("end"), and the bondholder receives it on top of the quota |
| GermanCalculator.AmortizedByStandardPeriods | src/lib/german-method-calculator.ts:301-414 | the amortization paid through period k is the constant share times the standard periods among 1..k, and the balance after k is the commercial value minus it |
| GermanCalculator.AmortizationColumn | src/lib/german-method-calculator.ts:355-406 | the amortization column through period k sums to minus the amount amortized through k |
| GermanCalculator.GermanFullRepayment | src/lib/german-method-calculator.ts:277-416 | with distinct in-range grace entries and at least one standard period, the amortization column sums to the whole commercial value |
| GermanCalculator.FinalBalanceZero | src/lib/german-method-calculator.ts:277-416 | under the same conditions the balance after the last period is zero |
| GermanCalculator.PeriodRow | src/lib/german-method-calculator.ts:343-414 | one loop iteration builds exactly the specified row i and the amount the balance falls by |
| GermanCalculator.AppendPeriods | src/lib/german-method-calculator.ts:303-416 | the loop produces exactly the specified schedule |
| GermanCalculator.CalculateGermanMethod | src/lib/german-method-calculator.ts:245-494 | fails exactly for a nominal rate without a compounding frequency; otherwise returns the specified schedule and its summary, whose actual price is the sum of the actual flows |
| FrenchMethod.FrequencyDays | src/lib/french-method.ts:64-74 | every frequency has a positive day count dividing 360 |
| FrenchMethod.DayTablesDifferOnlyAtQuarterly | src/lib/french-method.ts:64-74 | the French table differs from the German one only at quarterly, where it is 120 days instead of 90 |
| FrenchMethod.PeriodsPerYear | src/lib/french-method.ts:76-79 | periods per year times days per period is the length of the year |
| FrenchMethod.AsWrittenDatesFallBehind | src/lib/french-method.ts:124-144 | the quarterly dates step 3 months while each forced period accrues 120 days, so date i falls behind the accrued days; period 3 is dated 9 months out |
| FrenchMethod.ForcedDatesMatchPeriods | src/lib/french-method.ts:194-198 | with a 4-month step, date i lies exactly i periods of 120 days after emission |
| FrenchMethod.ConstantQuota | src/lib/french-method.ts:235-244 | with n > 0 standard periods the quota q solves q((1+r)^n - 1) = V r (1+r)^n, failing exactly when (1+r)^n = 1; with none it is 0 |
| FrenchMethod.ZeroRateAnnuityUndefined | src/lib/french-method.ts:235-244 | at a zero period rate the annuity is undefined |
| FrenchMethod.ClosedFormStep | src/lib/french-method.ts:289-358 | one standard period keeps the annuity identity between the balance and the compounded value |
| FrenchMethod.BalanceClosedForm | src/lib/french-method.ts:281-358 | after any number of periods the balance satisfies the annuity identity for the standard periods elapsed |
| FrenchMethod.ClosedFormAtMaturity | src/lib/french-method.ts:235-244 | when the quota solves the annuity equation at a non-zero rate, the identity forces a zero balance |
| FrenchMethod.FrenchFinalBalanceZero | src/lib/french-method.ts:218-358 | with distinct in-range grace entries and a defined annuity, the balance after the last period is zero |
| FrenchMethod.BalanceStep | src/lib/french-method.ts:358 | each period lowers the balance by that period's amortization |
| FrenchMethod.AmortizedByTelescopes | src/lib/french-method.ts:281-358 | the amortization paid through period k is the commercial value minus the balance after k |
| FrenchMethod.Schedule | src/lib/french-method.ts:246-359 | one row per period 0..N, row i carrying period number i |
| FrenchMethod.ScheduleDiscounted | src/lib/french-method.ts:281-359 | every row after the emission discounts its bondholder flow at (1+COK)^period |
| FrenchMethod.PeriodRule | src/lib/french-method.ts:281-358 | total grace: no quota, no amortization; partial: quota is the coupon; standard: quota is the annuity and amortization is quota minus coupon; the balance changes only in standard periods |
| FrenchMethod.PremiumOnlyAtMaturity | src/lib/french-method.ts:311-318 | before the last period the premium is 0 and the bondholder receives exactly the quota |
| FrenchMethod.MaturityPremium | src/lib/french-method.ts:273-318 | the last period pays the premium: prima percent of the commercial value ("beginning") or of the balance entering the last period ("end"), and the bondholder receives it on top of the quota |
| FrenchMethod.AmortizationColumn | src/lib/french-method.ts:281-359 | the amortization column through period k sums to minus the amount amortized through k |
| FrenchMethod.FrenchFullRepayment | src/lib/french-method.ts:218-359 | with distinct in-range grace entries and a defined annuity, the amortization column sums to the whole commercial value |
| FrenchMethod.PeriodRow | src/lib/french-method.ts:281-358 | one loop iteration builds exactly the specified row i and its amortization |
| FrenchMethod.AppendPeriods | src/lib/french-method.ts:246-359 | the loop produces exactly the specified schedule |
| FrenchMethod.CalculateFrenchMethod | src/lib/french-method.ts:186-428 | a nominal rate without compounding frequency fails first; otherwise it fails exactly when the annuity is undefined, and else returns the specified schedule and summary, whose actual price is the sum of the actual flows |
| GermanSchedule.DaysFromFrequency | src/lib/german-method.ts:55-67 | every frequency string the model reads gets a positive day count (names inherited from the object prototype excepted, see Left out) |
| GermanSchedule.DayTableAgreesWithCalculator | src/lib/german-method.ts:55-67 | the string table agrees with the newer calculator on every enum frequency, adds biweekly (15 days), and reads a string missing from the table as monthly |
| GermanSchedule.GetPeriodsIsFloor | src/lib/german-method.ts:69-72 | the period count p is the largest whole number of periods in the 360-day years: p·d ≤ 360·years < (p+1)·d |
| GermanSchedule.GetInitialCosts | src/lib/german-method.ts:104-143 | each share is the commercial value times the percentages charged to that party, with missing values read as 0 and missing assignments as the defaults |
| GermanSchedule.DefaultAssignments | src/lib/german-method.ts:104-143 | with no assignment given, the emitter bears all four costs and the bondholder flotation and CAVALI |
| GermanSchedule.CostsAgreeWithCalculators | src/lib/german-method.ts:104-143 | given the same assignments, the old cost split equals the newer calculators' split |
| GermanSchedule.FirstEntryDecides | src/lib/german-method.ts:213-214 | the grace type of period i is the type of the first entry naming i |
| GermanSchedule.FirstAgreesWithLastWhenDistinct | src/lib/german-method.ts:213-214 | when the entries name distinct periods, this lookup gives the same label as the calculators' map |
| GermanSchedule.FirstDiffersFromLastOnRepeats | src/lib/german-method.ts:213-214 | with a repeated period the two lookups differ: the first entry (total) wins here, the last (partial) in the calculators |
| GermanSchedule.SharesMakeNominal | src/lib/german-method.ts:189 | with at least one period, the per-period amortization times the period count is the nominal value |
| GermanSchedule.NoGraceCountFull | src/lib/german-method.ts:213-232 | all of periods 1..k are standard if and only if k of them are counted as standard |
| GermanSchedule.BalanceClosedForm | src/lib/german-method.ts:205-231 | the balance entering period i is the nominal minus one share per standard period before i |
| GermanSchedule.MakeRow | src/lib/german-method.ts:234-278 | the costs and premium enter the emitter's and bondholder's flows in period 1 only; the shield is subtracted from the emitter flow |
| GermanSchedule.MakeRowDiscounting | src/lib/german-method.ts:209-259 | the shield is coupon times tax; the date is period-days times i after emission; the actualized flow times (1+COK)^i is the bondholder flow |
| GermanSchedule.Schedule | src/lib/german-method.ts:204-281 | one row per period 1..N and none when N ≤ 0 |
| GermanSchedule.PeriodRule | src/lib/german-method.ts:213-265 | total grace zeroes coupon, installment and amortization; partial pays the coupon only; a standard period amortizes one share; the stored bond is the balance before amortization and the balance falls by the amortization |
| GermanSchedule.LaterPeriodsCarryNoCosts | src/lib/german-method.ts:235-247 | after period 1 there is no premium, and both flows equal the installment |
| GermanSchedule.AmortizedByShares | src/lib/german-method.ts:189-232 | the amount amortized through period k is one share per standard period among 1..k |
| GermanSchedule.AmortizationColumn | src/lib/german-method.ts:207-279 | the amortization column of the first k rows sums to the amount amortized through k |
| GermanSchedule.RepaysIffNoGrace | src/lib/german-method.ts:189-232 | a non-zero nominal is fully amortized over n periods if and only if none of them is a grace period |
| GermanSchedule.ColumnTotal | src/lib/german-method.ts:204-281 | the amortization column of the whole schedule is the amount amortized through the last period |
| GermanSchedule.PeriodRow | src/lib/german-method.ts:207-279 | one loop iteration builds exactly the specified row and the next balance |
| GermanSchedule.CalculateGermanBondSchedule | src/lib/german-method.ts:145-282 | the loop returns exactly the specified schedule |
| Breadcrumbs.JoinSplit | src/components/header-sidebar-content.tsx:22 | joining the split pieces with the separator gives back the string |
| Breadcrumbs.SplitJoin | src/components/header-sidebar-content.tsx:47 | splitting a join of separator-free pieces gives back the pieces |
| Breadcrumbs.KeepSegmentsMembers | src/components/header-sidebar-content.tsx:25-27 | every kept segment is non-empty, not "dashboard" in any case, and from the input; every such input segment is kept |
| Breadcrumbs.KeepSegmentsAppend | src/components/header-sidebar-content.tsx:25-27 | filtering a concatenation is the concatenation of the filtered parts, so the filter keeps the original order and multiplicity |
| Breadcrumbs.SecondLookupNeverDecides | src/components/header-sidebar-content.tsx:53-58 | whenever the raw lower-cased segment has a translation, the separator-replaced one has the same translation, so the second lookup never decides |
| Breadcrumbs.TranslatedName | src/components/header-sidebar-content.tsx:49-57 | a segment found under either lookup is shown as the translation of its lower-cased form with '-' and '_' as spaces (with UntranslatedName, this covers every name shown) |
| Breadcrumbs.UntranslatedName | src/components/header-sidebar-content.tsx:48-58 | an untranslated name has the segment's length, no '-' or '_', and lower-cases to the lower-cased segment with separators as spaces |
| Breadcrumbs.GetBreadcrumbItems | src/components/header-sidebar-content.tsx:20-68 | the loop returns exactly the specified items |
| Breadcrumbs.NoBreadcrumbsIff | src/components/header-sidebar-content.tsx:25-32 | there are no items if and only if every segment is empty or "dashboard" |
| Breadcrumbs.ItemsChain | src/components/header-sidebar-content.tsx:46-65 | only the final item is marked last, and each item's path extends the previous one by "/" and the next kept segment |
| Breadcrumbs.DashboardPathSegments | src/components/header-sidebar-content.tsx:22-27 | for a path "/dashboard/" followed by kept, slash-free segments, the kept segments are exactly those segments |
| Breadcrumbs.LastItemIsCurrentPage | src/components/header-sidebar-content.tsx:46-65 | on such a path there is one item per segment and the last one links to the path itself |

## Left out

- Rate conversion (`calculateEffectivePeriodRate`, `effectiveAnnualToPeriod`, `toEffectiveRate`) uses fractional exponents. The effective period rate and the period COK are parameters, not derived. The error for a nominal rate without a compounding frequency is still modelled as `Failure(MissingCompoundingFrequency)`.
- TCEA, TREA and `effectiveAnnualRate` need an IRR solver and fractional powers, so they are not modelled. The summary keeps the actual price, utility, duration, modified duration and convexity.
- Decimal.js precision, JavaScript floating point and the `round` helper are not modelled. Arithmetic is exact over the reals.
- Dates are offsets from the emission date (days or months). `addDays`, `addMonths`, `setDate` and the emission date itself are not modelled.
- Decimal.js division by zero is modelled as an absent value:
  - duration and modified duration are absent when the actual flows sum to zero;
  - convexity is absent when its denominator is zero;
  - the French annuity with (1+r)^n = 1, which is NaN or Infinity there, is `Failure(AnnuityUndefined)`.
- The `default` branches of the frequency switches cannot be reached from the closed enum, so they are absent.
- GermanCalculator.CalculateGermanMethod and GermanCalculator.AppendPeriods require a whole, non-negative period count. With a fractional count the source loop runs floor(N) times and never reaches `i === totalPeriods`, so no premium is charged. That behaviour is not modelled.
- FrenchMethod.CalculateFrenchMethod and FrenchMethod.AppendPeriods require the same whole, non-negative period count, for the same reason.
- GermanCalculator.CalculateGermanMethod, FrenchMethod.CalculateFrenchMethod and GermanSchedule.CalculateGermanBondSchedule require a period COK above -1. With a COK of -1 or below, the discount factor (1+COK)^i is zero or changes sign; the source divides by it regardless.
- GermanSchedule.CalculateGermanBondSchedule: when the period count is not positive, the source's `nominalValue / periods` is Infinity or NaN. No row uses it, and the model uses 0.
- GermanSchedule.DaysFromFrequency and GermanSchedule.DayTableAgreesWithCalculator read a name missing from the table as 30 days. In the source, `frequencyToDays[freq] ?? 30` on an object literal returns an inherited `Object.prototype` member for names such as "constructor" or "toString"; that is a function, not a number, so `getPeriods` yields NaN. The model does not capture that case.
- FrenchMethod.Schedule, FrenchMethod.PeriodRow, FrenchMethod.AppendPeriods, FrenchMethod.CalculateFrenchMethod (and FrenchMethod.RowAt, FrenchMethod.EmissionRowOf) date period i with the corrected 4-month step (`ForcedDateStep`), not the 3-month step the source uses (`addMonths(emissionDate, i * 3)` for the forced quarterly frequency). The source's dates are modelled by `AsWrittenDateStep`, and the gap is the Finding below; every other column of the French rows is as in the source.
- The `graceType` column of the old schedule duplicates `gracePeriod`, so it is not stored.
- `calculateFrenchBondSchedule` and the French input adapters are not modelled. The same goes for `financial-interpretations.ts`, the services, the pages, the form validators and the test scripts.
- Breadcrumbs: case mapping and the `\w` class are ASCII only. The translation lookup reads only the five table entries, not keys inherited from the JavaScript object prototype. The rendering of the items is not modelled.

## Findings

| source | as written | input that shows it | evidently intended | confidence | as-written member | corrected member |
|---|---|---|---|---|---|---|
| src/lib/french-method.ts:136 | `generatePaymentDates` steps quarterly dates by 3 months, while the French method forces the quarterly period to 120 days ("4 meses", lines 69 and 194-198) | any French schedule with 3 periods: period 3 is dated 9 months after emission after 360 days of interest | a 4-month step, so that period i is dated i·120 days out (period 3 at 12 months) | not executed | FrenchMethod.AsWrittenDatesFallBehind | FrenchMethod.ForcedDatesMatchPeriods |
