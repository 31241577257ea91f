# Portfolio projection calculator, modelled in Dafny

The modelled system is a web-based investment questionnaire. Its core has two parts:

- the **portfolio calculator** in `src/utils/portfolioCalculator.ts`;
- the **risk-dial advice** in `src/components/RiskDial-en.tsx`.

The calculator does the following:

- It maps a risk tier (0–5) and the sector, geography and management choices to an ordered allocation of instruments (`calculatePortfolio`). Each instrument has a weight and a base return range.
- It runs a Monte-Carlo-style projection over years 0 to the horizon (`calculateDetailedProjections`). Year 0 is a snapshot of the initial sum. Every later year does the following, in order:
  - draws the inflation rate;
  - schedules a market crash (18.7 %) or a correction (50 %), but only when no repayment is under way;
  - folds the instruments in order, each drawing its return and, in a crash or correction year, its loss and the repayment duration;
  - updates the peak, the lowest value, the maximum drawdown and the margin-call latch;
  - appends one breakdown row and one chart point.
- At the end it reports the drawdown statistics, the compound annual growth rate (CAGR) and the Sharpe ratio.

The risk dial classes every tier as acceptable, risky or not recommended for the user's age and family situation.

## How the model is built

| module | file | what it holds |
|---|---|---|
| `Wrappers` | `wrappers.dfy` | the `Option` type |
| `Text` | `text.dfy` | JavaScript's `includes`, with the proof that the recursive definition agrees with the offset definition |
| `RealArith` | `arith.dfy` | small sign and bound lemmas about products and quotients, which keep the other proofs linear |
| `Allocation` | `allocation.dfy` | the allocation provider |
| `Samplers` | `samplers.dfy` | the return, inflation, crash-loss and correction-loss samplers; the loss lookups are table loops, written as methods |
| `Statistics` | `statistics.dfy` | CAGR and the Sharpe ratio |
| `YearStep` | `year_step.dfy` | one instrument's part of a year, and the fold over the allocation |
| `Projection` | `projection.dfy` | the functional model of the year loop and the invariants it keeps |
| `Engine` | `engine.dfy` | the year loop and the instrument loop as the calculator runs them, as methods proved equal to the functional model |
| `RiskDial` | `risk_dial.dfy` | the risk-dial advice |

`Math.random()` becomes a stream of draws `u: nat -> real` in [0, 1), read through a cursor. The draws are consumed in the calculator's own order:

1. the inflation rate takes two draws;
2. the crash test takes one draw, only when no repayment is under way;
3. the correction test takes one draw, only when no repayment is under way and no crash was drawn;
4. each instrument then takes two draws for its return;
5. a crash or correction branch takes two more draws: the loss, then the repayment duration.

Every projection is therefore a function of the inputs and the stream, and every property below holds for all streams.

Where the calculator's code and its design disagree, the model follows the code:

- **The margin call does not end the run.** The latch fires once, sets that year's carried value to zero, and the loop goes on. With valid amounts it never fires at all (`Projection.DetailedProjections`).
- **Correction repayment never happens.** A correction's duration is drawn from [0.5, 0.83), which is below one year, so the record is cleared as soon as it is seeded. The "correction recovery" branch is unreachable. It is modelled anyway (`YearStep.SeedCorrection`, `Projection.StateInv`).
- **Each crashed instrument re-seeds the recovery.** The recovery record is re-seeded by every instrument from the crash impact accumulated so far. The last instrument's seed wins.
- **A crash is only repaid in part.** The recovery record is shared by all instruments and advanced by each of them. The year after a crash therefore pays only the first instrument's weighted share of the yearly amount before the record closes (`YearStep.RecoveryYearPaysFirstOnly`, `YearStep.CrashRepaidInPart`).
- **"ETF" anywhere in a name matches the first table entry.** The lookup test is `name.includes(key) || name.includes('ETF')`. The first entry therefore shadows the ETF-specific entries, such as "Crypto ETF" at 35–45 % (`Samplers.ETFShadowsCrashTable`, `Samplers.CryptoETFDrawsFirstEntry`). Every passive broad-market name contains "ETF", so that slot is shadowed too (`Samplers.PassiveSlotIsShadowed`).

## Model

| member | source | states |
|---|---|---|
| `Text.ContainsIffOccurs` | src/utils/portfolioCalculator.ts:269 | the substring test `includes` holds exactly when the text occurs at some offset, in both directions |
| `Allocation.ETFReturnRange` | src/utils/portfolioCalculator.ts:245-264 | the broad-market base range lies within [2.1, 18.8] and is not empty; an unknown sector, or the general sector with an unknown or global geography, falls back to the global range 12.8–13.2 |
| `Allocation.CalculatePortfolio` | src/utils/portfolioCalculator.ts:31-155 | there is an allocation exactly for tiers 0–5 (a missing configuration is `None`); it is well formed (non-empty, positive weights summing to 100) and carries its tier; it has no warning exactly for tiers 0–1 with passive management; an active-management warning comes first and is the medium one exactly for preference 1 |
| `Allocation.TierIsWellFormed` | src/utils/portfolioCalculator.ts:79-135 | every tier's configuration has positive weights summing to 100 |
| `Samplers.UniformWithin` | src/utils/portfolioCalculator.ts:388 | `lo + draw * (hi - lo)` lies in [lo, hi], and in [lo, hi) for a non-empty range |
| `Samplers.JitterScalesBase` | src/utils/portfolioCalculator.ts:390-392 | with volatility factor 1 the noise keeps a non-negative base within a factor 0.85–1.15 of itself |
| `Samplers.RandomReturn` | src/utils/portfolioCalculator.ts:375-395 | a moonshot returns a loss in [-80, -10) when the first draw is below 0.85, otherwise a gain in [50, 500); any other asset returns at least -95 |
| `Samplers.ReturnAboveTotalLoss` | src/utils/portfolioCalculator.ts:375-395 | every return the projection draws, for every asset, is at least -95 %, so growth never changes the sign of an amount |
| `Samplers.ReturnWithinSpreadOfRange` | src/utils/portfolioCalculator.ts:388-394 | for a non-negative base range a non-moonshot return lies between 0.85 times the low end and 1.15 times the high end, so the -95 floor never applies |
| `Samplers.InflationRate` | src/utils/portfolioCalculator.ts:397-406 | the rate is in [1.5, 2.5) when the first draw is below 0.8, else in [2.5, 4) |
| `Samplers.FirstMatchIsLeastMatchingEntry` | src/utils/portfolioCalculator.ts:310-314 | the lookup returns the range of the least-indexed entry that passes the test, and `None` exactly when no entry passes |
| `Samplers.FindLossRange` | src/utils/portfolioCalculator.ts:310-314 | the lookup loop returns the first passing entry's range, or none |
| `Samplers.FirstMatchWithin` | src/utils/portfolioCalculator.ts:310-314 | a range the lookup returns obeys every bound the whole table obeys |
| `Samplers.CrashTableWithin` | src/utils/portfolioCalculator.ts:274-307 | every crash-table range is non-empty and lies within [15, 45] |
| `Samplers.CorrectionTableWithin` | src/utils/portfolioCalculator.ts:328-361 | every correction-table range is non-empty and lies within [8, 30] |
| `Samplers.CrashLoss` | src/utils/portfolioCalculator.ts:267-318 | gold gives a negative magnitude in (-25, -15]; any other name a loss in [15, 45); a name containing "ETF" a loss in [15, 25) |
| `Samplers.CorrectionLoss` | src/utils/portfolioCalculator.ts:321-372 | gold gives a negative magnitude in (-10, -5]; any other name a loss in [8, 30); a name containing "ETF" a loss in [8, 12) |
| `Samplers.CalculateCrashLoss` | src/utils/portfolioCalculator.ts:267-318 | the sampler with its lookup loop returns exactly the crash magnitude `CrashLoss` specifies |
| `Samplers.CalculateCorrectionLoss` | src/utils/portfolioCalculator.ts:321-372 | the sampler with its lookup loop returns exactly the correction magnitude `CorrectionLoss` specifies |
| `Samplers.ETFShadowsCrashTable` | src/utils/portfolioCalculator.ts:310-314 | any name containing "ETF" gets the first crash range (15–25) and the first correction range (8–12) |
| `Samplers.PassiveNameHasETF` | src/utils/portfolioCalculator.ts:157-199 | with passive management every name of the broad-market slot, for every sector, geography and language, contains "ETF" |
| `Samplers.PassiveSlotIsShadowed` | src/utils/portfolioCalculator.ts:310-314 | so with passive management the broad-market slot always draws from the first crash range (15–25) and the first correction range (8–12) |
| `Samplers.CryptoETFIsAnETF` | src/utils/portfolioCalculator.ts:46-50 | the crypto ETF's name contains "ETF" and is not a gold name |
| `Samplers.CryptoETFDrawsFirstEntry` | src/utils/portfolioCalculator.ts:274-312 | the crypto ETF has its own 35–45 crash entry but always draws its crash loss from 15–25 |
| `Statistics.CalculateCagr` | src/utils/portfolioCalculator.ts:749-752 | the rate is zero exactly for no years or no positive base; otherwise it is taken over `years` of the ratio that turns the initial value into the final value |
| `Statistics.CalculateSharpeRatio` | src/utils/portfolioCalculator.ts:754-768 | fewer than two returns give zero; a non-zero ratio comes from at least two returns, with a positive variance equal to the sample variance of the excess returns and a mean excess equal to the mean return less the 2 % risk-free rate |
| `Statistics.SumOfExcess` | src/utils/portfolioCalculator.ts:759-760 | subtracting the risk-free rate from every return lowers their sum by that rate per return |
| `Statistics.MeanOfExcess` | src/utils/portfolioCalculator.ts:758-760 | the mean excess return is the mean return less the risk-free rate |
| `Statistics.SquaredDeviationsNonNegative` | src/utils/portfolioCalculator.ts:764 | the squared deviations are non-negative and sum to zero exactly when every value equals the mean |
| `Statistics.VarianceNonNegative` | src/utils/portfolioCalculator.ts:764 | the sample variance is non-negative, so its square root is defined |
| `Statistics.VarianceZeroIffConstant` | src/utils/portfolioCalculator.ts:764-767 | the sample variance is zero exactly when all values are equal |
| `Statistics.SharpeZeroIffFlat` | src/utils/portfolioCalculator.ts:754-768 | the ratio is zero exactly when there are fewer than two returns or all returns are equal |
| `YearStep.RepaymentIsWeighted` | src/utils/portfolioCalculator.ts:587 | an instrument's repayment share is its weight's part of the yearly amount |
| `YearStep.AllocationSign` | src/utils/portfolioCalculator.ts:537 | a non-negative (positive) portfolio value gives a non-negative (positive) allocation |
| `YearStep.GrowSign` | src/utils/portfolioCalculator.ts:541 | growth by a return above -100 % keeps an amount's sign |
| `YearStep.ContributionSign` | src/utils/portfolioCalculator.ts:543 | the half-year-grown contribution is non-negative, and positive when something is contributed |
| `YearStep.LossWithinAmount` | src/utils/portfolioCalculator.ts:564-565 | a drawdown below 100 % takes part of the grown allocation and never all of a positive one |
| `YearStep.RepaymentSign` | src/utils/portfolioCalculator.ts:587 | a repayment share of a non-negative amount, taken from a positive value, is non-negative |
| `YearStep.SeedRecovery` | src/utils/portfolioCalculator.ts:569-584 | a crash seeds a duration in [1, 1.7) that spreads the crash impact exactly; the record stays active exactly when the duration exceeds a year, with one year already taken off |
| `YearStep.AdvanceRecovery` | src/utils/portfolioCalculator.ts:594-598 | a repayment step ends the recovery with at most a year left, otherwise takes one year off; the duration and the amount are unchanged |
| `YearStep.SeedCorrection` | src/utils/portfolioCalculator.ts:613-628 | a correction seeds a duration in [0.5, 0.83) that spreads the correction impact exactly, and the record is never left active |
| `YearStep.AdvanceCorrection` | src/utils/portfolioCalculator.ts:635-639 | a correction repayment step ends the repayment with at most a year left and keeps that remainder, otherwise takes one year off; the duration and the amount are unchanged |
| `YearStep.CrashStep` | src/utils/portfolioCalculator.ts:555-584 | a crash step takes two draws (loss, then duration); it adds the instrument's loss (none for gold) to the crash impact and re-seeds the recovery from the impact so far and the duration draw, spreading it over at least one year with less than a year left if still active; its row is the shocked value (gold gains the magnitude, others lose it on the grown allocation, contributions spared), which is added to the year's total; the correction record and the other impacts are unchanged |
| `YearStep.RecoveryStep` | src/utils/portfolioCalculator.ts:585-598 | a recovery step takes no draw and advances the recovery record; it adds the instrument's weighted share of the yearly recovery amount to the recovery impact and to its row, whose value is the grown allocation plus the grown contribution plus that share, added to the year's total; the crash and correction impacts are unchanged |
| `YearStep.CorrectionStep` | src/utils/portfolioCalculator.ts:599-628 | a correction step takes two draws (loss, then duration); it adds the instrument's loss (none for gold) to the correction impact and re-seeds the correction record from the impact so far, which is never left active; its row is the shocked value, added to the year's total; the recovery record and the other impacts are unchanged |
| `YearStep.CorrectionRecoveryStep` | src/utils/portfolioCalculator.ts:629-640 | a correction repayment step takes no draw and advances the correction record; it adds the instrument's weighted share of the yearly correction amount to the recovery impact and to its row's value on top of growth and contribution, added to the year's total |
| `YearStep.QuietStep` | src/utils/portfolioCalculator.ts:537-544 | a quiet step changes neither record nor any impact; its row is the grown allocation plus the half-year-grown contribution, added to the year's total |
| `YearStep.InstrumentStep` | src/utils/portfolioCalculator.ts:536-656 | one instrument appends one row whose value is added to the year's total and whose return is the sampled return of its two first draws; it takes four draws in a crash year or a correction onset, otherwise two; in a year without events or repayment its row is the grown allocation plus the grown contribution and the recovery impact is unchanged; outside a crash year it neither starts a recovery nor changes the crash impact; no step starts a correction repayment; a crash leaves a recovery that spreads the impact exactly |
| `YearStep.StepInstruments` | src/utils/portfolioCalculator.ts:536-656 | the fold appends one row per instrument in order and keeps the earlier rows; it raises the year's new total by exactly the sum of the values of the rows it appends; outside a crash year it starts no recovery; no correction repayment is started |
| `YearStep.BaseValueSign` | src/utils/portfolioCalculator.ts:537-544 | growth plus the grown contribution is non-negative, and positive when there is money in the portfolio or coming in |
| `YearStep.ShockedValueSign` | src/utils/portfolioCalculator.ts:558-565 | a crashed or corrected instrument is worth at least its grown contribution, and more when it held something |
| `YearStep.CrashStepKeepsSigns` | src/utils/portfolioCalculator.ts:555-584 | a crash step adds a non-negative value to the year, a positive one for a funded portfolio, and keeps the impacts and repayments non-negative |
| `YearStep.CorrectionStepKeepsSigns` | src/utils/portfolioCalculator.ts:599-628 | the same for a correction step |
| `YearStep.InstrumentStepKeepsSigns` | src/utils/portfolioCalculator.ts:536-656 | every instrument adds a non-negative value, and a positive one when there is money in or coming in; the repayment amounts stay non-negative and repayments are only taken from a positive value |
| `YearStep.StepInstrumentsKeepsSigns` | src/utils/portfolioCalculator.ts:536-656 | a year's new total is non-negative, and positive for a non-empty, funded allocation with positive weights |
| `YearStep.RecoveryYearPaysFirstOnly` | src/utils/portfolioCalculator.ts:585-598 | a quiet year with at most a year of recovery left pays only the first instrument its weighted share and closes the recovery |
| `YearStep.LastRecoveryPayment` | src/utils/portfolioCalculator.ts:585-598 | an instrument that meets a recovery with at most a year left is paid its weight's share of the yearly amount and closes the recovery |
| `YearStep.CrashRepaidInPart` | src/utils/portfolioCalculator.ts:569-598 | after a crash year the next quiet year repays strictly less than the crash impact and closes the recovery |
| `YearStep.StepInstrumentsExtend` | src/utils/portfolioCalculator.ts:536-656 | folding the first `i + 1` instruments is one more instrument step after folding the first `i` |
| `YearStep.SoleInstrumentQuietYear` | src/utils/portfolioCalculator.ts:537-544 | a single instrument holding 100 % in a year without events, repayments or contributions ends the year at last year's value grown by its return |
| `YearStep.PartOfSpreadAmount` | src/utils/portfolioCalculator.ts:571-587 | a weight's part of an amount spread over more than a year is less than the whole |
| `Projection.Round` | src/utils/portfolioCalculator.ts:715 | `Math.round` gives the integer within half a unit, with halves rounded up |
| `Projection.TotalInvestedStep` | src/utils/portfolioCalculator.ts:480-486 | consecutive years' invested amounts differ by the yearly contribution |
| `Projection.TotalInvestedPositive` | src/utils/portfolioCalculator.ts:480 | with valid amounts, money has been invested after any positive number of years |
| `Projection.ScheduleEvents` | src/utils/portfolioCalculator.ts:509-512 | a year is never both a crash and a correction year; while a repayment is under way neither is drawn and no draw is taken; otherwise a crash happens exactly when its draw is below 0.187, and a correction exactly when there is no crash and the next draw is below 0.5 |
| `Projection.TrackYear` | src/utils/portfolioCalculator.ts:672-699 | the peak and lowest value are a running maximum and minimum, with their years; the drawdown from the peak is non-negative, at most 100 % for a non-negative value, and its running maximum is kept; the margin call fires only the first time the total is at or below zero, latches, records its year and zeroes that year's carried value |
| `Projection.DrawdownWithinPercent` | src/utils/portfolioCalculator.ts:687 | the drawdown from a peak at least as high as the value is between 0 and 100 % |
| `Projection.InflateKeepsAtLeastOne` | src/utils/portfolioCalculator.ts:485 | a non-negative inflation rate never lowers the cumulative inflation factor |
| `Projection.MakePoint` | src/utils/portfolioCalculator.ts:713-724 | a chart point records its year, the amount invested by then and the rounded carried value |
| `Projection.SnapshotYear` | src/utils/portfolioCalculator.ts:489-506 | year 0 appends one breakdown and one point, with the initial value and sum, and changes nothing else the loop carries |
| `Projection.OpenYear` | src/utils/portfolioCalculator.ts:482 | the inflation rate of a year after year 0 lies in [1.5, 4) |
| `Projection.AnnualReturn` | src/utils/portfolioCalculator.ts:703-708 | against a positive previous chart value, the year's return times that value is the change in value times 100, and it is non-negative exactly when the value did not fall; against a non-positive one it is zero |
| `Projection.NetImpact` | src/utils/portfolioCalculator.ts:658-670 | a crash impact takes precedence, then a correction impact, each shown as a loss; otherwise a positive repayment shows as a gain and nothing as zero; the figure is negative exactly when there was a crash or correction impact and positive exactly when only a repayment happened |
| `Projection.CloseYear` | src/utils/portfolioCalculator.ts:658-724 | closing a year appends one breakdown, one point and one annual return and keeps the earlier ones; records the year, its invested amount, its events, its total and the tracker's verdict; carries on the tracked value and the fold's repayment records |
| `Projection.SimulateYear` | src/utils/portfolioCalculator.ts:480-724 | a year after year 0 appends one entry per series; it is never both a crash and a correction year, and neither while a repayment is under way; it is a recovery year exactly when a recovery was under way; the maximum drawdown and inflation never decrease; the margin call latches as `TrackYear` states |
| `Projection.InitialStateInv` | src/utils/portfolioCalculator.ts:441-506 | the state after year 0 satisfies the run invariant and the history invariant |
| `Projection.YearTotalPositive` | src/utils/portfolioCalculator.ts:536-668 | with valid amounts and a well-formed allocation, every year after year 0 ends with a positive total |
| `Projection.SimulateYearKeepsState` | src/utils/portfolioCalculator.ts:480-724 | a simulated year keeps the run invariant: the carried value is non-negative and positive after year 0 or during a recovery; no correction repayment is pending; no margin call has happened; the contributions equal the invested amount |
| `Projection.SimulateYearKeepsHistory` | src/utils/portfolioCalculator.ts:480-724 | a simulated year keeps the history invariant: one point per year in order with its invested amount, and every breakdown without a margin call, within the lowest and peak values and the maximum drawdown |
| `Projection.RunYears` | src/utils/portfolioCalculator.ts:479-725 | every state the year loop reaches satisfies the run invariant and has one point per year run |
| `Projection.RunYearsKeepsHistory` | src/utils/portfolioCalculator.ts:479-725 | every state the year loop reaches satisfies the history invariant |
| `Projection.RunYearsStartsWithSnapshot` | src/utils/portfolioCalculator.ts:489-506 | every run begins with the year-0 snapshot of the initial sum |
| `Projection.FinalState` | src/utils/portfolioCalculator.ts:479-725 | the loop over years 0 to the horizon leaves one point and one breakdown per year, one annual return per year after year 0, no margin call, and the contributions equal to the amount invested by the horizon |
| `Projection.FinalStateFacts` | src/utils/portfolioCalculator.ts:479-725 | the final state's history is in year order with each year's invested amount; no breakdown has a margin call or both events; every year after year 0 ends positive; year 0 is the initial sum |
| `Projection.QuietYearCompounds` | src/utils/portfolioCalculator.ts:536-724 | a quiet year of a single 100 % instrument without contributions has one row and carries the previous value grown by that row's return |
| `Projection.QuietRunYear` | src/utils/portfolioCalculator.ts:479-725 | year `n` of such a run keeps the earlier breakdowns and their returns, and grows the previous year's value by year `n`'s return |
| `Projection.QuietRunCompounds` | src/utils/portfolioCalculator.ts:479-725 | a run of a single 100 % instrument without contributions whose years after 0 are all quiet ends at the initial sum times the product of (1 + r/100) over the instrument's yearly returns r |
| `Projection.Finish` | src/utils/portfolioCalculator.ts:727-746 | the summary keeps both series, reports the margin-call latch and its year, and computes CAGR from the contributions to the final value over the horizon and the Sharpe ratio from the annual returns |
| `Projection.DetailedProjections` | src/utils/portfolioCalculator.ts:409-747 | a projection exists exactly for tiers 0–5; it has one point and one breakdown per year from 0 to the horizon, each point carrying its year and its invested amount; with valid amounts no year after year 0 ends at or below zero, so no margin call is ever reported and no year is both a crash and a correction year; CAGR is a growth rate exactly for a positive horizon; the Sharpe ratio is zero for horizons up to one year; year 0 shows the initial sum |
| `Engine.ApplyInstruments` | src/utils/portfolioCalculator.ts:536-656 | the per-instrument loop, threading the repayment records through the loop, computes exactly the fold `StepInstruments` |
| `Engine.UpdateTracker` | src/utils/portfolioCalculator.ts:672-699 | the in-place statistics update computes exactly `TrackYear` |
| `Engine.AdvanceYear` | src/utils/portfolioCalculator.ts:480-724 | one loop iteration after year 0 computes exactly `SimulateYear` |
| `Engine.RunProjectionLoop` | src/utils/portfolioCalculator.ts:479-725 | the year loop over years 0 to the horizon ends in exactly the final state of the projection |
| `Engine.ProjectionOfPortfolio` | src/utils/portfolioCalculator.ts:441 | the projection is absent exactly when the tier has no allocation, and otherwise is the summary of the loop's final state over a well-formed allocation |
| `Engine.CalculateDetailedProjections` | src/utils/portfolioCalculator.ts:409-747 | the imperative projection returns exactly `DetailedProjections`, so every property proved of that holds of it |
| `RiskDial.RiskThresholds` | src/components/RiskDial-en.tsx:20-65 | for every age and family situation, 1 ≤ acceptable limit ≤ risky limit ≤ 5, and the two limits differ by at most one tier |
| `RiskDial.GetRiskRecommendation` | src/components/RiskDial-en.tsx:15-76 | a missing (falsy) age or family situation makes every tier acceptable; otherwise a tier is acceptable exactly up to the acceptable limit, risky exactly above it up to the risky limit, and not recommended exactly above the risky limit |
| `RiskDial.AcceptableIsDownwardClosed` | src/components/RiskDial-en.tsx:69-75 | every tier below an acceptable tier is acceptable |
| `RiskDial.NotRecommendedIsUpwardClosed` | src/components/RiskDial-en.tsx:69-75 | every tier above a not-recommended tier is not recommended |
| `RiskDial.SeniorBands` | src/components/RiskDial-en.tsx:62-65 | from 60 on, tiers 0–1 are acceptable, tier 2 is risky and higher tiers are not recommended |
| `RiskDial.FiftiesIgnoreFamily` | src/components/RiskDial-en.tsx:59-61 | between 50 and 59 the advice does not depend on the family situation |
| `RiskDial.YoungWithoutKidsAcceptsAll` | src/components/RiskDial-en.tsx:29-36 | under 30 without children every tier of the dial is acceptable |
| `RiskDial.SingleParentIsSingle` | src/components/RiskDial-en.tsx:23 | a single parent gets the same advice as a single person at every age |

## Left out

- Floating point: amounts, returns and rates are exact reals. IEEE rounding, overflow and NaN are not modelled; `Math.round` is modelled exactly, with halves rounded up.
- `Math.pow` and `Math.sqrt` in CAGR and the Sharpe ratio: the metrics are left symbolic (the ratio and years, the mean excess and the variance). Their numeric values are not modelled.
- `Math.random()`: it becomes a stream of unit draws passed as a parameter, and its distribution is not modelled. Probabilities such as "18.7 % of years crash" therefore become statements about the draw that decides them.
- Localized text: instrument descriptions (`getETFDescription`), warning wording and risk labels are not modelled. Warnings are an enumeration in their display order; names are modelled because the samplers classify instruments by them (`Allocation.ETFName`).
- `console.log` calls in the risk dial are left out (output only).
- The recovery record's `targetValue` field (src/utils/portfolioCalculator.ts:466-470) is not modelled, because it is set to zero and never read.
- The `returnRange || [5, 10]` fallback (src/utils/portfolioCalculator.ts:538) is not modelled, because every configured instrument has a return range.
- `Projection.DetailedProjections`: requires non-negative amounts that are not both zero (`ValidAmounts`). With both zero, the calculator's repayment share divides zero by zero and yields NaN, which reals cannot express. The user interface's minimum sums satisfy the requirement.
- `Engine.CalculateDetailedProjections`: requires the same valid amounts, for the same reason.
- `RiskDial.GetRiskRecommendation`: the age is an integer option, so a NaN age (which JavaScript treats as falsy) is not modelled. Absence, age 0 and the empty family string are modelled as the falsy inputs.
- `Samplers.CrashLoss`: states the bounds of the loss and of the ETF shadowing, not each named entry's range. `Samplers.FirstMatchIsLeastMatchingEntry` and `Samplers.ETFShadowsCrashTable` pin the entry that is chosen.
- `Samplers.CorrectionLoss`: same as `Samplers.CrashLoss`.
- The React components around the dial and the chart (rendering, state hooks) are outside the modelled core.
