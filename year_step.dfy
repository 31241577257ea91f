/**
 * One instrument's part of a simulated year: its return, its share of a crash or correction, and
 * the changes it makes to the two amortisation records. The records are updated by every
 * instrument in turn, so a year is a left fold of `InstrumentStep` over the allocation.
 */
module YearStep {
  import opened Wrappers
  import opened Allocation
  import opened Samplers
  import opened RealArith

  /** The stream of uniform draws in [0, 1) the calculator consumes, read from a cursor. */
  type Draws = nat -> real

  ghost predicate UnitDraws(u: Draws)
  {
    forall i: nat :: IsUnit(u(i))
  }

  /** Repayment of a crash: spread over `totalRecoveryTime` years, `yearlyRecoveryAmount` per year. */
  datatype RecoveryState = RecoveryState(
    isRecovering: bool,
    recoveryTimeRemaining: real,
    totalRecoveryTime: real,
    yearlyRecoveryAmount: real)

  /** Repayment of a correction, with the same shape. */
  datatype CorrectionState = CorrectionState(
    isInCorrection: bool,
    correctionTimeRemaining: real,
    totalCorrectionTime: real,
    yearlyRecoveryAmount: real)

  const IdleRecovery: RecoveryState := RecoveryState(false, 0.0, 0.0, 0.0)

  const IdleCorrection: CorrectionState := CorrectionState(false, 0.0, 0.0, 0.0)

  /** One instrument's line in a year's breakdown; `None` where the calculator leaves a field undefined. */
  datatype InstrumentRow = InstrumentRow(
    name: string,
    percentage: real,
    annualReturn: real,
    value: real,
    crashDrawdown: Option<real>,
    correctionDrawdown: Option<real>,
    isRecovering: bool,
    isCorrection: bool,
    recoveryProgress: Option<real>,
    correctionRecoveryProgress: Option<real>)

  /** What every instrument of a year sees: last year's value, the contribution and the year's events. */
  datatype YearContext = YearContext(
    currentValue: real,
    annualContribution: real,
    isCrashYear: bool,
    isCorrectionYear: bool)

  /** What the instruments of a year accumulate, including the two records they update. */
  datatype YearAcc = YearAcc(
    recovery: RecoveryState,
    correction: CorrectionState,
    cursor: nat,
    newTotalValue: real,
    crashImpact: real,
    correctionImpact: real,
    recoveryImpact: real,
    rows: seq<InstrumentRow>)

  /** The part of the portfolio value held in an instrument of the given weight (percent). */
  function AllocationOf(currentValue: real, percentage: real): real
  {
    currentValue * (percentage / 100.0)
  }

  /** An amount grown by a return in percent. */
  function Grow(amount: real, ret: real): real
  {
    amount * (1.0 + ret / 100.0)
  }

  /** The instrument's part of the year's contributions, grown by half the year's return. */
  function ContributionWithGrowth(annualContribution: real, percentage: real, ret: real): real
  {
    (annualContribution * (percentage / 100.0)) * (1.0 + (ret / 100.0) * 0.5)
  }

  /** What a drawdown in percent takes from an amount. */
  function LossOf(amount: real, drawdown: real): real
  {
    amount * (drawdown / 100.0)
  }

  /** The instrument's part of a yearly repayment: its allocation over the portfolio value. */
  function RepaymentShare(allocation: real, currentValue: real, yearlyAmount: real): real
    requires currentValue != 0.0
  {
    (allocation / currentValue) * yearlyAmount
  }

  /** An instrument's value in a year without a shock or repayment: its grown allocation plus its grown contribution. */
  function BaseValue(ctx: YearContext, inst: Instrument, ret: real): real
  {
    Grow(AllocationOf(ctx.currentValue, inst.percentage), ret)
      + ContributionWithGrowth(ctx.annualContribution, inst.percentage, ret)
  }

  /** What a shock of the given magnitude takes from an instrument: nothing from gold, else a part of its grown allocation. */
  function ShockLoss(ctx: YearContext, inst: Instrument, ret: real, magnitude: real): real
  {
    if IsGold(inst.name) then 0.0 else LossOf(Grow(AllocationOf(ctx.currentValue, inst.percentage), ret), Abs(magnitude))
  }

  /**
   * An instrument's value in a crash or correction year: gold grows by the return plus the
   * magnitude; any other instrument loses the shock on its grown allocation. Contributions are spared.
   */
  function ShockedValue(ctx: YearContext, inst: Instrument, ret: real, magnitude: real): real
  {
    var allocation := AllocationOf(ctx.currentValue, inst.percentage);
    var contributionWithGrowth := ContributionWithGrowth(ctx.annualContribution, inst.percentage, ret);
    if IsGold(inst.name) then Grow(allocation, ret + Abs(magnitude)) + contributionWithGrowth
    else Grow(allocation, ret) - ShockLoss(ctx, inst, ret, magnitude) + contributionWithGrowth
  }

  /** A non-negative portfolio value gives a non-negative allocation; a positive one a positive allocation. */
  lemma AllocationSign(currentValue: real, percentage: real)
    requires currentValue >= 0.0 && percentage > 0.0
    ensures AllocationOf(currentValue, percentage) >= 0.0
    ensures currentValue > 0.0 ==> AllocationOf(currentValue, percentage) > 0.0
  {
    ProductNonNegative(currentValue, percentage / 100.0);
    if currentValue > 0.0 {
      ProductOfPositives(currentValue, percentage / 100.0);
    }
    assert AllocationOf(currentValue, percentage) == Product(currentValue, percentage / 100.0);
  }

  /** Growth by a return above -100% keeps the sign of the amount. */
  lemma GrowSign(amount: real, ret: real)
    requires amount >= 0.0 && ret > -100.0
    ensures Grow(amount, ret) >= 0.0
    ensures amount > 0.0 ==> Grow(amount, ret) > 0.0
  {
    ProductNonNegative(amount, 1.0 + ret / 100.0);
    if amount > 0.0 {
      ProductOfPositives(amount, 1.0 + ret / 100.0);
    }
    assert Grow(amount, ret) == Product(amount, 1.0 + ret / 100.0);
  }

  /** The grown contribution is non-negative, and positive when something is contributed. */
  lemma ContributionSign(annualContribution: real, percentage: real, ret: real)
    requires annualContribution >= 0.0 && percentage > 0.0 && ret > -200.0
    ensures ContributionWithGrowth(annualContribution, percentage, ret) >= 0.0
    ensures annualContribution > 0.0 ==> ContributionWithGrowth(annualContribution, percentage, ret) > 0.0
  {
    var share := Product(annualContribution, percentage / 100.0);
    ProductNonNegative(annualContribution, percentage / 100.0);
    ProductNonNegative(share, 1.0 + (ret / 100.0) * 0.5);
    if annualContribution > 0.0 {
      ProductOfPositives(annualContribution, percentage / 100.0);
      ProductOfPositives(share, 1.0 + (ret / 100.0) * 0.5);
    }
    assert ContributionWithGrowth(annualContribution, percentage, ret) == Product(share, 1.0 + (ret / 100.0) * 0.5);
  }

  /** A drawdown below 100% takes part of a non-negative amount, never all of a positive one. */
  lemma LossWithinAmount(amount: real, drawdown: real)
    requires amount >= 0.0 && 0.0 <= drawdown < 100.0
    ensures 0.0 <= LossOf(amount, drawdown) <= amount
    ensures amount > 0.0 ==> LossOf(amount, drawdown) < amount
  {
    ProductAtMost(amount, drawdown / 100.0);
    assert LossOf(amount, drawdown) == Product(amount, drawdown / 100.0);
  }

  /** A repayment share of a non-negative amount, taken from a positive value, is non-negative. */
  lemma RepaymentSign(allocation: real, currentValue: real, yearlyAmount: real)
    requires allocation >= 0.0 && currentValue > 0.0 && yearlyAmount >= 0.0
    ensures RepaymentShare(allocation, currentValue, yearlyAmount) >= 0.0
  {
    NonNegativeQuotient(allocation, currentValue);
    ProductNonNegative(allocation / currentValue, yearlyAmount);
    assert RepaymentShare(allocation, currentValue, yearlyAmount) == Product(allocation / currentValue, yearlyAmount);
  }

  /** The repayment share of an instrument is its weight's part of the yearly amount. */
  lemma RepaymentIsWeighted(currentValue: real, percentage: real, yearlyAmount: real)
    requires currentValue != 0.0
    ensures RepaymentShare(AllocationOf(currentValue, percentage), currentValue, yearlyAmount)
      == Product(percentage / 100.0, yearlyAmount)
  {
    var w := percentage / 100.0;
    assert AllocationOf(currentValue, percentage) == Product(currentValue, w);
    assert Product(currentValue, w) / currentValue == w;
  }

  /**
   * A crash seeds the recovery from the crash impact so far: a duration in [1, 1.7) and the impact
   * spread evenly over it. The first year counts at once: the record stays active only when the
   * duration exceeds a year, with one year taken off.
   */
  function SeedRecovery(crashImpact: real, d: real): (r: RecoveryState)
    requires IsUnit(d)
    ensures 1.0 <= r.totalRecoveryTime < 1.7
    ensures Product(r.yearlyRecoveryAmount, r.totalRecoveryTime) == crashImpact
    ensures r.isRecovering <==> r.totalRecoveryTime > 1.0
    ensures r.isRecovering ==> r.recoveryTimeRemaining == r.totalRecoveryTime - 1.0
    ensures crashImpact >= 0.0 ==> r.yearlyRecoveryAmount >= 0.0
  {
    var totalRecoveryTime := 1.0 + d * 0.7;
    var yearlyRecoveryAmount := crashImpact / totalRecoveryTime;
    QuotientSign(crashImpact, totalRecoveryTime);
    if totalRecoveryTime <= 1.0 then
      RecoveryState(false, totalRecoveryTime, totalRecoveryTime, yearlyRecoveryAmount)
    else
      RecoveryState(true, totalRecoveryTime - 1.0, totalRecoveryTime, yearlyRecoveryAmount)
  }

  /** A repayment step: the record goes inactive with at most one year left, else loses one year. */
  function AdvanceRecovery(rec: RecoveryState): (r: RecoveryState)
    ensures r.isRecovering <==> rec.isRecovering && rec.recoveryTimeRemaining > 1.0
    ensures r.recoveryTimeRemaining ==
      (if rec.recoveryTimeRemaining <= 1.0 then rec.recoveryTimeRemaining else rec.recoveryTimeRemaining - 1.0)
    ensures r.totalRecoveryTime == rec.totalRecoveryTime && r.yearlyRecoveryAmount == rec.yearlyRecoveryAmount
  {
    if rec.recoveryTimeRemaining <= 1.0 then rec.(isRecovering := false)
    else rec.(recoveryTimeRemaining := rec.recoveryTimeRemaining - 1.0)
  }

  /**
   * A correction seeds its record the same way, but over 0.5 to 0.83 years: shorter than a year,
   * so the record is never left active.
   */
  function SeedCorrection(correctionImpact: real, d: real): (r: CorrectionState)
    requires IsUnit(d)
    ensures 0.5 <= r.totalCorrectionTime < 0.83
    ensures Product(r.yearlyRecoveryAmount, r.totalCorrectionTime) == correctionImpact
    ensures !r.isInCorrection && r.correctionTimeRemaining == r.totalCorrectionTime
    ensures correctionImpact >= 0.0 ==> r.yearlyRecoveryAmount >= 0.0
  {
    var totalCorrectionTime := 0.5 + d * 0.33;
    var yearlyRecoveryAmount := correctionImpact / totalCorrectionTime;
    QuotientSign(correctionImpact, totalCorrectionTime);
    if totalCorrectionTime <= 1.0 then
      CorrectionState(false, totalCorrectionTime, totalCorrectionTime, yearlyRecoveryAmount)
    else
      CorrectionState(true, totalCorrectionTime - 1.0, totalCorrectionTime, yearlyRecoveryAmount)
  }

  /** A correction repayment step, with the rule of `AdvanceRecovery`. */
  function AdvanceCorrection(corr: CorrectionState): (r: CorrectionState)
    ensures r.isInCorrection <==> corr.isInCorrection && corr.correctionTimeRemaining > 1.0
    ensures r.correctionTimeRemaining ==
      (if corr.correctionTimeRemaining <= 1.0 then corr.correctionTimeRemaining else corr.correctionTimeRemaining - 1.0)
    ensures r.totalCorrectionTime == corr.totalCorrectionTime && r.yearlyRecoveryAmount == corr.yearlyRecoveryAmount
  {
    if corr.correctionTimeRemaining <= 1.0 then corr.(isInCorrection := false)
    else corr.(correctionTimeRemaining := corr.correctionTimeRemaining - 1.0)
  }

  /**
   * What an instrument step needs to be defined: an active recovery has a positive duration, and
   * a repayment (which divides by the portfolio value) is only taken from a non-zero value.
   */
  predicate StepSafe(ctx: YearContext, acc: YearAcc)
  {
    && (acc.recovery.isRecovering ==> acc.recovery.totalRecoveryTime > 0.0)
    && (!ctx.isCrashYear && (acc.recovery.isRecovering || acc.correction.isInCorrection) ==> ctx.currentValue != 0.0)
  }

  /** Adds an instrument's line to the year and its value to the new total. */
  function Record(acc: YearAcc, row: InstrumentRow): (r: YearAcc)
    ensures r.rows == acc.rows + [row] && r.newTotalValue == acc.newTotalValue + row.value
    ensures r.recovery == acc.recovery && r.correction == acc.correction && r.cursor == acc.cursor
    ensures r.crashImpact == acc.crashImpact && r.correctionImpact == acc.correctionImpact
    ensures r.recoveryImpact == acc.recoveryImpact
  {
    acc.(newTotalValue := acc.newTotalValue + row.value, rows := acc.rows + [row])
  }

  /**
   * A crash year: gold gains the magnitude on its allocation; any other instrument loses it on its
   * grown allocation (contributions are spared), and the loss adds to the year's crash impact.
   * Every instrument re-seeds the recovery from the impact so far.
   */
  function CrashStep(ctx: YearContext, inst: Instrument, normalReturn: real, acc: YearAcc, u: Draws): (r: YearAcc)
    requires UnitDraws(u)
    ensures r.cursor == acc.cursor + 2 && r.correction == acc.correction
    ensures r.crashImpact == acc.crashImpact + ShockLoss(ctx, inst, normalReturn, CrashLoss(inst.name, u(acc.cursor)))
    ensures r.recovery == SeedRecovery(r.crashImpact, u(acc.cursor + 1))
    ensures r.recovery.totalRecoveryTime >= 1.0
    ensures Product(r.recovery.yearlyRecoveryAmount, r.recovery.totalRecoveryTime) == r.crashImpact
    ensures r.recovery.isRecovering ==> r.recovery.recoveryTimeRemaining < 1.0
    ensures r.correctionImpact == acc.correctionImpact && r.recoveryImpact == acc.recoveryImpact
    ensures |r.rows| == |acc.rows| + 1 && r.rows[..|acc.rows|] == acc.rows
    ensures r.rows[|acc.rows|].value == ShockedValue(ctx, inst, normalReturn, CrashLoss(inst.name, u(acc.cursor)))
    ensures r.newTotalValue == acc.newTotalValue + r.rows[|acc.rows|].value
  {
    var c := acc.cursor;
    var rawCrashDrawdown := CrashLoss(inst.name, u(c));
    var gold := IsGold(inst.name);
    var value := ShockedValue(ctx, inst, normalReturn, rawCrashDrawdown);
    var crashImpact := acc.crashImpact + ShockLoss(ctx, inst, normalReturn, rawCrashDrawdown);
    var recovery := SeedRecovery(crashImpact, u(c + 1));
    var row := InstrumentRow(inst.name, inst.percentage, normalReturn, value,
      if gold then None else Some(Abs(rawCrashDrawdown)), None,
      true, false, Some(Min(1.0, 1.0 / recovery.totalRecoveryTime)), None);
    Record(acc.(recovery := recovery, cursor := c + 2, crashImpact := crashImpact), row)
  }

  /** A recovery year: the instrument gets its share of the yearly repayment, then the record advances. */
  function RecoveryStep(ctx: YearContext, inst: Instrument, normalReturn: real, acc: YearAcc): (r: YearAcc)
    requires acc.recovery.isRecovering && acc.recovery.totalRecoveryTime > 0.0 && ctx.currentValue != 0.0
    ensures r.cursor == acc.cursor && r.correction == acc.correction && r.recovery == AdvanceRecovery(acc.recovery)
    ensures r.crashImpact == acc.crashImpact && r.correctionImpact == acc.correctionImpact
    ensures r.recoveryImpact == acc.recoveryImpact
      + RepaymentShare(AllocationOf(ctx.currentValue, inst.percentage), ctx.currentValue, acc.recovery.yearlyRecoveryAmount)
    ensures |r.rows| == |acc.rows| + 1 && r.rows[..|acc.rows|] == acc.rows
    ensures r.rows[|acc.rows|].value == BaseValue(ctx, inst, normalReturn)
      + RepaymentShare(AllocationOf(ctx.currentValue, inst.percentage), ctx.currentValue, acc.recovery.yearlyRecoveryAmount)
    ensures r.newTotalValue == acc.newTotalValue + r.rows[|acc.rows|].value
  {
    var rec := acc.recovery;
    var allocation := AllocationOf(ctx.currentValue, inst.percentage);
    var instrumentValue := BaseValue(ctx, inst, normalReturn);
    var recoveryAmount := RepaymentShare(allocation, ctx.currentValue, rec.yearlyRecoveryAmount);
    var progress := (rec.totalRecoveryTime - rec.recoveryTimeRemaining) / rec.totalRecoveryTime;
    var row := InstrumentRow(inst.name, inst.percentage, normalReturn, instrumentValue + recoveryAmount,
      None, None, true, false, Some(progress), None);
    Record(acc.(recovery := AdvanceRecovery(rec), recoveryImpact := acc.recoveryImpact + recoveryAmount), row)
  }

  /** A correction year: as a crash year with the correction table, seeding the correction record. */
  function CorrectionStep(ctx: YearContext, inst: Instrument, normalReturn: real, acc: YearAcc, u: Draws): (r: YearAcc)
    requires UnitDraws(u)
    ensures r.cursor == acc.cursor + 2 && r.recovery == acc.recovery && !r.correction.isInCorrection
    ensures r.correctionImpact == acc.correctionImpact + ShockLoss(ctx, inst, normalReturn, CorrectionLoss(inst.name, u(acc.cursor)))
    ensures r.correction == SeedCorrection(r.correctionImpact, u(acc.cursor + 1))
    ensures r.crashImpact == acc.crashImpact && r.recoveryImpact == acc.recoveryImpact
    ensures |r.rows| == |acc.rows| + 1 && r.rows[..|acc.rows|] == acc.rows
    ensures r.rows[|acc.rows|].value == ShockedValue(ctx, inst, normalReturn, CorrectionLoss(inst.name, u(acc.cursor)))
    ensures r.newTotalValue == acc.newTotalValue + r.rows[|acc.rows|].value
  {
    var c := acc.cursor;
    var rawCorrectionDrawdown := CorrectionLoss(inst.name, u(c));
    var gold := IsGold(inst.name);
    var value := ShockedValue(ctx, inst, normalReturn, rawCorrectionDrawdown);
    var correctionImpact := acc.correctionImpact + ShockLoss(ctx, inst, normalReturn, rawCorrectionDrawdown);
    var correction := SeedCorrection(correctionImpact, u(c + 1));
    var row := InstrumentRow(inst.name, inst.percentage, normalReturn, value,
      None, if gold then None else Some(Abs(rawCorrectionDrawdown)),
      false, true, None, Some(Min(1.0, 1.0 / correction.totalCorrectionTime)));
    Record(acc.(correction := correction, cursor := c + 2, correctionImpact := correctionImpact), row)
  }

  /** An active correction: the instrument gets its share of the correction's repayment. */
  function CorrectionRecoveryStep(ctx: YearContext, inst: Instrument, normalReturn: real, acc: YearAcc): (r: YearAcc)
    requires ctx.currentValue != 0.0
    ensures r.cursor == acc.cursor && r.recovery == acc.recovery && r.correction == AdvanceCorrection(acc.correction)
    ensures r.crashImpact == acc.crashImpact && r.correctionImpact == acc.correctionImpact
    ensures r.recoveryImpact == acc.recoveryImpact
      + RepaymentShare(AllocationOf(ctx.currentValue, inst.percentage), ctx.currentValue, acc.correction.yearlyRecoveryAmount)
    ensures |r.rows| == |acc.rows| + 1 && r.rows[..|acc.rows|] == acc.rows
    ensures r.rows[|acc.rows|].value == BaseValue(ctx, inst, normalReturn)
      + RepaymentShare(AllocationOf(ctx.currentValue, inst.percentage), ctx.currentValue, acc.correction.yearlyRecoveryAmount)
    ensures r.newTotalValue == acc.newTotalValue + r.rows[|acc.rows|].value
  {
    var allocation := AllocationOf(ctx.currentValue, inst.percentage);
    var instrumentValue := BaseValue(ctx, inst, normalReturn);
    var recoveryAmount := RepaymentShare(allocation, ctx.currentValue, acc.correction.yearlyRecoveryAmount);
    var row := InstrumentRow(inst.name, inst.percentage, normalReturn, instrumentValue + recoveryAmount,
      None, None, false, false, None, None);
    Record(acc.(correction := AdvanceCorrection(acc.correction), recoveryImpact := acc.recoveryImpact + recoveryAmount), row)
  }

  /** A quiet year: growth and contributions only. */
  function QuietStep(ctx: YearContext, inst: Instrument, normalReturn: real, acc: YearAcc): (r: YearAcc)
    ensures r.cursor == acc.cursor && r.recovery == acc.recovery && r.correction == acc.correction
    ensures r.crashImpact == acc.crashImpact && r.correctionImpact == acc.correctionImpact && r.recoveryImpact == acc.recoveryImpact
    ensures |r.rows| == |acc.rows| + 1 && r.rows[..|acc.rows|] == acc.rows
    ensures r.rows[|acc.rows|].value == BaseValue(ctx, inst, normalReturn)
    ensures r.newTotalValue == acc.newTotalValue + r.rows[|acc.rows|].value
  {
    Record(acc, InstrumentRow(inst.name, inst.percentage, normalReturn, BaseValue(ctx, inst, normalReturn),
      None, None, false, false, None, None))
  }

  /**
   * One pass of the per-instrument loop body. It draws the return (two draws), then takes the
   * first branch that applies, in the calculator's order: crash year, active recovery, correction
   * year, active correction. Crash and correction years draw the magnitude and the duration too.
   */
  function InstrumentStep(ctx: YearContext, inst: Instrument, acc: YearAcc, u: Draws): (r: YearAcc)
    requires UnitDraws(u) && StepSafe(ctx, acc)
    ensures StepSafe(ctx, r)
    ensures |r.rows| == |acc.rows| + 1 && r.rows[..|acc.rows|] == acc.rows
    ensures r.cursor == acc.cursor + (if ctx.isCrashYear || (!acc.recovery.isRecovering && ctx.isCorrectionYear) then 4 else 2)
    ensures !ctx.isCrashYear ==> r.crashImpact == acc.crashImpact
    ensures !ctx.isCrashYear && r.recovery.isRecovering ==> acc.recovery.isRecovering
    ensures r.correction.isInCorrection ==> acc.correction.isInCorrection
    ensures ctx.isCrashYear ==> Product(r.recovery.yearlyRecoveryAmount, r.recovery.totalRecoveryTime) == r.crashImpact
    ensures ctx.isCrashYear && r.recovery.isRecovering ==> r.recovery.recoveryTimeRemaining < 1.0
    ensures ctx.isCrashYear ==> (r.recovery.isRecovering <==> r.recovery.totalRecoveryTime > 1.0)
    ensures r.newTotalValue == acc.newTotalValue + r.rows[|acc.rows|].value
    ensures r.rows[|acc.rows|].annualReturn == RandomReturn(inst.returnRange, 1.0, inst.name, u(acc.cursor), u(acc.cursor + 1))
    ensures !ctx.isCrashYear && !acc.recovery.isRecovering && !ctx.isCorrectionYear && !acc.correction.isInCorrection ==>
      r.rows[|acc.rows|].value == BaseValue(ctx, inst, r.rows[|acc.rows|].annualReturn) && r.recoveryImpact == acc.recoveryImpact
  {
    var c := acc.cursor;
    var normalReturn := RandomReturn(inst.returnRange, 1.0, inst.name, u(c), u(c + 1));
    var drawn := acc.(cursor := c + 2);
    if ctx.isCrashYear then CrashStep(ctx, inst, normalReturn, drawn, u)
    else if acc.recovery.isRecovering then RecoveryStep(ctx, inst, normalReturn, drawn)
    else if ctx.isCorrectionYear then CorrectionStep(ctx, inst, normalReturn, drawn, u)
    else if acc.correction.isInCorrection then CorrectionRecoveryStep(ctx, inst, normalReturn, drawn)
    else QuietStep(ctx, inst, normalReturn, drawn)
  }

  /** The per-instrument loop: the instruments in order, each seeing the records the previous one left. */
  function StepInstruments(ctx: YearContext, insts: seq<Instrument>, acc: YearAcc, u: Draws): (r: YearAcc)
    requires UnitDraws(u) && StepSafe(ctx, acc)
    ensures StepSafe(ctx, r)
    ensures |r.rows| == |acc.rows| + |insts| && r.rows[..|acc.rows|] == acc.rows
    ensures r.cursor >= acc.cursor
    ensures !ctx.isCrashYear ==> r.crashImpact == acc.crashImpact
    ensures !ctx.isCrashYear && r.recovery.isRecovering ==> acc.recovery.isRecovering
    ensures r.correction.isInCorrection ==> acc.correction.isInCorrection
    ensures ctx.isCrashYear && |insts| > 0 ==> Product(r.recovery.yearlyRecoveryAmount, r.recovery.totalRecoveryTime) == r.crashImpact
    ensures ctx.isCrashYear && |insts| > 0 && r.recovery.isRecovering ==> r.recovery.recoveryTimeRemaining < 1.0
    ensures ctx.isCrashYear && |insts| > 0 ==> (r.recovery.isRecovering <==> r.recovery.totalRecoveryTime > 1.0)
    ensures r.newTotalValue == acc.newTotalValue + RowValuesFrom(r.rows, |acc.rows|)
    decreases |insts|
  {
    if |insts| == 0 then acc
    else
      var before := StepInstruments(ctx, insts[..|insts| - 1], acc, u);
      var r := InstrumentStep(ctx, insts[|insts| - 1], before, u);
      assert r.rows[..|r.rows| - 1] == before.rows;
      r
  }

  /**
   * A quiet year of a single instrument that holds the whole portfolio, without contributions:
   * the year's total is last year's value grown by the instrument's return.
   */
  lemma SoleInstrumentQuietYear(ctx: YearContext, inst: Instrument, acc: YearAcc, u: Draws)
    requires UnitDraws(u) && StepSafe(ctx, acc)
    requires inst.percentage == 100.0 && ctx.annualContribution == 0.0 && acc.rows == [] && acc.newTotalValue == 0.0
    requires !ctx.isCrashYear && !ctx.isCorrectionYear && !acc.recovery.isRecovering && !acc.correction.isInCorrection
    ensures var r := StepInstruments(ctx, [inst], acc, u);
      |r.rows| == 1 && r.newTotalValue == Grow(ctx.currentValue, r.rows[0].annualReturn)
  {
    assert [inst][..0] == [];
    assert StepInstruments(ctx, [inst], acc, u) == InstrumentStep(ctx, inst, acc, u);
    assert AllocationOf(ctx.currentValue, inst.percentage) == ctx.currentValue;
  }

  /** Folding one more instrument is one more step after the fold of the ones before it. */
  lemma StepInstrumentsExtend(ctx: YearContext, insts: seq<Instrument>, i: nat, acc: YearAcc, u: Draws)
    requires UnitDraws(u) && StepSafe(ctx, acc) && i < |insts|
    ensures StepSafe(ctx, StepInstruments(ctx, insts[..i], acc, u))
    ensures StepInstruments(ctx, insts[..i + 1], acc, u)
      == InstrumentStep(ctx, insts[i], StepInstruments(ctx, insts[..i], acc, u), u)
  {
    assert insts[..i + 1][..i] == insts[..i];
  }

  /** The sum of the values of the breakdown lines from position `from` on. */
  function RowValuesFrom(rows: seq<InstrumentRow>, from: nat): real
  {
    if |rows| <= from then 0.0 else RowValuesFrom(rows[..|rows| - 1], from) + rows[|rows| - 1].value
  }

  /** The amounts a year accumulates, and the repayments it carries, are non-negative. */
  predicate AccNonNegative(acc: YearAcc)
  {
    && acc.newTotalValue >= 0.0
    && acc.crashImpact >= 0.0
    && acc.correctionImpact >= 0.0
    && acc.recoveryImpact >= 0.0
    && acc.recovery.yearlyRecoveryAmount >= 0.0
    && acc.correction.yearlyRecoveryAmount >= 0.0
  }

  /** Repayments are only taken from a positive portfolio value. */
  predicate RepaysFromPositive(ctx: YearContext, acc: YearAcc)
  {
    !ctx.isCrashYear && (acc.recovery.isRecovering || acc.correction.isInCorrection) ==> ctx.currentValue > 0.0
  }

  /** Neither the portfolio value nor the contribution is negative. */
  predicate Funded(ctx: YearContext)
  {
    ctx.currentValue >= 0.0 && ctx.annualContribution >= 0.0
  }

  /** Growth plus the grown contribution: non-negative, and positive when there is money in or coming in. */
  lemma BaseValueSign(ctx: YearContext, percentage: real, ret: real)
    requires Funded(ctx) && percentage > 0.0 && ret >= -95.0
    ensures var base := Grow(AllocationOf(ctx.currentValue, percentage), ret)
      + ContributionWithGrowth(ctx.annualContribution, percentage, ret);
      base >= 0.0 && (ctx.currentValue > 0.0 || ctx.annualContribution > 0.0 ==> base > 0.0)
  {
    AllocationSign(ctx.currentValue, percentage);
    GrowSign(AllocationOf(ctx.currentValue, percentage), ret);
    ContributionSign(ctx.annualContribution, percentage, ret);
  }

  /** A shocked instrument is worth at least its grown contribution, and more when it held something. */
  lemma ShockedValueSign(allocation: real, contribution: real, ret: real, magnitude: real, gold: bool)
    requires allocation >= 0.0 && contribution >= 0.0 && ret >= -95.0
    requires gold ==> -25.0 < magnitude <= -5.0
    requires !gold ==> 0.0 <= magnitude < 100.0
    ensures var grown := Grow(allocation, ret);
      var loss := if gold then 0.0 else LossOf(grown, Abs(magnitude));
      var value := if gold then Grow(allocation, ret + Abs(magnitude)) + contribution else grown - loss + contribution;
      && loss >= 0.0 && value >= contribution
      && (allocation > 0.0 ==> value > contribution)
  {
    GrowSign(allocation, ret);
    if gold {
      GrowSign(allocation, ret + Abs(magnitude));
    } else {
      LossWithinAmount(Grow(allocation, ret), Abs(magnitude));
    }
  }

  lemma CrashStepKeepsSigns(ctx: YearContext, inst: Instrument, ret: real, acc: YearAcc, u: Draws)
    requires UnitDraws(u) && Funded(ctx) && inst.percentage > 0.0 && ret >= -95.0 && AccNonNegative(acc)
    ensures var r := CrashStep(ctx, inst, ret, acc, u);
      && AccNonNegative(r) && r.newTotalValue >= acc.newTotalValue
      && (ctx.currentValue > 0.0 || ctx.annualContribution > 0.0 ==> r.newTotalValue > acc.newTotalValue)
  {
    var allocation := AllocationOf(ctx.currentValue, inst.percentage);
    var contribution := ContributionWithGrowth(ctx.annualContribution, inst.percentage, ret);
    AllocationSign(ctx.currentValue, inst.percentage);
    ContributionSign(ctx.annualContribution, inst.percentage, ret);
    ShockedValueSign(allocation, contribution, ret, CrashLoss(inst.name, u(acc.cursor)), IsGold(inst.name));
  }

  lemma CorrectionStepKeepsSigns(ctx: YearContext, inst: Instrument, ret: real, acc: YearAcc, u: Draws)
    requires UnitDraws(u) && Funded(ctx) && inst.percentage > 0.0 && ret >= -95.0 && AccNonNegative(acc)
    ensures var r := CorrectionStep(ctx, inst, ret, acc, u);
      && AccNonNegative(r) && r.newTotalValue >= acc.newTotalValue
      && (ctx.currentValue > 0.0 || ctx.annualContribution > 0.0 ==> r.newTotalValue > acc.newTotalValue)
  {
    var allocation := AllocationOf(ctx.currentValue, inst.percentage);
    var contribution := ContributionWithGrowth(ctx.annualContribution, inst.percentage, ret);
    AllocationSign(ctx.currentValue, inst.percentage);
    ContributionSign(ctx.annualContribution, inst.percentage, ret);
    ShockedValueSign(allocation, contribution, ret, CorrectionLoss(inst.name, u(acc.cursor)), IsGold(inst.name));
  }

  /**
   * Every instrument adds a non-negative value to the year, and a positive one when there is
   * money in the portfolio or coming in; the repayment records stay non-negative.
   */
  lemma InstrumentStepKeepsSigns(ctx: YearContext, inst: Instrument, acc: YearAcc, u: Draws)
    requires UnitDraws(u) && StepSafe(ctx, acc) && Funded(ctx) && inst.percentage > 0.0
    requires AccNonNegative(acc) && RepaysFromPositive(ctx, acc)
    ensures var r := InstrumentStep(ctx, inst, acc, u);
      && AccNonNegative(r) && RepaysFromPositive(ctx, r) && r.newTotalValue >= acc.newTotalValue
      && (ctx.currentValue > 0.0 || ctx.annualContribution > 0.0 ==> r.newTotalValue > acc.newTotalValue)
  {
    var c := acc.cursor;
    var ret := RandomReturn(inst.returnRange, 1.0, inst.name, u(c), u(c + 1));
    var drawn := acc.(cursor := c + 2);
    BaseValueSign(ctx, inst.percentage, ret);
    if ctx.isCrashYear {
      CrashStepKeepsSigns(ctx, inst, ret, drawn, u);
    } else if acc.recovery.isRecovering {
      AllocationSign(ctx.currentValue, inst.percentage);
      RepaymentSign(AllocationOf(ctx.currentValue, inst.percentage), ctx.currentValue, acc.recovery.yearlyRecoveryAmount);
    } else if ctx.isCorrectionYear {
      CorrectionStepKeepsSigns(ctx, inst, ret, drawn, u);
    } else if acc.correction.isInCorrection {
      AllocationSign(ctx.currentValue, inst.percentage);
      RepaymentSign(AllocationOf(ctx.currentValue, inst.percentage), ctx.currentValue, acc.correction.yearlyRecoveryAmount);
    }
  }

  /** The year's new total is non-negative, and positive for a funded allocation with positive weights. */
  lemma {:induction false} StepInstrumentsKeepsSigns(ctx: YearContext, insts: seq<Instrument>, acc: YearAcc, u: Draws)
    requires UnitDraws(u) && StepSafe(ctx, acc) && Funded(ctx)
    requires forall i :: 0 <= i < |insts| ==> insts[i].percentage > 0.0
    requires AccNonNegative(acc) && RepaysFromPositive(ctx, acc)
    ensures var r := StepInstruments(ctx, insts, acc, u);
      && AccNonNegative(r) && RepaysFromPositive(ctx, r) && r.newTotalValue >= acc.newTotalValue
      && (|insts| > 0 && (ctx.currentValue > 0.0 || ctx.annualContribution > 0.0) ==> r.newTotalValue > acc.newTotalValue)
    decreases |insts|
  {
    if |insts| > 0 {
      var prefix := insts[..|insts| - 1];
      StepInstrumentsKeepsSigns(ctx, prefix, acc, u);
      InstrumentStepKeepsSigns(ctx, insts[|insts| - 1], StepInstruments(ctx, prefix, acc, u), u);
    }
  }

  /**
   * A recovery year that starts with at most one year left pays the first instrument its weight's
   * share of the yearly amount and then ends the recovery, so no later instrument is paid.
   */
  lemma {:induction false} RecoveryYearPaysFirstOnly(ctx: YearContext, insts: seq<Instrument>, acc: YearAcc, u: Draws)
    requires UnitDraws(u) && !ctx.isCrashYear && !ctx.isCorrectionYear && ctx.currentValue != 0.0
    requires acc.recovery.isRecovering && acc.recovery.totalRecoveryTime > 0.0 && acc.recovery.recoveryTimeRemaining <= 1.0
    requires !acc.correction.isInCorrection && |insts| > 0
    ensures var r := StepInstruments(ctx, insts, acc, u);
      && !r.recovery.isRecovering
      && r.recoveryImpact == acc.recoveryImpact + Product(insts[0].percentage / 100.0, acc.recovery.yearlyRecoveryAmount)
    decreases |insts|
  {
    var prefix := insts[..|insts| - 1];
    if |prefix| == 0 {
      assert StepInstruments(ctx, prefix, acc, u) == acc;
      assert StepInstruments(ctx, insts, acc, u) == InstrumentStep(ctx, insts[0], acc, u);
      LastRecoveryPayment(ctx, insts[0], acc, u);
    } else {
      RecoveryYearPaysFirstOnly(ctx, prefix, acc, u);
      assert prefix[0] == insts[0];
      var before := StepInstruments(ctx, prefix, acc, u);
      assert !before.recovery.isRecovering && !before.correction.isInCorrection;
      assert StepInstruments(ctx, insts, acc, u) == InstrumentStep(ctx, insts[|insts| - 1], before, u);
    }
  }

  /** An instrument that meets a recovery with at most a year left is paid its weight's share and closes it. */
  lemma LastRecoveryPayment(ctx: YearContext, inst: Instrument, acc: YearAcc, u: Draws)
    requires UnitDraws(u) && !ctx.isCrashYear && !ctx.isCorrectionYear && ctx.currentValue != 0.0
    requires acc.recovery.isRecovering && acc.recovery.totalRecoveryTime > 0.0 && acc.recovery.recoveryTimeRemaining <= 1.0
    ensures var r := InstrumentStep(ctx, inst, acc, u);
      && !r.recovery.isRecovering
      && r.recoveryImpact == acc.recoveryImpact + Product(inst.percentage / 100.0, acc.recovery.yearlyRecoveryAmount)
  {
    RepaymentIsWeighted(ctx.currentValue, inst.percentage, acc.recovery.yearlyRecoveryAmount);
  }

  /**
   * A crash is only repaid in part. A crash year leaves a recovery spread over more than one year
   * with less than a year remaining (`StepInstruments`); the next quiet year repays only the first
   * instrument's share of the yearly amount, which is less than the crash impact, and closes it.
   */
  lemma CrashRepaidInPart(next: YearContext, insts: seq<Instrument>, rec: RecoveryState, crashImpact: real, start: YearAcc, u: Draws)
    requires UnitDraws(u) && !next.isCrashYear && !next.isCorrectionYear && next.currentValue != 0.0
    requires rec.isRecovering && rec.totalRecoveryTime > 1.0 && rec.recoveryTimeRemaining < 1.0
    requires Product(rec.yearlyRecoveryAmount, rec.totalRecoveryTime) == crashImpact && crashImpact > 0.0
    requires start.recovery == rec && !start.correction.isInCorrection && start.recoveryImpact == 0.0
    requires |insts| > 0 && 0.0 < insts[0].percentage <= 100.0
    ensures StepInstruments(next, insts, start, u).recoveryImpact < crashImpact
    ensures !StepInstruments(next, insts, start, u).recovery.isRecovering
  {
    var w := insts[0].percentage / 100.0;
    RecoveryYearPaysFirstOnly(next, insts, start, u);
    PartOfSpreadAmount(rec.yearlyRecoveryAmount, rec.totalRecoveryTime, crashImpact, w);
  }

  /** A weight's part of an amount spread over more than one year is less than the whole. */
  lemma PartOfSpreadAmount(yearly: real, total: real, whole: real, w: real)
    requires Product(yearly, total) == whole && whole > 0.0 && total > 1.0 && 0.0 < w <= 1.0
    ensures Product(w, yearly) < whole
  {
    if yearly > 0.0 {
      ProductAtMost(yearly, w);
      assert Product(w, yearly) == Product(yearly, w);
      ProductAbove(yearly, total);
    } else {
      ProductNonNegative(w, -yearly);
      assert Product(w, -yearly) == -Product(w, yearly);
    }
  }
}
