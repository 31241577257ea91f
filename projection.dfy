/**
 * The yearly projection: year 0 is a snapshot of the initial sum; every later year draws the
 * inflation rate, schedules a crash or a correction when no repayment is under way, folds the
 * instruments, tracks peak, lowest value, drawdown and the margin call, and appends one
 * breakdown and one chart point.
 */
module Projection {
  import opened Wrappers
  import opened Allocation
  import opened Samplers
  import opened RealArith
  import opened Statistics
  import opened YearStep

  /** JavaScript's `Math.round`: the nearest integer, halves rounded up. */
  function Round(x: real): (n: int)
    ensures x - 0.5 < n as real <= x + 0.5
  {
    (x + 0.5).Floor
  }

  /** One year of the breakdown table; year 0 leaves the event fields undefined (`false`, `None`). */
  datatype YearlyCalculation = YearlyCalculation(
    year: nat,
    instruments: seq<InstrumentRow>,
    totalValue: real,
    totalInvested: real,
    isCrashYear: bool,
    isRecoveryYear: bool,
    isCorrectionYear: bool,
    recoveryTimeRemaining: Option<real>,
    correctionRecoveryTimeRemaining: Option<real>,
    volatileValue: real,
    drawdownFromPeak: real,
    isLowestPoint: bool,
    isMarginCall: bool,
    netImpact: Option<int>)

  /** One point of the chart series, rounded as the calculator rounds it. */
  datatype ProjectionPoint = ProjectionPoint(
    year: nat,
    value: int,
    invested: real,
    bestCase: int,
    worstCase: int,
    volatileValue: int,
    contributions: int,
    growth: int,
    inflationAdjustedValue: int,
    annualInflation: real)

  /** The running statistics the year loop keeps. */
  datatype Tracker = Tracker(
    peakValue: real,
    peakValueYear: nat,
    lowestValue: real,
    lowestValueYear: nat,
    maxDrawdownPercent: real,
    maxDrawdownYear: nat,
    isMarginCalled: bool,
    marginCallYear: Option<nat>)

  /** The statistics after a year, with what that year's breakdown records and the value carried on. */
  datatype Tracked = Tracked(
    tracker: Tracker,
    isLowestPoint: bool,
    drawdownFromPeak: real,
    isMarginCall: bool,
    carriedValue: real)

  datatype DrawdownStats = DrawdownStats(
    lowestValue: int,
    lowestValueYear: nat,
    maxDrawdownPercent: real,
    maxDrawdownYear: nat,
    peakValue: int,
    peakValueYear: nat,
    isMarginCalled: bool,
    marginCallYear: Option<nat>)

  datatype PerformanceMetrics = PerformanceMetrics(
    cagr: Cagr,
    sharpeRatio: Sharpe,
    totalContributions: int,
    totalGrowth: int,
    inflationImpact: int)

  datatype ProjectionResult = ProjectionResult(
    projectionData: seq<ProjectionPoint>,
    yearlyCalculations: seq<YearlyCalculation>,
    drawdownStats: DrawdownStats,
    performanceMetrics: PerformanceMetrics)

  /** Everything the year loop carries from one year to the next. */
  datatype SimState = SimState(
    currentValue: real,
    tracker: Tracker,
    cumulativeInflation: real,
    totalContributions: real,
    annualReturns: seq<real>,
    recovery: RecoveryState,
    correction: CorrectionState,
    cursor: nat,
    yearlyCalculations: seq<YearlyCalculation>,
    projectionData: seq<ProjectionPoint>)

  /** The money the user has paid in by the given year. */
  function TotalInvested(inputs: InvestmentInputs, year: nat): real
  {
    inputs.initialSum + inputs.monthlyContribution * 12.0 * (year as real)
  }

  /** A year's contribution is what separates the invested amounts of consecutive years. */
  lemma TotalInvestedStep(inputs: InvestmentInputs, year: nat)
    ensures TotalInvested(inputs, year + 1) == TotalInvested(inputs, year) + inputs.monthlyContribution * 12.0
  {
    var c := inputs.monthlyContribution * 12.0;
    assert c * ((year + 1) as real) == c * (year as real) + c;
  }

  /** After a positive number of years, valid amounts have put money in. */
  lemma TotalInvestedPositive(inputs: InvestmentInputs, year: nat)
    requires ValidAmounts(inputs) && year > 0
    ensures TotalInvested(inputs, year) > 0.0
  {
    var c := inputs.monthlyContribution * 12.0;
    assert TotalInvested(inputs, year) == inputs.initialSum + Product(c, year as real);
    if inputs.monthlyContribution > 0.0 {
      ProductOfPositives(c, year as real);
    } else {
      ProductNonNegative(c, year as real);
    }
  }

  /** The amounts the calculator is given: nothing negative, and something to invest. */
  predicate ValidAmounts(inputs: InvestmentInputs)
  {
    inputs.initialSum >= 0.0 && inputs.monthlyContribution >= 0.0
    && (inputs.initialSum > 0.0 || inputs.monthlyContribution > 0.0)
  }

  const CrashProbability: real := 0.187

  const CorrectionProbability: real := 0.5

  /** The year's events and the cursor past the draws that decided them. */
  datatype Events = Events(isCrashYear: bool, isCorrectionYear: bool, cursor: nat)

  /**
   * A crash is drawn only when neither repayment is under way; a correction only when, in
   * addition, no crash was drawn. Each test consumes a draw only when it is reached.
   */
  function ScheduleEvents(recovery: RecoveryState, correction: CorrectionState, cursor: nat, u: Draws): (e: Events)
    ensures !(e.isCrashYear && e.isCorrectionYear)
    ensures recovery.isRecovering || correction.isInCorrection ==>
      !e.isCrashYear && !e.isCorrectionYear && e.cursor == cursor
    ensures !recovery.isRecovering && !correction.isInCorrection ==>
      && (e.isCrashYear <==> u(cursor) < CrashProbability)
      && (e.isCorrectionYear <==> u(cursor) >= CrashProbability && u(cursor + 1) < CorrectionProbability)
      && e.cursor == cursor + (if e.isCrashYear then 1 else 2)
  {
    var idle := !recovery.isRecovering && !correction.isInCorrection;
    var isCrashYear := idle && u(cursor) < CrashProbability;
    var afterCrashDraw := if idle then cursor + 1 else cursor;
    var isCorrectionYear := !isCrashYear && idle && u(afterCrashDraw) < CorrectionProbability;
    var afterCorrectionDraw := if !isCrashYear && idle then afterCrashDraw + 1 else afterCrashDraw;
    Events(isCrashYear, isCorrectionYear, afterCorrectionDraw)
  }

  /**
   * The statistics step after a year's new total. Peak and lowest value are a running maximum and
   * minimum; the drawdown from the peak is never negative and the maximum drawdown is its running
   * maximum. The margin call latches: it fires only the first time the total is at most zero, and
   * only that year's carried value is set to zero.
   */
  function TrackYear(t: Tracker, year: nat, newTotalValue: real): (r: Tracked)
    requires t.maxDrawdownPercent >= 0.0
    ensures r.tracker.peakValue == Max(t.peakValue, newTotalValue)
    ensures r.tracker.peakValueYear == (if newTotalValue > t.peakValue then year else t.peakValueYear)
    ensures r.tracker.lowestValue == Min(t.lowestValue, newTotalValue)
    ensures r.isLowestPoint <==> newTotalValue < t.lowestValue
    ensures r.tracker.lowestValueYear == (if r.isLowestPoint then year else t.lowestValueYear)
    ensures 0.0 <= r.drawdownFromPeak
    ensures newTotalValue >= 0.0 ==> r.drawdownFromPeak <= 100.0
    ensures r.tracker.maxDrawdownPercent == Max(t.maxDrawdownPercent, r.drawdownFromPeak)
    ensures r.tracker.maxDrawdownYear == (if r.drawdownFromPeak > t.maxDrawdownPercent then year else t.maxDrawdownYear)
    ensures r.isMarginCall <==> !t.isMarginCalled && newTotalValue <= 0.0
    ensures r.tracker.isMarginCalled <==> t.isMarginCalled || newTotalValue <= 0.0
    ensures r.tracker.marginCallYear == (if r.isMarginCall then Some(year) else t.marginCallYear)
    ensures r.carriedValue == (if r.isMarginCall then 0.0 else newTotalValue)
  {
    var peakValue := if newTotalValue > t.peakValue then newTotalValue else t.peakValue;
    var peakValueYear := if newTotalValue > t.peakValue then year else t.peakValueYear;
    var isLowestPoint := newTotalValue < t.lowestValue;
    var lowestValue := if isLowestPoint then newTotalValue else t.lowestValue;
    var lowestValueYear := if isLowestPoint then year else t.lowestValueYear;
    var currentDrawdown := if peakValue > 0.0 then ((peakValue - newTotalValue) / peakValue) * 100.0 else 0.0;
    DrawdownWithinPercent(peakValue, newTotalValue);
    var raised := currentDrawdown > t.maxDrawdownPercent;
    var isMarginCall := newTotalValue <= 0.0 && !t.isMarginCalled;
    Tracked(
      Tracker(peakValue, peakValueYear, lowestValue, lowestValueYear,
        if raised then currentDrawdown else t.maxDrawdownPercent,
        if raised then year else t.maxDrawdownYear,
        t.isMarginCalled || isMarginCall,
        if isMarginCall then Some(year) else t.marginCallYear),
      isLowestPoint,
      Max(0.0, currentDrawdown),
      isMarginCall,
      if isMarginCall then 0.0 else newTotalValue)
  }

  /** The drawdown of a value from a peak at least as high is between 0 and 100 percent. */
  lemma DrawdownWithinPercent(peakValue: real, value: real)
    requires value <= peakValue
    ensures peakValue > 0.0 ==> ((peakValue - value) / peakValue) * 100.0 >= 0.0
    ensures peakValue > 0.0 && value >= 0.0 ==> ((peakValue - value) / peakValue) * 100.0 <= 100.0
  {
    if peakValue > 0.0 {
      NonNegativeQuotient(peakValue - value, peakValue);
      if value >= 0.0 {
        QuotientAtMostOne(peakValue - value, peakValue);
      }
    }
  }

  /** The value of the cumulative inflation factor after a year at the given rate. */
  function Inflate(cumulativeInflation: real, annualInflation: real): real
  {
    cumulativeInflation * (1.0 + annualInflation / 100.0)
  }

  lemma InflateKeepsAtLeastOne(cumulativeInflation: real, annualInflation: real)
    requires cumulativeInflation >= 1.0 && annualInflation >= 0.0
    ensures Inflate(cumulativeInflation, annualInflation) >= cumulativeInflation
  {
    var f := 1.0 + annualInflation / 100.0;
    ProductNonNegative(cumulativeInflation, f - 1.0);
    assert Product(cumulativeInflation, f - 1.0) == Inflate(cumulativeInflation, annualInflation) - cumulativeInflation;
  }

  /** A chart point: the carried value and the figures derived from it, rounded. */
  function MakePoint(year: nat, currentValue: real, totalInvested: real, contributions: real,
                     totalContributions: real, cumulativeInflation: real, annualInflation: real): (p: ProjectionPoint)
    requires cumulativeInflation > 0.0
    ensures p.year == year && p.invested == totalInvested && p.value == Round(currentValue)
  {
    ProjectionPoint(
      year,
      Round(currentValue),
      totalInvested,
      Round(currentValue * 1.3),
      Round(currentValue * 0.7),
      Round(currentValue),
      Round(contributions),
      Round(currentValue - totalContributions),
      Round(currentValue / cumulativeInflation),
      (Round(annualInflation * 100.0) as real) / 100.0)
  }

  /** The year-0 breakdown lines: each instrument's allocation of the initial sum. */
  function InitialRows(insts: seq<Instrument>, currentValue: real): (rows: seq<InstrumentRow>)
    ensures |rows| == |insts|
  {
    seq(|insts|, i requires 0 <= i < |insts| =>
      InstrumentRow(insts[i].name, insts[i].percentage, 0.0, AllocationOf(currentValue, insts[i].percentage),
        None, None, false, false, None, None))
  }

  /** The loop's state before its first iteration. */
  function PreLoop(inputs: InvestmentInputs): (s: SimState)
    ensures s.projectionData == [] && s.yearlyCalculations == [] && s.annualReturns == []
  {
    var v := inputs.initialSum;
    SimState(v, Tracker(v, 0, v, 0, 0.0, 0, false, None), 1.0, v, [],
      IdleRecovery, IdleCorrection, 0, [], [])
  }

  /** Year 0: a snapshot of the initial sum that draws nothing. */
  function SnapshotYear(inputs: InvestmentInputs, insts: seq<Instrument>, s: SimState): (r: SimState)
    requires s.cumulativeInflation > 0.0
    ensures |r.projectionData| == |s.projectionData| + 1 && r.projectionData[..|s.projectionData|] == s.projectionData
    ensures |r.yearlyCalculations| == |s.yearlyCalculations| + 1 && r.yearlyCalculations[..|s.yearlyCalculations|] == s.yearlyCalculations
    ensures r.projectionData[|s.projectionData|].year == 0 && r.yearlyCalculations[|s.yearlyCalculations|].year == 0
    ensures r.projectionData[|s.projectionData|].value == Round(s.currentValue)
    ensures r.projectionData[|s.projectionData|].invested == inputs.initialSum
    ensures r.yearlyCalculations[|s.yearlyCalculations|].totalValue == s.currentValue
    ensures r.currentValue == s.currentValue && r.tracker == s.tracker && r.cursor == s.cursor
    ensures r.annualReturns == s.annualReturns && r.recovery == s.recovery && r.correction == s.correction
  {
    var breakdown := YearlyCalculation(0, InitialRows(insts, s.currentValue), s.currentValue, TotalInvested(inputs, 0),
      false, false, false, None, None, s.currentValue, 0.0, false, false, None);
    var point := MakePoint(0, s.currentValue, TotalInvested(inputs, 0), inputs.initialSum,
      s.totalContributions, s.cumulativeInflation, 0.0);
    s.(yearlyCalculations := s.yearlyCalculations + [breakdown], projectionData := s.projectionData + [point])
  }

  /** What a year after year 0 needs to be defined. */
  predicate YearReady(s: SimState)
  {
    && |s.projectionData| >= 1
    && |s.yearlyCalculations| == |s.projectionData|
    && s.cumulativeInflation >= 1.0
    && s.tracker.maxDrawdownPercent >= 0.0
    && (s.recovery.isRecovering ==> s.recovery.totalRecoveryTime > 0.0)
    && (s.recovery.isRecovering || s.correction.isInCorrection ==> s.currentValue != 0.0)
  }

  /**
   * The figure shown as the year's net impact: the crash, else the correction, else the repayment.
   * A crash or correction shows as a loss; a repayment alone as a gain.
   */
  function NetImpact(acc: YearAcc): (r: real)
    ensures acc.crashImpact > 0.0 ==> r == -acc.crashImpact
    ensures acc.crashImpact <= 0.0 && acc.correctionImpact > 0.0 ==> r == -acc.correctionImpact
    ensures acc.crashImpact <= 0.0 && acc.correctionImpact <= 0.0 ==> r == Max(0.0, acc.recoveryImpact)
    ensures r < 0.0 <==> acc.crashImpact > 0.0 || acc.correctionImpact > 0.0
    ensures r > 0.0 <==> acc.crashImpact <= 0.0 && acc.correctionImpact <= 0.0 && acc.recoveryImpact > 0.0
  {
    if acc.crashImpact > 0.0 then -acc.crashImpact
    else if acc.correctionImpact > 0.0 then -acc.correctionImpact
    else if acc.recoveryImpact > 0.0 then acc.recoveryImpact
    else 0.0
  }

  /** What a year fixes before its instruments are folded: the inflation rate and the events. */
  datatype YearOpening = YearOpening(annualInflation: real, events: Events)

  /** The year's inflation draw, then its crash and correction draws. */
  function OpenYear(s: SimState, u: Draws): (o: YearOpening)
    requires UnitDraws(u)
    ensures 1.5 <= o.annualInflation < 4.0
  {
    YearOpening(InflationRate(u(s.cursor), u(s.cursor + 1)), ScheduleEvents(s.recovery, s.correction, s.cursor + 2, u))
  }

  /** The year as every instrument sees it: the value carried in, the contribution and the events. */
  function ContextOf(inputs: InvestmentInputs, s: SimState, o: YearOpening): YearContext
  {
    YearContext(s.currentValue, inputs.monthlyContribution * 12.0, o.events.isCrashYear, o.events.isCorrectionYear)
  }

  /** The fold's starting accumulator: nothing summed yet, the repayment records carried in. */
  function StartOf(s: SimState, o: YearOpening): YearAcc
  {
    YearAcc(s.recovery, s.correction, o.events.cursor, 0.0, 0.0, 0.0, 0.0, [])
  }

  /** The year's return in percent against the previous chart value; zero when that value is not positive. */
  function AnnualReturn(previousValue: real, currentValue: real): (r: real)
    ensures previousValue > 0.0 ==> r * previousValue == (currentValue - previousValue) * 100.0
    ensures previousValue > 0.0 ==> (r >= 0.0 <==> currentValue >= previousValue)
    ensures previousValue <= 0.0 ==> r == 0.0
  {
    if previousValue > 0.0 then
      QuotientSignIff(currentValue - previousValue, previousValue);
      ((currentValue - previousValue) / previousValue) * 100.0
    else 0.0
  }

  /** The year after its instruments are folded and its statistics updated: breakdown, annual return and chart point. */
  function CloseYear(inputs: InvestmentInputs, s: SimState, o: YearOpening, acc: YearAcc, tracked: Tracked): (r: SimState)
    requires YearReady(s) && o.annualInflation >= 0.0
    ensures |r.projectionData| == |s.projectionData| + 1 && r.projectionData[..|s.projectionData|] == s.projectionData
    ensures |r.yearlyCalculations| == |s.yearlyCalculations| + 1 && r.yearlyCalculations[..|s.yearlyCalculations|] == s.yearlyCalculations
    ensures |r.annualReturns| == |s.annualReturns| + 1 && r.annualReturns[..|s.annualReturns|] == s.annualReturns
    ensures r.projectionData[|s.projectionData|].year == |s.projectionData|
    ensures r.projectionData[|s.projectionData|].invested == TotalInvested(inputs, |s.projectionData|)
    ensures r.cumulativeInflation >= s.cumulativeInflation
    ensures r.totalContributions == s.totalContributions + inputs.monthlyContribution * 12.0
    ensures r.recovery == acc.recovery && r.correction == acc.correction
    ensures var b := r.yearlyCalculations[|s.yearlyCalculations|];
      && b.year == |s.projectionData|
      && b.totalValue == acc.newTotalValue && b.instruments == acc.rows
      && b.isCrashYear == o.events.isCrashYear && b.isCorrectionYear == o.events.isCorrectionYear
      && b.isRecoveryYear == s.recovery.isRecovering
      && r.tracker == tracked.tracker
      && b.drawdownFromPeak == tracked.drawdownFromPeak && b.isMarginCall == tracked.isMarginCall
      && r.currentValue == tracked.carriedValue
  {
    var year := |s.projectionData|;
    var totalInvested := TotalInvested(inputs, year);
    var annualContribution := inputs.monthlyContribution * 12.0;
    InflateKeepsAtLeastOne(s.cumulativeInflation, o.annualInflation);
    var cumulativeInflation := Inflate(s.cumulativeInflation, o.annualInflation);
    var totalContributions := s.totalContributions + annualContribution;
    var breakdown := YearlyCalculation(year, acc.rows, acc.newTotalValue, totalInvested,
      o.events.isCrashYear, s.recovery.isRecovering, o.events.isCorrectionYear,
      Some(s.recovery.recoveryTimeRemaining), Some(s.correction.correctionTimeRemaining),
      acc.newTotalValue, tracked.drawdownFromPeak, tracked.isLowestPoint, tracked.isMarginCall,
      Some(Round(NetImpact(acc))));
    var currentValue := tracked.carriedValue;
    var annualReturn := AnnualReturn(s.projectionData[year - 1].value as real, currentValue);
    var point := MakePoint(year, currentValue, totalInvested, annualContribution, totalContributions,
      cumulativeInflation, o.annualInflation);
    SimState(currentValue, tracked.tracker, cumulativeInflation, totalContributions, s.annualReturns + [annualReturn],
      acc.recovery, acc.correction, acc.cursor, s.yearlyCalculations + [breakdown], s.projectionData + [point])
  }

  /** One iteration of the year loop after year 0. */
  function SimulateYear(inputs: InvestmentInputs, insts: seq<Instrument>, s: SimState, u: Draws): (r: SimState)
    requires UnitDraws(u) && YearReady(s)
    ensures |r.projectionData| == |s.projectionData| + 1 && r.projectionData[..|s.projectionData|] == s.projectionData
    ensures |r.yearlyCalculations| == |s.yearlyCalculations| + 1 && r.yearlyCalculations[..|s.yearlyCalculations|] == s.yearlyCalculations
    ensures |r.annualReturns| == |s.annualReturns| + 1 && r.annualReturns[..|s.annualReturns|] == s.annualReturns
    ensures r.projectionData[|s.projectionData|].year == |s.projectionData|
    ensures r.projectionData[|s.projectionData|].invested == TotalInvested(inputs, |s.projectionData|)
    ensures r.cumulativeInflation >= s.cumulativeInflation
    ensures r.tracker.maxDrawdownPercent >= s.tracker.maxDrawdownPercent
    ensures var b := r.yearlyCalculations[|s.yearlyCalculations|];
      && b.year == |s.projectionData|
      && !(b.isCrashYear && b.isCorrectionYear)
      && (b.isRecoveryYear <==> s.recovery.isRecovering)
      && (s.recovery.isRecovering || s.correction.isInCorrection ==> !b.isCrashYear && !b.isCorrectionYear)
      && (b.isMarginCall <==> !s.tracker.isMarginCalled && b.totalValue <= 0.0)
      && (r.tracker.isMarginCalled <==> s.tracker.isMarginCalled || b.totalValue <= 0.0)
      && r.tracker.marginCallYear == (if b.isMarginCall then Some(|s.projectionData|) else s.tracker.marginCallYear)
      && r.currentValue == (if b.isMarginCall then 0.0 else b.totalValue)
    ensures r.totalContributions == s.totalContributions + inputs.monthlyContribution * 12.0
  {
    var o := OpenYear(s, u);
    var acc := StepInstruments(ContextOf(inputs, s, o), insts, StartOf(s, o), u);
    CloseYear(inputs, s, o, acc, TrackYear(s.tracker, |s.projectionData|, acc.newTotalValue))
  }

  /** The chart and breakdown history of a run: one entry per year, in order, with its invested amount. */
  ghost predicate History(inputs: InvestmentInputs, s: SimState)
  {
    && |s.yearlyCalculations| == |s.projectionData|
    && (forall k :: 0 <= k < |s.projectionData| ==>
          s.projectionData[k].year == k && s.projectionData[k].invested == TotalInvested(inputs, k))
    && (forall k :: 0 <= k < |s.yearlyCalculations| ==>
          && s.yearlyCalculations[k].year == k
          && !s.yearlyCalculations[k].isMarginCall
          && s.yearlyCalculations[k].totalValue >= 0.0
          && (k > 0 ==> s.yearlyCalculations[k].totalValue > 0.0)
          && s.tracker.lowestValue <= s.yearlyCalculations[k].totalValue <= s.tracker.peakValue
          && s.yearlyCalculations[k].drawdownFromPeak <= s.tracker.maxDrawdownPercent
          && !(s.yearlyCalculations[k].isCrashYear && s.yearlyCalculations[k].isCorrectionYear)
          && (s.yearlyCalculations[k].isRecoveryYear ==>
                !s.yearlyCalculations[k].isCrashYear && !s.yearlyCalculations[k].isCorrectionYear))
  }

  /**
   * What holds after every year of a run with valid amounts: the carried value is non-negative,
   * and positive once a year has passed or whenever a repayment is under way; no correction
   * repayment is ever pending; the repayment amounts are non-negative; no margin call has happened.
   */
  ghost predicate StateInv(inputs: InvestmentInputs, s: SimState)
  {
    && YearReady(s)
    && |s.annualReturns| == |s.projectionData| - 1
    && s.currentValue >= 0.0
    && (s.currentValue > 0.0 || inputs.monthlyContribution > 0.0)
    && (|s.projectionData| > 1 ==> s.currentValue > 0.0)
    && (s.recovery.isRecovering ==> s.currentValue > 0.0)
    && !s.correction.isInCorrection
    && s.recovery.yearlyRecoveryAmount >= 0.0
    && s.correction.yearlyRecoveryAmount >= 0.0
    && !s.tracker.isMarginCalled
    && s.tracker.marginCallYear == None
    && s.totalContributions == TotalInvested(inputs, |s.projectionData| - 1)
  }

  /** The state after year 0. */
  function InitialState(inputs: InvestmentInputs, insts: seq<Instrument>): SimState
  {
    SnapshotYear(inputs, insts, PreLoop(inputs))
  }

  lemma InitialStateInv(inputs: InvestmentInputs, insts: seq<Instrument>)
    requires ValidAmounts(inputs)
    ensures StateInv(inputs, InitialState(inputs, insts)) && History(inputs, InitialState(inputs, insts))
  {
  }

  /** With positive weights and valid amounts a year never ends at zero or below. */
  lemma YearTotalPositive(inputs: InvestmentInputs, insts: seq<Instrument>, s: SimState, u: Draws)
    requires UnitDraws(u) && ValidAmounts(inputs) && WellFormedAllocation(insts) && StateInv(inputs, s)
    ensures SimulateYear(inputs, insts, s, u).yearlyCalculations[|s.yearlyCalculations|].totalValue > 0.0
  {
    var o := OpenYear(s, u);
    StepInstrumentsKeepsSigns(ContextOf(inputs, s, o), insts, StartOf(s, o), u);
  }

  /** A year keeps the state part of the run invariant. */
  lemma SimulateYearKeepsState(inputs: InvestmentInputs, insts: seq<Instrument>, s: SimState, u: Draws)
    requires UnitDraws(u) && ValidAmounts(inputs) && WellFormedAllocation(insts) && StateInv(inputs, s)
    ensures StateInv(inputs, SimulateYear(inputs, insts, s, u))
  {
    var o := OpenYear(s, u);
    StepInstrumentsKeepsSigns(ContextOf(inputs, s, o), insts, StartOf(s, o), u);
    YearTotalPositive(inputs, insts, s, u);
    TotalInvestedStep(inputs, |s.projectionData| - 1);
  }

  /** A year appends a breakdown and a point that keep the history part of the run invariant. */
  lemma SimulateYearKeepsHistory(inputs: InvestmentInputs, insts: seq<Instrument>, s: SimState, u: Draws)
    requires UnitDraws(u) && ValidAmounts(inputs) && WellFormedAllocation(insts)
    requires StateInv(inputs, s) && History(inputs, s)
    ensures History(inputs, SimulateYear(inputs, insts, s, u))
  {
    var year := |s.projectionData|;
    YearTotalPositive(inputs, insts, s, u);
    var r := SimulateYear(inputs, insts, s, u);
    forall k | 0 <= k < |r.projectionData|
      ensures r.projectionData[k].year == k && r.projectionData[k].invested == TotalInvested(inputs, k)
    {
      if k < year {
        assert r.projectionData[k] == r.projectionData[..year][k];
      }
    }
    forall k | 0 <= k < |r.yearlyCalculations|
      ensures r.yearlyCalculations[k].drawdownFromPeak <= r.tracker.maxDrawdownPercent
      ensures r.tracker.lowestValue <= r.yearlyCalculations[k].totalValue <= r.tracker.peakValue
    {
      if k < year {
        assert r.yearlyCalculations[k] == r.yearlyCalculations[..year][k];
      }
    }
  }

  /** The state after years 0 to `n`; every such state satisfies the state part of the run invariant. */
  function RunYears(inputs: InvestmentInputs, insts: seq<Instrument>, n: nat, u: Draws): (s: SimState)
    requires UnitDraws(u) && ValidAmounts(inputs) && WellFormedAllocation(insts)
    ensures StateInv(inputs, s) && |s.projectionData| == n + 1
  {
    if n == 0 then
      InitialStateInv(inputs, insts);
      InitialState(inputs, insts)
    else
      var previous := RunYears(inputs, insts, n - 1, u);
      SimulateYearKeepsState(inputs, insts, previous, u);
      SimulateYear(inputs, insts, previous, u)
  }

  /** A run of `n` years after year 0 is one more simulated year after a run of `n - 1`. */
  lemma RunYearsNext(inputs: InvestmentInputs, insts: seq<Instrument>, n: nat, u: Draws)
    requires UnitDraws(u) && ValidAmounts(inputs) && WellFormedAllocation(insts) && n > 0
    ensures YearReady(RunYears(inputs, insts, n - 1, u))
    ensures RunYears(inputs, insts, n, u) == SimulateYear(inputs, insts, RunYears(inputs, insts, n - 1, u), u)
  {
  }

  /** Every state of a run satisfies the history part of the run invariant. */
  lemma {:induction false} RunYearsKeepsHistory(inputs: InvestmentInputs, insts: seq<Instrument>, n: nat, u: Draws)
    requires UnitDraws(u) && ValidAmounts(inputs) && WellFormedAllocation(insts)
    ensures History(inputs, RunYears(inputs, insts, n, u))
  {
    if n == 0 {
      InitialStateInv(inputs, insts);
    } else {
      var previous := RunYears(inputs, insts, n - 1, u);
      RunYearsKeepsHistory(inputs, insts, n - 1, u);
      SimulateYearKeepsHistory(inputs, insts, previous, u);
      RunYearsNext(inputs, insts, n, u);
    }
  }

  /** The number of years the loop runs for a horizon: years 0 to `period`. */
  function YearCount(period: int): nat
  {
    if period < 0 then 0 else period + 1
  }

  /** The loop's state once it has run for the horizon. */
  function FinalState(inputs: InvestmentInputs, insts: seq<Instrument>, period: int, u: Draws): (s: SimState)
    requires UnitDraws(u) && ValidAmounts(inputs) && WellFormedAllocation(insts)
    ensures |s.projectionData| == YearCount(period) && |s.yearlyCalculations| == YearCount(period)
    ensures |s.annualReturns| == (if period <= 0 then 0 else period)
    ensures s.cumulativeInflation >= 1.0
    ensures !s.tracker.isMarginCalled && s.tracker.marginCallYear == None
    ensures s.totalContributions == TotalInvested(inputs, if period < 0 then 0 else period)
  {
    if period < 0 then PreLoop(inputs)
    else
      RunYears(inputs, insts, period, u)
  }

  /** What the summary reads from the final state of a run over a horizon. */
  lemma FinalStateFacts(inputs: InvestmentInputs, insts: seq<Instrument>, period: int, u: Draws)
    requires UnitDraws(u) && ValidAmounts(inputs) && WellFormedAllocation(insts)
    ensures var s := FinalState(inputs, insts, period, u);
      && (period > 0 ==> s.totalContributions > 0.0)
      && (forall k :: 0 <= k < |s.projectionData| ==>
            s.projectionData[k].year == k
            && s.projectionData[k].invested == TotalInvested(inputs, k))
      && (forall k :: 0 <= k < |s.yearlyCalculations| ==>
            && !s.yearlyCalculations[k].isMarginCall
            && (k > 0 ==> s.yearlyCalculations[k].totalValue > 0.0)
            && !(s.yearlyCalculations[k].isCrashYear && s.yearlyCalculations[k].isCorrectionYear))
      && (period >= 0 ==>
            s.projectionData[0].value == Round(inputs.initialSum) && s.yearlyCalculations[0].totalValue == inputs.initialSum)
  {
    if period >= 0 {
      var s := RunYears(inputs, insts, period, u);
      RunYearsKeepsHistory(inputs, insts, period, u);
      if period > 0 {
        TotalInvestedPositive(inputs, period);
      }
      RunYearsStartsWithSnapshot(inputs, insts, period, u);
    }
  }

  /** Every run starts with the year-0 snapshot of the initial sum. */
  lemma {:induction false} RunYearsStartsWithSnapshot(inputs: InvestmentInputs, insts: seq<Instrument>, n: nat, u: Draws)
    requires UnitDraws(u) && ValidAmounts(inputs) && WellFormedAllocation(insts)
    ensures RunYears(inputs, insts, n, u).projectionData[0].value == Round(inputs.initialSum)
    ensures RunYears(inputs, insts, n, u).yearlyCalculations[0].totalValue == inputs.initialSum
  {
    if n > 0 {
      RunYearsStartsWithSnapshot(inputs, insts, n - 1, u);
      var previous := RunYears(inputs, insts, n - 1, u);
      var s := RunYears(inputs, insts, n, u);
      assert s.projectionData[0] == s.projectionData[..|previous.projectionData|][0];
      assert s.yearlyCalculations[0] == s.yearlyCalculations[..|previous.yearlyCalculations|][0];
    }
  }

  /** A value compounded by yearly returns in percent, the first year first. */
  function Compound(v: real, rets: seq<real>): real
  {
    if |rets| == 0 then v else Grow(Compound(v, rets[..|rets| - 1]), rets[|rets| - 1])
  }

  /** The first instrument's return in every breakdown; zero for a breakdown without instruments. */
  function LeadReturns(calcs: seq<YearlyCalculation>): (rets: seq<real>)
    ensures |rets| == |calcs|
    ensures forall k :: 0 <= k < |calcs| && |calcs[k].instruments| > 0 ==> rets[k] == calcs[k].instruments[0].annualReturn
  {
    seq(|calcs|, k requires 0 <= k < |calcs| => if |calcs[k].instruments| > 0 then calcs[k].instruments[0].annualReturn else 0.0)
  }

  /** The returns of a prefix of the breakdowns are the prefix of their returns. */
  lemma LeadReturnsPrefix(calcs: seq<YearlyCalculation>, n: nat)
    requires n <= |calcs|
    ensures LeadReturns(calcs)[..n] == LeadReturns(calcs[..n])
  {
  }

  /** A year without a crash, a correction or a repayment under way. */
  predicate Quiet(b: YearlyCalculation)
  {
    !b.isCrashYear && !b.isCorrectionYear && !b.isRecoveryYear
  }

  /** Every year after year 0 is quiet. */
  predicate QuietAfterStart(calcs: seq<YearlyCalculation>)
  {
    forall k :: 1 <= k < |calcs| ==> Quiet(calcs[k])
  }

  /**
   * A quiet year of a single-instrument portfolio without contributions grows the carried value
   * by exactly the instrument's return.
   */
  lemma QuietYearCompounds(inputs: InvestmentInputs, inst: Instrument, s: SimState, u: Draws)
    requires UnitDraws(u) && ValidAmounts(inputs) && WellFormedAllocation([inst]) && StateInv(inputs, s)
    requires inputs.monthlyContribution == 0.0
    requires Quiet(SimulateYear(inputs, [inst], s, u).yearlyCalculations[|s.yearlyCalculations|])
    ensures var r := SimulateYear(inputs, [inst], s, u);
      var b := r.yearlyCalculations[|s.yearlyCalculations|];
      |b.instruments| == 1 && r.currentValue == Grow(s.currentValue, b.instruments[0].annualReturn)
  {
    var o := OpenYear(s, u);
    var ctx := ContextOf(inputs, s, o);
    var start := StartOf(s, o);
    assert TotalPercentage([inst]) == TotalPercentage([inst][..0]) + inst.percentage;
    SoleInstrumentQuietYear(ctx, inst, start, u);
    YearTotalPositive(inputs, [inst], s, u);
  }

  /** Year `n` of a quiet single-instrument run without contributions, in terms of the run up to year `n - 1`. */
  lemma QuietRunYear(inputs: InvestmentInputs, inst: Instrument, n: nat, u: Draws)
    requires UnitDraws(u) && ValidAmounts(inputs) && WellFormedAllocation([inst]) && n > 0
    requires inputs.monthlyContribution == 0.0
    requires Quiet(RunYears(inputs, [inst], n, u).yearlyCalculations[n])
    ensures var s := RunYears(inputs, [inst], n, u);
      var previous := RunYears(inputs, [inst], n - 1, u);
      && s.yearlyCalculations[..n] == previous.yearlyCalculations
      && LeadReturns(s.yearlyCalculations)[..n] == LeadReturns(previous.yearlyCalculations)
      && s.currentValue == Grow(previous.currentValue, LeadReturns(s.yearlyCalculations)[n])
  {
    var s := RunYears(inputs, [inst], n, u);
    var previous := RunYears(inputs, [inst], n - 1, u);
    RunYearsNext(inputs, [inst], n, u);
    QuietYearCompounds(inputs, inst, previous, u);
    LeadReturnsPrefix(s.yearlyCalculations, n);
  }

  /**
   * A run of a single-instrument portfolio without contributions in which every year after
   * year 0 is quiet ends at the initial sum compounded by the instrument's yearly returns.
   */
  lemma {:induction false} QuietRunCompounds(inputs: InvestmentInputs, inst: Instrument, n: nat, u: Draws)
    requires UnitDraws(u) && ValidAmounts(inputs) && WellFormedAllocation([inst])
    requires inputs.monthlyContribution == 0.0
    requires QuietAfterStart(RunYears(inputs, [inst], n, u).yearlyCalculations)
    ensures var s := RunYears(inputs, [inst], n, u);
      s.currentValue == Compound(inputs.initialSum, LeadReturns(s.yearlyCalculations))
  {
    var s := RunYears(inputs, [inst], n, u);
    var rets := LeadReturns(s.yearlyCalculations);
    if n == 0 {
      assert rets == [0.0];
      assert rets[..0] == [];
    } else {
      var previous := RunYears(inputs, [inst], n - 1, u);
      QuietRunYear(inputs, inst, n, u);
      assert QuietAfterStart(previous.yearlyCalculations) by {
        forall k | 1 <= k < |previous.yearlyCalculations|
          ensures Quiet(previous.yearlyCalculations[k])
        {
          assert previous.yearlyCalculations[k] == s.yearlyCalculations[k];
        }
      }
      QuietRunCompounds(inputs, inst, n - 1, u);
    }
  }

  /** The summary figures computed from the final state. */
  function Finish(s: SimState, period: int): (r: ProjectionResult)
    requires s.cumulativeInflation > 0.0
    ensures r.projectionData == s.projectionData && r.yearlyCalculations == s.yearlyCalculations
    ensures r.drawdownStats.isMarginCalled == s.tracker.isMarginCalled
    ensures r.drawdownStats.marginCallYear == s.tracker.marginCallYear
    ensures r.performanceMetrics.cagr == CalculateCagr(s.totalContributions, s.currentValue, period)
    ensures r.performanceMetrics.sharpeRatio == CalculateSharpeRatio(s.annualReturns)
  {
    var t := s.tracker;
    var stats := DrawdownStats(Round(t.lowestValue), t.lowestValueYear, (Round(t.maxDrawdownPercent * 100.0) as real) / 100.0,
      t.maxDrawdownYear, Round(t.peakValue), t.peakValueYear, t.isMarginCalled, t.marginCallYear);
    var metrics := PerformanceMetrics(
      CalculateCagr(s.totalContributions, s.currentValue, period),
      CalculateSharpeRatio(s.annualReturns),
      Round(s.totalContributions),
      Round(s.currentValue - s.totalContributions),
      Round(s.currentValue - s.currentValue / s.cumulativeInflation));
    ProjectionResult(s.projectionData, s.yearlyCalculations, stats, metrics)
  }

  /**
   * The detailed projection over years 0 to `period`. A risk tier without an allocation gives
   * `None`. The chart has one point per year, each with the amount invested by then; with valid
   * amounts no year's total reaches zero, so no margin call is ever reported; CAGR is defined
   * exactly for a positive horizon, and the Sharpe ratio is zero for fewer than two years of returns.
   */
  function DetailedProjections(inputs: InvestmentInputs, period: int, language: string, u: Draws): (r: Option<ProjectionResult>)
    requires UnitDraws(u) && ValidAmounts(inputs)
    ensures r.Some? <==> 0 <= inputs.riskTolerance <= 5
    ensures r.Some? ==> |r.value.projectionData| == YearCount(period) && |r.value.yearlyCalculations| == YearCount(period)
    ensures r.Some? ==> forall k :: 0 <= k < |r.value.projectionData| ==>
      r.value.projectionData[k].year == k
      && r.value.projectionData[k].invested == TotalInvested(inputs, k)
    ensures r.Some? ==> forall k :: 0 <= k < |r.value.yearlyCalculations| ==>
      && !r.value.yearlyCalculations[k].isMarginCall
      && (k > 0 ==> r.value.yearlyCalculations[k].totalValue > 0.0)
      && !(r.value.yearlyCalculations[k].isCrashYear && r.value.yearlyCalculations[k].isCorrectionYear)
    ensures r.Some? ==> !r.value.drawdownStats.isMarginCalled && r.value.drawdownStats.marginCallYear == None
    ensures r.Some? ==> (r.value.performanceMetrics.cagr.GrowthRate? <==> period > 0)
    ensures r.Some? && period > 0 ==> r.value.performanceMetrics.cagr.years == period
    ensures r.Some? && period <= 1 ==> r.value.performanceMetrics.sharpeRatio == SharpeZero
    ensures r.Some? && period >= 0 ==>
      r.value.projectionData[0].value == Round(inputs.initialSum) && r.value.yearlyCalculations[0].totalValue == inputs.initialSum
  {
    match CalculatePortfolio(inputs, language)
    case None => None
    case Some(portfolio) =>
      var s := FinalState(inputs, portfolio.instruments, period, u);
      FinalStateFacts(inputs, portfolio.instruments, period, u);
      Some(Finish(s, period))
  }
}
