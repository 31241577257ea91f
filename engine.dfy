/**
 * The projection engine as the calculator runs it: one loop over the years that updates its running
 * totals in place, with an inner loop over the allocation's instruments. It is proved to compute
 * exactly the functional model of the projection.
 */
module Engine {
  import opened Wrappers
  import opened Allocation
  import opened Samplers
  import opened YearStep
  import opened Projection

  /** What a run of the year loop needs: unit draws, valid amounts and a well-formed allocation. */
  ghost predicate Runnable(inputs: InvestmentInputs, insts: seq<Instrument>, u: Draws)
  {
    UnitDraws(u) && ValidAmounts(inputs) && WellFormedAllocation(insts)
  }

  /** The loop's state before year `year` runs. */
  function Expected(inputs: InvestmentInputs, insts: seq<Instrument>, year: nat, u: Draws): SimState
    requires Runnable(inputs, insts, u)
  {
    if year == 0 then PreLoop(inputs) else RunYears(inputs, insts, year - 1, u)
  }

  /** The loop's first iteration takes the year-0 snapshot. */
  lemma ExpectedFirst(inputs: InvestmentInputs, insts: seq<Instrument>, u: Draws)
    requires Runnable(inputs, insts, u)
    ensures Expected(inputs, insts, 0, u).cumulativeInflation > 0.0
    ensures Expected(inputs, insts, 1, u) == SnapshotYear(inputs, insts, Expected(inputs, insts, 0, u))
  {
  }

  /** Every later iteration simulates one year. */
  lemma ExpectedNext(inputs: InvestmentInputs, insts: seq<Instrument>, year: nat, u: Draws)
    requires Runnable(inputs, insts, u) && year > 0
    ensures YearReady(Expected(inputs, insts, year, u))
    ensures Expected(inputs, insts, year + 1, u) == SimulateYear(inputs, insts, Expected(inputs, insts, year, u), u)
  {
  }

  /** After the loop has run for the horizon its state is the final state of the projection. */
  lemma ExpectedAtEnd(inputs: InvestmentInputs, insts: seq<Instrument>, period: int, u: Draws)
    requires Runnable(inputs, insts, u)
    ensures Expected(inputs, insts, YearCount(period), u) == FinalState(inputs, insts, period, u)
  {
  }

  /** The projection is the summary of the final state for the tier's allocation, if there is one. */
  lemma ProjectionOfPortfolio(inputs: InvestmentInputs, period: int, language: string, u: Draws)
    requires UnitDraws(u) && ValidAmounts(inputs)
    ensures CalculatePortfolio(inputs, language).None? ==> DetailedProjections(inputs, period, language, u) == None
    ensures CalculatePortfolio(inputs, language).Some? ==>
      && WellFormedAllocation(CalculatePortfolio(inputs, language).value.instruments)
      && DetailedProjections(inputs, period, language, u)
        == Some(Finish(FinalState(inputs, CalculatePortfolio(inputs, language).value.instruments, period, u), period))
  {
  }

  /** Folds one year's instruments in order, as the calculator's per-instrument callback does. */
  method ApplyInstruments(ctx: YearContext, insts: seq<Instrument>, start: YearAcc, u: Draws) returns (acc: YearAcc)
    requires UnitDraws(u) && StepSafe(ctx, start)
    ensures acc == StepInstruments(ctx, insts, start, u)
  {
    acc := start;
    var i := 0;
    while i < |insts|
      invariant 0 <= i <= |insts|
      invariant StepSafe(ctx, acc)
      invariant acc == StepInstruments(ctx, insts[..i], start, u)
    {
      StepInstrumentsExtend(ctx, insts, i, start, u);
      acc := InstrumentStep(ctx, insts[i], acc, u);
      i := i + 1;
    }
    assert insts[..|insts|] == insts;
  }

  /**
   * Updates the peak, the lowest value, the maximum drawdown and the margin-call latch after a
   * year's new total, in the order the calculator does, and returns what the year's breakdown records.
   */
  method UpdateTracker(t: Tracker, year: nat, newTotalValue: real) returns (r: Tracked)
    requires t.maxDrawdownPercent >= 0.0
    ensures r == TrackYear(t, year, newTotalValue)
  {
    var tracker := t;
    if newTotalValue > tracker.peakValue {
      tracker := tracker.(peakValue := newTotalValue, peakValueYear := year);
    }
    var isLowestPoint := false;
    if newTotalValue < tracker.lowestValue {
      tracker := tracker.(lowestValue := newTotalValue, lowestValueYear := year);
      isLowestPoint := true;
    }
    var currentDrawdown := if tracker.peakValue > 0.0 then ((tracker.peakValue - newTotalValue) / tracker.peakValue) * 100.0 else 0.0;
    var drawdownFromPeak := Max(0.0, currentDrawdown);
    if currentDrawdown > tracker.maxDrawdownPercent {
      tracker := tracker.(maxDrawdownPercent := currentDrawdown, maxDrawdownYear := year);
    }
    var isMarginCall := false;
    var carried := newTotalValue;
    if newTotalValue <= 0.0 && !tracker.isMarginCalled {
      tracker := tracker.(isMarginCalled := true, marginCallYear := Some(year));
      isMarginCall := true;
      carried := 0.0;
    }
    r := Tracked(tracker, isLowestPoint, drawdownFromPeak, isMarginCall, carried);
  }

  /**
   * One year after year 0: the inflation and event draws, the fold over the instruments, the
   * in-place statistics update, then the year's breakdown and chart point.
   */
  method AdvanceYear(inputs: InvestmentInputs, insts: seq<Instrument>, s: SimState, u: Draws) returns (r: SimState)
    requires UnitDraws(u) && YearReady(s)
    ensures r == SimulateYear(inputs, insts, s, u)
  {
    var annualInflation := InflationRate(u(s.cursor), u(s.cursor + 1));
    var ev := ScheduleEvents(s.recovery, s.correction, s.cursor + 2, u);
    var opening := YearOpening(annualInflation, ev);
    assert opening == OpenYear(s, u);

    var ctx := YearContext(s.currentValue, inputs.monthlyContribution * 12.0, ev.isCrashYear, ev.isCorrectionYear);
    var start := YearAcc(s.recovery, s.correction, ev.cursor, 0.0, 0.0, 0.0, 0.0, []);
    assert ctx == ContextOf(inputs, s, opening) && start == StartOf(s, opening);
    var acc := ApplyInstruments(ctx, insts, start, u);

    var tracked := UpdateTracker(s.tracker, |s.projectionData|, acc.newTotalValue);
    r := CloseYear(inputs, s, opening, acc, tracked);
  }

  /**
   * The year loop over an allocation, for years 0 to `period` inclusive: the year-0 snapshot, then
   * one year at a time until the horizon; the state it ends in is the final state of the projection.
   */
  method RunProjectionLoop(inputs: InvestmentInputs, insts: seq<Instrument>, period: int, u: Draws) returns (s: SimState)
    requires Runnable(inputs, insts, u)
    ensures s == FinalState(inputs, insts, period, u)
  {
    var years := YearCount(period);
    s := PreLoop(inputs);
    var year := 0;
    while year < years
      invariant year <= years
      invariant s == Expected(inputs, insts, year, u)
    {
      if year == 0 {
        ExpectedFirst(inputs, insts, u);
        s := SnapshotYear(inputs, insts, s);
      } else {
        ExpectedNext(inputs, insts, year, u);
        s := AdvanceYear(inputs, insts, s, u);
      }
      year := year + 1;
    }
    ExpectedAtEnd(inputs, insts, period, u);
  }

  /**
   * The detailed projection over years 0 to `period`: the tier's allocation, the year loop, then
   * the summary. The result is the functional projection, so every property proved about
   * `DetailedProjections` holds of it.
   */
  method CalculateDetailedProjections(inputs: InvestmentInputs, period: int, language: string, u: Draws)
    returns (r: Option<ProjectionResult>)
    requires UnitDraws(u) && ValidAmounts(inputs)
    ensures r == DetailedProjections(inputs, period, language, u)
  {
    var portfolio := CalculatePortfolio(inputs, language);
    ProjectionOfPortfolio(inputs, period, language, u);
    if portfolio.None? {
      return None;
    }
    var s := RunProjectionLoop(inputs, portfolio.value.instruments, period, u);
    r := Some(Finish(s, period));
  }
}
