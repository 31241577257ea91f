/**
 * The two performance metrics reported after a run. The power and square root in them are left
 * symbolic: each metric either takes its guarded zero branch or names the quantities the calculator
 * hands to `Math.pow` or `Math.sqrt`.
 */
module Statistics {
  import opened RealArith

  /** The compound annual growth rate: exactly zero, or `(ratio^(1/years) - 1) * 100`. */
  datatype Cagr = NoGrowthRate | GrowthRate(ratio: real, years: int)

  /** The growth rate of `initialValue` to `finalValue` over `years`; zero for no years or no base. */
  function CalculateCagr(initialValue: real, finalValue: real, years: int): (r: Cagr)
    ensures r.NoGrowthRate? <==> years <= 0 || initialValue <= 0.0
    ensures r.GrowthRate? ==> r.years == years > 0 && r.ratio * initialValue == finalValue
  {
    if years <= 0 || initialValue <= 0.0 then NoGrowthRate
    else GrowthRate(finalValue / initialValue, years)
  }

  /** The risk-free rate subtracted from every annual return, in percent. */
  const RiskFreeRate: real := 2.0

  /** The Sharpe ratio: exactly zero, or `meanExcess / sqrt(variance)` with a positive variance. */
  datatype Sharpe = SharpeZero | SharpeOf(meanExcess: real, variance: real)

  function Sum(s: seq<real>): real
  {
    if |s| == 0 then 0.0 else s[0] + Sum(s[1..])
  }

  function Mean(s: seq<real>): real
    requires |s| > 0
  {
    Sum(s) / (|s| as real)
  }

  /** Every return less the risk-free rate. */
  function ExcessReturns(annualReturns: seq<real>): (e: seq<real>)
    ensures |e| == |annualReturns|
  {
    seq(|annualReturns|, i requires 0 <= i < |annualReturns| => annualReturns[i] - RiskFreeRate)
  }

  /** The squared distances of the values from `m`. */
  function SquaredDeviations(s: seq<real>, m: real): (q: seq<real>)
    ensures |q| == |s|
  {
    seq(|s|, i requires 0 <= i < |s| => Square(s[i] - m))
  }

  /** The sample variance of the excess annualReturns (divisor n - 1). */
  function SampleVariance(excess: seq<real>): real
    requires |excess| >= 2
  {
    Sum(SquaredDeviations(excess, Mean(excess))) / ((|excess| - 1) as real)
  }

  /** The ratio as the calculator guards it: zero for fewer than two annualReturns or a zero deviation. */
  function CalculateSharpeRatio(annualReturns: seq<real>): (r: Sharpe)
    ensures |annualReturns| < 2 ==> r.SharpeZero?
    ensures r.SharpeOf? ==> r.variance > 0.0 && r.meanExcess == Mean(annualReturns) - RiskFreeRate
    ensures r.SharpeOf? ==> |annualReturns| >= 2 && r.variance == SampleVariance(ExcessReturns(annualReturns))
  {
    if |annualReturns| == 0 then SharpeZero
    else
      var excess := ExcessReturns(annualReturns);
      var avgExcessReturn := Mean(excess);
      if |excess| < 2 then SharpeZero
      else
        var variance := SampleVariance(excess);
        VarianceNonNegative(excess);
        MeanOfExcess(annualReturns);
        if variance == 0.0 then SharpeZero else SharpeOf(avgExcessReturn, variance)
  }

  /** Subtracting the risk-free rate from every return lowers the sum by that rate per return. */
  lemma {:induction false} SumOfExcess(annualReturns: seq<real>)
    ensures Sum(ExcessReturns(annualReturns)) == Sum(annualReturns) - (|annualReturns| as real) * RiskFreeRate
  {
    if |annualReturns| > 0 {
      SumOfExcess(annualReturns[1..]);
      assert ExcessReturns(annualReturns)[1..] == ExcessReturns(annualReturns[1..]);
    }
  }

  /** The mean excess return is the mean return less the risk-free rate. */
  lemma MeanOfExcess(annualReturns: seq<real>)
    requires |annualReturns| > 0
    ensures Mean(ExcessReturns(annualReturns)) == Mean(annualReturns) - RiskFreeRate
  {
    SumOfExcess(annualReturns);
    var n := |annualReturns| as real;
    assert (Sum(annualReturns) - n * RiskFreeRate) / n == Sum(annualReturns) / n - RiskFreeRate;
  }

  /** A sum of non-negative terms is non-negative, and zero exactly when every term is. */
  lemma {:induction false} SumNonNegative(s: seq<real>)
    requires forall i :: 0 <= i < |s| ==> s[i] >= 0.0
    ensures Sum(s) >= 0.0
    ensures Sum(s) == 0.0 <==> forall i :: 0 <= i < |s| ==> s[i] == 0.0
  {
    if |s| > 0 {
      SumNonNegative(s[1..]);
      assert forall i :: 1 <= i < |s| ==> s[i] == s[1..][i - 1];
    }
  }

  lemma SquaredDeviationsNonNegative(s: seq<real>, m: real)
    ensures forall i :: 0 <= i < |s| ==> SquaredDeviations(s, m)[i] >= 0.0
    ensures Sum(SquaredDeviations(s, m)) >= 0.0
    ensures Sum(SquaredDeviations(s, m)) == 0.0 <==> forall i :: 0 <= i < |s| ==> s[i] == m
  {
    var q := SquaredDeviations(s, m);
    forall i | 0 <= i < |s|
      ensures q[i] >= 0.0 && (q[i] == 0.0 <==> s[i] == m)
    {
      SquarePositive(s[i] - m);
    }
    SumNonNegative(q);
  }

  lemma VarianceNonNegative(excess: seq<real>)
    requires |excess| >= 2
    ensures SampleVariance(excess) >= 0.0
  {
    SquaredDeviationsNonNegative(excess, Mean(excess));
    NonNegativeQuotient(Sum(SquaredDeviations(excess, Mean(excess))), (|excess| - 1) as real);
  }

  /** Adding a constant to every value lets the sum grow by the constant per value. */
  lemma {:induction false} SumOfConstant(n: nat, c: real)
    ensures Sum(seq(n, i => c)) == (n as real) * c
  {
    if n > 0 {
      SumOfConstant(n - 1, c);
      assert seq(n, i => c)[1..] == seq(n - 1, i => c);
    }
  }

  /** The variance is zero exactly when every value equals the first. */
  lemma {:induction false} VarianceZeroIffConstant(s: seq<real>)
    requires |s| >= 2
    ensures SampleVariance(s) == 0.0 <==> forall i :: 0 <= i < |s| ==> s[i] == s[0]
  {
    var m := Mean(s);
    var n := |s| as real;
    var total := Sum(SquaredDeviations(s, m));
    SquaredDeviationsNonNegative(s, m);
    assert SampleVariance(s) == total / (n - 1.0);
    if forall i :: 0 <= i < |s| ==> s[i] == s[0] {
      assert s == seq(|s|, i => s[0]);
      SumOfConstant(|s|, s[0]);
      assert Sum(s) == n * s[0];
      assert m == s[0];
    }
  }

  /** The ratio is zero exactly for fewer than two annualReturns or annualReturns that are all equal. */
  lemma SharpeZeroIffFlat(annualReturns: seq<real>)
    ensures CalculateSharpeRatio(annualReturns).SharpeZero? <==>
      |annualReturns| < 2 || forall i :: 0 <= i < |annualReturns| ==> annualReturns[i] == annualReturns[0]
  {
    if |annualReturns| >= 2 {
      var excess := ExcessReturns(annualReturns);
      VarianceZeroIffConstant(excess);
      forall i | 0 <= i < |excess|
        ensures excess[i] == annualReturns[i] - RiskFreeRate
      {
      }
      assert (forall i :: 0 <= i < |excess| ==> excess[i] == excess[0])
        <==> (forall i :: 0 <= i < |annualReturns| ==> annualReturns[i] == annualReturns[0]);
    }
  }
}
