/** One-pass drawdown loops, against the worst fall between any two moments. */
module Drawdown {
  import opened Numbers

  // ---------------------------------------------------------------- profit and loss, additively

  datatype Observation = Observation(factor: string, pnl: real)

  function PnlsOf(observations: seq<Observation>, factor: string): seq<real> {
    if observations == [] then []
    else
      var o := observations[|observations| - 1];
      PnlsOf(observations[..|observations| - 1], factor) + if o.factor == factor then [o.pnl] else []
  }

  /** Only the observations of the factor count, in their order, and all of them. */
  lemma {:induction false} PnlsAreTheFactors(a: seq<Observation>, o: Observation, b: seq<Observation>, factor: string)
    ensures o.factor != factor ==> PnlsOf(a + [o] + b, factor) == PnlsOf(a + b, factor)
    ensures o.factor == factor ==> PnlsOf(a + [o] + b, factor) == PnlsOf(a, factor) + [o.pnl] + PnlsOf(b, factor)
  {
    PnlsAppend(a + [o], b, factor);
    PnlsAppend(a, b, factor);
    assert (a + [o])[..|a|] == a;
  }

  lemma {:induction false} PnlsAppend(a: seq<Observation>, b: seq<Observation>, factor: string)
    ensures PnlsOf(a + b, factor) == PnlsOf(a, factor) + PnlsOf(b, factor)
  {
    if b == [] {
      assert a + b == a;
    } else {
      var n := |b| - 1;
      assert (a + b)[..|a + b| - 1] == a + b[..n];
      PnlsAppend(a, b[..n], factor);
    }
  }

  /** The accumulated result before the first trade, and after each one. */
  function Accumulated(pnls: seq<real>): (curve: seq<real>)
    ensures |curve| == |pnls| + 1
  {
    if pnls == [] then [0.0]
    else
      var before := Accumulated(pnls[..|pnls| - 1]);
      before + [before[|before| - 1] + pnls[|pnls| - 1]]
  }

  function Fall(curve: seq<real>, i: nat, j: nat): real
    requires i <= j < |curve|
  {
    curve[i] - curve[j]
  }

  /** The largest fall from any moment to that moment or a later one. */
  ghost predicate IsWorstFall(curve: seq<real>, worst: real) {
    && (forall i, j :: 0 <= i <= j < |curve| ==> Fall(curve, i, j) <= worst)
    && exists i, j :: 0 <= i <= j < |curve| && Fall(curve, i, j) == worst
  }

  ghost predicate IsHighest(curve: seq<real>, peak: real) {
    && (forall i :: 0 <= i < |curve| ==> curve[i] <= peak)
    && exists i :: 0 <= i < |curve| && curve[i] == peak
  }

  lemma {:induction false} HighestExtends(curve: seq<real>, peak: real, x: real)
    requires IsHighest(curve, peak)
    ensures IsHighest(curve + [x], Max(peak, x))
  {
    var i :| 0 <= i < |curve| && curve[i] == peak;
    assert (curve + [x])[i] == peak && (curve + [x])[|curve|] == x;
  }

  lemma {:induction false} WorstFallExtends(curve: seq<real>, worst: real, x: real, peak: real)
    requires IsWorstFall(curve, worst) && IsHighest(curve + [x], peak)
    ensures IsWorstFall(curve + [x], Max(worst, peak - x))
  {
    var longer, newWorst := curve + [x], Max(worst, peak - x);
    forall i, j | 0 <= i <= j < |longer|
      ensures Fall(longer, i, j) <= newWorst
    {
      if j < |curve| {
        assert Fall(longer, i, j) == Fall(curve, i, j);
      }
    }
    if worst >= peak - x {
      var i, j :| 0 <= i <= j < |curve| && Fall(curve, i, j) == worst;
      assert Fall(longer, i, j) == newWorst;
    } else {
      var i :| 0 <= i < |longer| && longer[i] == peak;
      assert Fall(longer, i, |curve|) == newWorst;
    }
  }

  class FactorPerformanceTracker {
    var observations: seq<Observation>

    constructor ()
      ensures observations == []
    {
      observations := [];
    }

    method Record(o: Observation)
      modifies this
      ensures observations == old(observations) + [o]
    {
      observations := observations + [o];
    }

    /** The maximum drawdown of one factor: the worst fall of its accumulated result, counted from zero. */
    method MaxDrawdown(factor: string) returns (worst: real)
      ensures IsWorstFall(Accumulated(PnlsOf(observations, factor)), worst)
      ensures worst >= 0.0
    {
      var pnls := [];
      for i := 0 to |observations|
        invariant pnls == PnlsOf(observations[..i], factor)
      {
        assert observations[..i + 1][..i] == observations[..i];
        if observations[i].factor == factor {
          pnls := pnls + [observations[i].pnl];
        } else {
          assert pnls + [] == pnls;
        }
      }
      assert observations[..|observations|] == observations;
      worst := WorstFall(pnls);
    }
  }

  /** Peak and worst fall are carried along in a single pass. */
  method WorstFall(pnls: seq<real>) returns (worst: real)
    ensures IsWorstFall(Accumulated(pnls), worst) && worst >= 0.0
  {
    var running, peak := 0.0, 0.0;
    worst := 0.0;
    assert Accumulated([])[0] == 0.0 && Fall(Accumulated([]), 0, 0) == 0.0;
    for i := 0 to |pnls|
      invariant running == Accumulated(pnls[..i])[i]
      invariant IsHighest(Accumulated(pnls[..i]), peak)
      invariant IsWorstFall(Accumulated(pnls[..i]), worst) && worst >= 0.0
    {
      ghost var curve := Accumulated(pnls[..i]);
      assert pnls[..i + 1][..i] == pnls[..i];
      running := running + pnls[i];
      HighestExtends(curve, peak, running);
      peak := Max(peak, running);
      WorstFallExtends(curve, worst, running, peak);
      worst := Max(worst, peak - running);
    }
    assert pnls[..|pnls|] == pnls;
  }

  // ---------------------------------------------------------------- compounded equity, as a fraction

  function Grow(equity: real, rate: real): real {
    equity * (1.0 + rate)
  }

  /** Equity compounded from one unit, before the first period and after each. */
  function Compounded(rates: seq<real>): (curve: seq<real>)
    ensures |curve| == |rates| + 1 && curve[0] == 1.0
  {
    if rates == [] then [1.0]
    else
      var before := Compounded(rates[..|rates| - 1]);
      before + [Grow(before[|before| - 1], rates[|rates| - 1])]
  }

  function Fraction(from: real, to: real): real
    requires from > 0.0
  {
    (from - to) / from
  }

  /** The highest point up to and including moment `j`. */
  function PeakTo(curve: seq<real>, j: nat): (peak: real)
    requires j < |curve| && curve[0] == 1.0
    ensures peak >= 1.0
  {
    if j == 0 then 1.0 else Max(PeakTo(curve, j - 1), curve[j])
  }

  /** The fraction lost at moment `j` since the highest point before. */
  function BelowPeak(curve: seq<real>, j: nat): real
    requires j < |curve| && curve[0] == 1.0
  {
    Fraction(PeakTo(curve, j), curve[j])
  }

  ghost predicate IsWorstBelowPeak(curve: seq<real>, worst: real)
    requires |curve| > 0 && curve[0] == 1.0
  {
    && (forall j :: 0 <= j < |curve| ==> BelowPeak(curve, j) <= worst)
    && exists j :: 0 <= j < |curve| && BelowPeak(curve, j) == worst
  }

  lemma {:induction false} PeakIsReached(curve: seq<real>, j: nat) returns (i: nat)
    requires j < |curve| && curve[0] == 1.0
    ensures i <= j && curve[i] == PeakTo(curve, j)
  {
    i := j;
    if j > 0 && PeakTo(curve, j - 1) >= curve[j] {
      i := PeakIsReached(curve, j - 1);
    }
  }

  lemma {:induction false} PeakIsAbove(curve: seq<real>, i: nat, j: nat)
    requires i <= j < |curve| && curve[0] == 1.0
    ensures curve[i] <= PeakTo(curve, j)
  {
    if i < j {
      PeakIsAbove(curve, i, j - 1);
    }
  }

  lemma {:induction false} PeakToPrefix(curve: seq<real>, x: real, j: nat)
    requires j < |curve| && curve[0] == 1.0
    ensures PeakTo(curve + [x], j) == PeakTo(curve, j)
  {
    if j > 0 {
      PeakToPrefix(curve, x, j - 1);
    }
  }

  lemma {:induction false} BelowPeakPrefix(curve: seq<real>, x: real, j: nat)
    requires j < |curve| && curve[0] == 1.0
    ensures BelowPeak(curve + [x], j) == BelowPeak(curve, j)
  {
    PeakToPrefix(curve, x, j);
  }

  lemma {:induction false} WorstBelowPeakExtends(curve: seq<real>, worst: real, x: real)
    requires |curve| > 0 && curve[0] == 1.0 && IsWorstBelowPeak(curve, worst)
    ensures IsWorstBelowPeak(curve + [x], Max(worst, BelowPeak(curve + [x], |curve|)))
  {
    var longer, last := curve + [x], BelowPeak(curve + [x], |curve|);
    var newWorst := Max(worst, last);
    forall j | 0 <= j < |longer|
      ensures BelowPeak(longer, j) <= newWorst
    {
      if j < |curve| {
        BelowPeakPrefix(curve, x, j);
      }
    }
    if worst > last {
      var j :| 0 <= j < |curve| && BelowPeak(curve, j) == worst;
      BelowPeakPrefix(curve, x, j);
      assert BelowPeak(longer, j) == newWorst;
    }
  }

  lemma {:induction false} CompoundedStep(rates: seq<real>, i: nat)
    requires i < |rates|
    ensures Compounded(rates[..i + 1]) == Compounded(rates[..i]) + [Grow(Compounded(rates[..i])[i], rates[i])]
  {
    var prefix := rates[..i + 1];
    assert prefix[..|prefix| - 1] == rates[..i] && prefix[|prefix| - 1] == rates[i];
  }

  /** The simulator's pass. The peak never falls below one, so the division is safe whatever the returns. */
  method SimulateDrawdown(rates: seq<real>) returns (equity: real, worst: real)
    ensures equity == Compounded(rates)[|rates|]
    ensures IsWorstBelowPeak(Compounded(rates), worst)
  {
    equity, worst := 1.0, 0.0;
    var peak := 1.0;
    assert BelowPeak([1.0], 0) == 0.0;
    for i := 0 to |rates|
      invariant equity == Compounded(rates[..i])[i]
      invariant peak == PeakTo(Compounded(rates[..i]), i)
      invariant IsWorstBelowPeak(Compounded(rates[..i]), worst)
    {
      ghost var curve := Compounded(rates[..i]);
      equity := Grow(equity, rates[i]);
      CompoundedStep(rates, i);
      PeakToPrefix(curve, equity, i);
      peak := Max(peak, equity);
      WorstBelowPeakExtends(curve, worst, equity);
      worst := Max(worst, Fraction(peak, equity));
    }
    assert rates[..|rates|] == rates;
  }

  lemma {:induction false} NonnegativeProduct(a: real, b: real)
    requires a >= 0.0 && b >= 0.0
    ensures a * b >= 0.0
    ensures a > 0.0 && b > 0.0 ==> a * b > 0.0
  {
  }

  /** Without a loss of more than everything, equity never falls below zero. */
  lemma {:induction false} EquityStaysNonnegative(rates: seq<real>)
    requires forall i :: 0 <= i < |rates| ==> rates[i] >= -1.0
    ensures forall j :: 0 <= j <= |rates| ==> Compounded(rates)[j] >= 0.0
  {
    if rates != [] {
      var n := |rates| - 1;
      EquityStaysNonnegative(rates[..n]);
      NonnegativeProduct(Compounded(rates[..n])[n], 1.0 + rates[n]);
    }
  }

  lemma {:induction false} EquityStaysPositive(rates: seq<real>)
    requires forall i :: 0 <= i < |rates| ==> rates[i] > -1.0
    ensures forall j :: 0 <= j <= |rates| ==> Compounded(rates)[j] > 0.0
  {
    if rates != [] {
      var n := |rates| - 1;
      EquityStaysPositive(rates[..n]);
      NonnegativeProduct(Compounded(rates[..n])[n], 1.0 + rates[n]);
    }
  }

  lemma {:induction false} Cancel(a: real, b: real, t: real)
    requires t > 0.0 && a * t <= b * t
    ensures a <= b
  {
    assert (b - a) * t >= 0.0;
  }

  lemma {:induction false} FractionIs(from: real, to: real)
    requires from > 0.0
    ensures Fraction(from, to) * from == from - to
  {
  }

  /** A higher starting point makes the same end a larger fraction lost, as long as the end is not negative. */
  lemma {:induction false} HigherStartLosesMore(low: real, high: real, to: real)
    requires 0.0 < low <= high && to >= 0.0
    ensures Fraction(low, to) <= Fraction(high, to)
  {
    var f, g := Fraction(low, to), Fraction(high, to);
    FractionIs(low, to);
    FractionIs(high, to);
    FractionAtMostOne(low, to);
    NonnegativeProduct(1.0 - f, high - low);
    assert (1.0 - f) * (high - low) == high - low - f * high + f * low;
    assert f * high <= g * high;
    Cancel(f, g, high);
  }

  lemma {:induction false} FractionAtMostOne(from: real, to: real)
    requires from > 0.0 && to >= 0.0
    ensures Fraction(from, to) <= 1.0
    ensures Fraction(from, to) < 1.0 <==> to > 0.0
  {
    FractionIs(from, to);
    Cancel(Fraction(from, to), 1.0, from);
  }

  ghost predicate IsWorstFraction(curve: seq<real>, worst: real) {
    && (forall i, j :: 0 <= i <= j < |curve| && curve[i] > 0.0 ==> Fraction(curve[i], curve[j]) <= worst)
    && exists i, j :: 0 <= i <= j < |curve| && curve[i] > 0.0 && Fraction(curve[i], curve[j]) == worst
  }

  lemma {:induction false} PeakIsWorstAboveZero(curve: seq<real>, worst: real)
    requires |curve| > 0 && curve[0] == 1.0 && IsWorstBelowPeak(curve, worst)
    requires forall j :: 0 <= j < |curve| ==> curve[j] >= 0.0
    ensures IsWorstFraction(curve, worst)
  {
    forall i, j | 0 <= i <= j < |curve| && curve[i] > 0.0
      ensures Fraction(curve[i], curve[j]) <= worst
    {
      PeakIsAbove(curve, i, j);
      HigherStartLosesMore(curve[i], PeakTo(curve, j), curve[j]);
      assert BelowPeak(curve, j) <= worst;
    }
    var j :| 0 <= j < |curve| && BelowPeak(curve, j) == worst;
    var i := PeakIsReached(curve, j);
    assert Fraction(curve[i], curve[j]) == worst;
  }

  /** Comparing with the running peak finds the worst fraction lost between any two moments, provided no period
      loses more than everything. */
  lemma {:induction false} PeakDrawdownIsWorst(rates: seq<real>, worst: real)
    requires forall i :: 0 <= i < |rates| ==> rates[i] >= -1.0
    requires IsWorstBelowPeak(Compounded(rates), worst)
    ensures IsWorstFraction(Compounded(rates), worst)
  {
    EquityStaysNonnegative(rates);
    PeakIsWorstAboveZero(Compounded(rates), worst);
  }

  /** The drawdown is a proper fraction exactly when no period lost everything. */
  lemma {:induction false} DrawdownBelowOneIff(rates: seq<real>, worst: real)
    requires forall i :: 0 <= i < |rates| ==> rates[i] >= -1.0
    requires IsWorstBelowPeak(Compounded(rates), worst)
    ensures 0.0 <= worst <= 1.0
    ensures worst < 1.0 <==> forall i :: 0 <= i < |rates| ==> rates[i] > -1.0
  {
    var curve := Compounded(rates);
    EquityStaysNonnegative(rates);
    assert BelowPeak(curve, 0) == 0.0;
    var j :| 0 <= j < |curve| && BelowPeak(curve, j) == worst;
    FractionAtMostOne(PeakTo(curve, j), curve[j]);
    if i :| 0 <= i < |rates| && rates[i] == -1.0 {
      LossOfAll(rates, i);
      FractionAtMostOne(PeakTo(curve, i + 1), curve[i + 1]);
      assert BelowPeak(curve, i + 1) >= 1.0;
    } else {
      EquityStaysPositive(rates);
    }
  }

  lemma {:induction false} LossOfAll(rates: seq<real>, i: nat)
    requires i < |rates| && rates[i] == -1.0
    ensures Compounded(rates)[i + 1] == 0.0
  {
    var n := |rates| - 1;
    if i < n {
      LossOfAll(rates[..n], i);
    }
  }

  // ---------------------------------------------------------------- losing more than everything

  lemma {:induction false} CompoundedAt(rates: seq<real>, i: nat)
    requires i < |rates|
    ensures Compounded(rates)[i + 1] == Grow(Compounded(rates)[i], rates[i])
  {
    var n := |rates| - 1;
    if i < n {
      CompoundedAt(rates[..n], i);
    }
  }

  lemma {:induction false} RuinStays(rates: seq<real>, i: nat, j: nat)
    requires i < j <= |rates| && rates[i] == -1.0
    ensures Compounded(rates)[j] == 0.0
  {
    if j == i + 1 {
      LossOfAll(rates, i);
    } else {
      RuinStays(rates, i, j - 1);
      CompoundedAt(rates, j - 1);
    }
  }

  /** When the end is below zero, the lower starting point loses the larger fraction. */
  lemma {:induction false} LowerStartLosesMore(low: real, high: real, to: real)
    requires 0.0 < low < high && to < 0.0
    ensures Fraction(low, to) > Fraction(high, to) > 1.0
  {
    var f, g := Fraction(low, to), Fraction(high, to);
    FractionIs(low, to);
    FractionIs(high, to);
    assert (g - 1.0) * high == g * high - high == -to;
    PositiveFactor(g - 1.0, high);
    NonnegativeProduct(g - 1.0, high - low);
    assert (g - 1.0) * (high - low) == g * high - g * low - high + low;
    assert (f - g) * low == f * low - g * low;
    PositiveFactor(f - g, low);
  }

  lemma {:induction false} PositiveFactor(x: real, t: real)
    requires t > 0.0 && x * t > 0.0
    ensures x > 0.0
  {
  }

  lemma {:induction false} GrowMoves(equity: real, rate: real)
    requires equity > 0.0
    ensures Grow(equity, rate) == equity <==> rate == 0.0
    ensures rate < -1.0 ==> Grow(equity, rate) < 0.0
  {
    assert Grow(equity, rate) == equity + equity * rate;
    if rate > 0.0 {
      NonnegativeProduct(equity, rate);
    } else if rate < 0.0 {
      NonnegativeProduct(equity, -rate);
    }
    if rate < -1.0 {
      NonnegativeProduct(equity, -1.0 - rate);
      assert equity * (-1.0 - rate) == -Grow(equity, rate);
    }
  }

  ghost predicate Level(curve: seq<real>) {
    forall j :: 0 <= j < |curve| ==> curve[j] == 1.0
  }

  ghost predicate NoRates(rates: seq<real>) {
    forall i :: 0 <= i < |rates| ==> rates[i] == 0.0
  }

  /** The curve is positive up to its last point, which is below zero. */
  ghost predicate Sinks(curve: seq<real>) {
    && |curve| > 1 && curve[0] == 1.0 && curve[|curve| - 1] < 0.0
    && forall j :: 0 <= j < |curve| - 1 ==> curve[j] > 0.0
  }

  /** On such a curve the one pass reports the fall from the highest point. */
  lemma {:induction false} SinkingWorst(curve: seq<real>, worst: real)
    requires Sinks(curve) && IsWorstBelowPeak(curve, worst)
    ensures worst == Fraction(PeakTo(curve, |curve| - 1), curve[|curve| - 1]) > 1.0
  {
    var n := |curve| - 1;
    LowerStartLosesMore(PeakTo(curve, n), PeakTo(curve, n) + 1.0, curve[n]);
    assert BelowPeak(curve, n) <= worst;
    var j :| 0 <= j < |curve| && BelowPeak(curve, j) == worst;
    if j < n {
      FractionAtMostOne(PeakTo(curve, j), curve[j]);
    }
  }

  /** It is the worst fall exactly when the curve never moved before. */
  lemma {:induction false} SinkingIsWorstIffLevel(curve: seq<real>, worst: real)
    requires Sinks(curve) && IsWorstBelowPeak(curve, worst)
    ensures IsWorstFraction(curve, worst) <==> Level(curve[..|curve| - 1])
  {
    var n := |curve| - 1;
    var peak := PeakTo(curve, n);
    SinkingWorst(curve, worst);
    if m :| 0 <= m < n && curve[..n][m] != 1.0 {
      PeakIsAbove(curve, m, n);
      PeakIsAbove(curve, 0, n);
      var low := if curve[m] < 1.0 then m else 0;
      LowerStartLosesMore(curve[low], peak, curve[n]);
      assert Fraction(curve[low], curve[n]) > worst;
    } else {
      var i := PeakIsReached(curve, n);
      forall i, j | 0 <= i <= j < |curve| && curve[i] > 0.0
        ensures Fraction(curve[i], curve[j]) <= worst
      {
        assert i < n ==> curve[..n][i] == 1.0;
      }
      assert Fraction(curve[0], curve[n]) == worst;
    }
  }

  lemma {:induction false} LevelIffNoRates(rates: seq<real>)
    requires forall j :: 0 <= j <= |rates| ==> Compounded(rates)[j] > 0.0
    ensures Level(Compounded(rates)) <==> NoRates(rates)
  {
    if rates != [] {
      var n := |rates| - 1;
      var before := Compounded(rates[..n]);
      assert Compounded(rates)[..n + 1] == before && rates == rates[..n] + [rates[n]];
      assert forall j :: 0 <= j <= n ==> before[j] == Compounded(rates)[j];
      LevelIffNoRates(rates[..n]);
      GrowMoves(before[n], rates[n]);
      assert Level(Compounded(rates)) <==> Level(before) && Compounded(rates)[n + 1] == 1.0;
      assert NoRates(rates) <==> NoRates(rates[..n]) && rates[n] == 0.0;
    }
  }

  /** Everything before the last period keeps some equity. */
  lemma {:induction false} FirstLossSinks(rates: seq<real>)
    requires rates != [] && rates[|rates| - 1] < -1.0
    requires forall i :: 0 <= i < |rates| - 1 ==> rates[i] > -1.0
    ensures Sinks(Compounded(rates))
  {
    var n := |rates| - 1;
    EquityStaysPositive(rates[..n]);
    GrowMoves(Compounded(rates[..n])[n], rates[n]);
  }

  /** At the first period that loses more than everything, the running peak is still the worst place to have
      started if and only if everything was lost before, or nothing had moved at all. */
  lemma {:induction false} FirstLossBeyondAllIff(rates: seq<real>, n: nat, worst: real)
    requires n < |rates| && rates[n] < -1.0 && forall i :: 0 <= i < n ==> rates[i] >= -1.0
    requires IsWorstBelowPeak(Compounded(rates[..n + 1]), worst)
    ensures IsWorstFraction(Compounded(rates[..n + 1]), worst)
       <==> (exists i :: 0 <= i < n && rates[i] == -1.0) || NoRates(rates[..n])
  {
    var upTo := rates[..n + 1];
    assert upTo[..n] == rates[..n];
    if i :| 0 <= i < n && rates[i] == -1.0 {
      RuinedStaysWorst(upTo, i, worst);
    } else {
      FirstLossSinks(upTo);
      SinkingIsWorstIffLevel(Compounded(upTo), worst);
      EquityStaysPositive(rates[..n]);
      LevelIffNoRates(rates[..n]);
      assert Compounded(upTo)[..n + 1] == Compounded(rates[..n]);
    }
  }

  lemma {:induction false} RuinedStaysWorst(rates: seq<real>, i: nat, worst: real)
    requires i < |rates| - 1 && rates[i] == -1.0 && forall j :: 0 <= j < |rates| - 1 ==> rates[j] >= -1.0
    requires IsWorstBelowPeak(Compounded(rates), worst)
    ensures IsWorstFraction(Compounded(rates), worst)
  {
    var n := |rates| - 1;
    EquityStaysNonnegative(rates[..n]);
    RuinStays(rates, i, |rates|);
    PeakIsWorstAboveZero(Compounded(rates), worst);
  }

  /** Past a loss of more than everything the running peak is no longer the worst place to have started. */
  lemma {:induction false} LossBeyondAllMisleads()
    ensures var rates := [-0.5, -2.0];
            IsWorstBelowPeak(Compounded(rates), 1.5) && !IsWorstFraction(Compounded(rates), 1.5)
  {
    var rates := [-0.5, -2.0];
    var curve := Compounded(rates);
    CompoundedStep(rates, 0);
    CompoundedStep(rates, 1);
    assert rates[..0] == [] && rates[..2] == rates;
    assert curve == [1.0, 0.5, -0.5];
    assert PeakTo(curve, 0) == PeakTo(curve, 1) == PeakTo(curve, 2) == 1.0;
    assert BelowPeak(curve, 0) == 0.0 && BelowPeak(curve, 1) == 0.5 && BelowPeak(curve, 2) == 1.5;
    assert Fraction(curve[1], curve[2]) == 2.0;
  }
}
