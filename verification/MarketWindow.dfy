/** The bounded window of market bars, and the indicators computed from it. */
module MarketWindow {
  import opened Numbers

  datatype Bar = Bar(ts: int, price: real, volume: real)

  /** What an indicator call does: a number, no answer for want of bars, or an exception. */
  datatype Reading = Reading(value: real) | NoReading | Raises

  function Last<T>(xs: seq<T>, n: nat): (r: seq<T>)
    ensures |r| == if |xs| < n then |xs| else n
  {
    if |xs| <= n then xs else xs[|xs| - n..]
  }

  ghost predicate Increasing(bars: seq<Bar>) {
    forall i, j :: 0 <= i < j < |bars| ==> bars[i].ts < bars[j].ts
  }

  function Prices(bars: seq<Bar>): (r: seq<real>)
    ensures |r| == |bars|
  {
    seq(|bars|, i requires 0 <= i < |bars| => bars[i].price)
  }

  function Sum(xs: seq<real>): real {
    if xs == [] then 0.0 else Sum(xs[..|xs| - 1]) + xs[|xs| - 1]
  }

  predicate Admits(before: seq<Bar>, bar: Bar, maxBars: nat) {
    var held := Last(before, maxBars);
    held == [] || bar.ts > held[|held| - 1].ts
  }

  /** The accepted part of a stream of bars: each accepted bar is later than the last bar still held. */
  function Accepted(stream: seq<Bar>, maxBars: nat): seq<Bar> {
    if stream == [] then []
    else
      var before, bar := Accepted(stream[..|stream| - 1], maxBars), stream[|stream| - 1];
      if Admits(before, bar, maxBars) then before + [bar] else before
  }

  // ---------------------------------------------------------------- the engine

  class MarketDataEngine {
    const maxBars: nat
    var bars: seq<Bar>
    var version: nat
    /** Every bar accepted so far. */
    ghost var history: seq<Bar>

    /** The bars held are the last of the accepted ones, in strictly increasing time. */
    ghost predicate Valid()
      reads this
    {
      && bars == Last(history, maxBars) && version == |history|
      && Increasing(bars) && (maxBars > 0 ==> Increasing(history))
    }

    constructor (maxBars: nat)
      ensures Valid() && this.maxBars == maxBars && history == []
    {
      this.maxBars, bars, version, history := maxBars, [], 0, [];
    }

    /** Appends a bar, dropping the oldest when full; a bar not later than the last one is rejected. */
    method Ingest(bar: Bar) returns (ok: bool)
      requires Valid()
      modifies this
      ensures Valid()
      ensures ok <==> old(bars) == [] || bar.ts > old(bars)[|old(bars)| - 1].ts
      ensures ok <==> Admits(old(history), bar, maxBars)
      ensures history == if ok then old(history) + [bar] else old(history)
    {
      hide Increasing;
      if bars != [] && bar.ts <= bars[|bars| - 1].ts {
        return false;
      }
      SlideKeepsLast(history, bar, maxBars);
      AcceptKeepsIncreasing(history, bar, maxBars);
      var appended := bars + [bar];
      bars := if |appended| > maxBars then appended[1..] else appended;
      version := version + 1;
      history := history + [bar];
      ok := true;
    }

    /** A whole stream, each rejected bar being skipped by the caller. */
    method IngestAll(stream: seq<Bar>)
      requires Valid() && history == []
      modifies this
      ensures Valid() && history == Accepted(stream, maxBars) && bars == Last(Accepted(stream, maxBars), maxBars)
    {
      hide Increasing;
      hide Admits;
      for i := 0 to |stream|
        invariant Valid() && history == Accepted(stream[..i], maxBars)
      {
        AcceptedSnoc(stream[..i], stream[i], maxBars);
        assert stream[..i + 1] == stream[..i] + [stream[i]];
        var _ := Ingest(stream[i]);
      }
      assert stream[..|stream|] == stream;
    }

    /** The arithmetic mean of the last `n` closes. */
    method Sma(n: int) returns (r: Reading)
      ensures r == SmaOf(Prices(bars), n)
    {
      var closes := Closes(Prices(bars), n);
      if |closes| < n {
        return NoReading;
      }
      if |closes| == 0 {
        return Raises;
      }
      return Reading(Sum(closes) / |closes| as real);
    }

    /** Seeded with the mean of the first `n` closes held, then smoothed over the rest. */
    method Ema(n: int) returns (r: Reading)
      ensures r == EmaOf(Prices(bars), n)
    {
      var closes := Prices(bars);
      if |closes| < n {
        return NoReading;
      }
      if n == 0 || n == -1 {
        return Raises;
      }
      var alpha := 2.0 / (n + 1) as real;
      var seed := SeedCount(|closes|, n);
      var ema := Sum(closes[..seed]) / n as real;
      for i := seed to |closes|
        invariant ema == Smoothed(closes[..i], seed, n)
      {
        assert closes[..i + 1][..i] == closes[..i];
        ema := Blend(closes[i], ema, alpha);
      }
      assert closes[..|closes|] == closes;
      return Reading(ema);
    }
  }

  function Slide(held: seq<Bar>, bar: Bar, maxBars: nat): seq<Bar> {
    var appended := held + [bar];
    if |appended| > maxBars then appended[1..] else appended
  }

  lemma {:induction false} SlideKeepsLast(history: seq<Bar>, bar: Bar, maxBars: nat)
    ensures Last(history + [bar], maxBars) == Slide(Last(history, maxBars), bar, maxBars)
  {
    var held, longer := Last(history, maxBars), history + [bar];
    if |history| >= maxBars > 0 {
      assert Last(longer, maxBars) == longer[|longer| - maxBars..] == held[1..] + [bar];
    }
  }

  lemma {:induction false} AppendStaysIncreasing(bars: seq<Bar>, bar: Bar)
    requires Increasing(bars) && (bars == [] || bar.ts > bars[|bars| - 1].ts)
    ensures Increasing(bars + [bar])
  {
  }

  lemma {:induction false} TailStaysIncreasing(bars: seq<Bar>)
    requires Increasing(bars) && bars != []
    ensures Increasing(bars[1..])
  {
  }

  lemma {:induction false} LastHeldIsLast(history: seq<Bar>, maxBars: nat)
    requires maxBars > 0 && history != []
    ensures var held := Last(history, maxBars); held != [] && held[|held| - 1] == history[|history| - 1]
  {
  }

  lemma {:induction false} AcceptKeepsIncreasing(history: seq<Bar>, bar: Bar, maxBars: nat)
    requires Admits(history, bar, maxBars) && Increasing(Last(history, maxBars)) && (maxBars > 0 ==> Increasing(history))
    ensures Increasing(Slide(Last(history, maxBars), bar, maxBars)) && (maxBars > 0 ==> Increasing(history + [bar]))
  {
    hide Increasing;
    var held := Last(history, maxBars);
    AppendStaysIncreasing(held, bar);
    TailStaysIncreasing(held + [bar]);
    if maxBars > 0 {
      if history != [] {
        LastHeldIsLast(history, maxBars);
      }
      AppendStaysIncreasing(history, bar);
    }
  }

  predicate LaterThanAll(bar: Bar, earlier: seq<Bar>) {
    forall i :: 0 <= i < |earlier| ==> earlier[i].ts < bar.ts
  }

  /** The bars later than every bar delivered before them, accepted or not. */
  function Records(stream: seq<Bar>): seq<Bar> {
    if stream == [] then []
    else
      var n := |stream| - 1;
      Records(stream[..n]) + if LaterThanAll(stream[n], stream[..n]) then [stream[n]] else []
  }

  /** The last bar kept is the latest of all that were delivered. */
  ghost predicate EndsLatest(records: seq<Bar>, stream: seq<Bar>) {
    && records != [] && records[|records| - 1] in stream
    && forall i :: 0 <= i < |stream| ==> stream[i].ts <= records[|records| - 1].ts
  }

  lemma {:induction false} RecordsSnoc(stream: seq<Bar>, bar: Bar)
    ensures Records(stream + [bar]) == if LaterThanAll(bar, stream) then Records(stream) + [bar] else Records(stream)
  {
    hide LaterThanAll;
    assert (stream + [bar])[..|stream|] == stream;
  }

  lemma {:induction false} LatestDecides(records: seq<Bar>, stream: seq<Bar>, bar: Bar)
    requires EndsLatest(records, stream)
    ensures LaterThanAll(bar, stream) <==> bar.ts > records[|records| - 1].ts
  {
  }

  lemma {:induction false} EndsLatestStep(records: seq<Bar>, stream: seq<Bar>, bar: Bar)
    requires EndsLatest(records, stream)
    ensures EndsLatest(if LaterThanAll(bar, stream) then records + [bar] else records, stream + [bar])
  {
    LatestDecides(records, stream, bar);
  }

  lemma {:induction false} RecordsEndLatest(stream: seq<Bar>)
    ensures Increasing(Records(stream))
    ensures stream != [] ==> EndsLatest(Records(stream), stream)
  {
    hide Increasing;
    hide LaterThanAll;
    hide EndsLatest;
    if stream == [] {
      FewAreIncreasing([]);
    } else {
      var init, bar := stream[..|stream| - 1], stream[|stream| - 1];
      assert stream == init + [bar];
      RecordsEndLatest(init);
      RecordsSnoc(init, bar);
      if init == [] {
        FirstRecord(bar);
        assert Records(stream) == [] + [bar] == [bar] && stream == [bar];
        FewAreIncreasing([bar]);
      } else {
        EndsSomewhere(Records(init), init);
        EndsLatestStep(Records(init), init, bar);
        LatestDecides(Records(init), init, bar);
        if LaterThanAll(bar, init) {
          AppendStaysIncreasing(Records(init), bar);
        }
      }
    }
  }

  lemma {:induction false} FirstRecord(bar: Bar)
    ensures LaterThanAll(bar, []) && EndsLatest([bar], [bar])
  {
  }

  lemma {:induction false} EndsSomewhere(records: seq<Bar>, stream: seq<Bar>)
    requires EndsLatest(records, stream)
    ensures records != []
  {
  }

  lemma {:induction false} FewAreIncreasing(bars: seq<Bar>)
    requires |bars| <= 1
    ensures Increasing(bars)
  {
  }

  lemma {:induction false} AcceptedSnoc(stream: seq<Bar>, bar: Bar, maxBars: nat)
    ensures var before := Accepted(stream, maxBars);
            Accepted(stream + [bar], maxBars) == if Admits(before, bar, maxBars) then before + [bar] else before
  {
    assert (stream + [bar])[..|stream|] == stream;
  }

  /** A window that holds any bars admits just what is later than everything delivered. */
  lemma {:induction false} AdmitsIffLatest(stream: seq<Bar>, bar: Bar, maxBars: nat)
    requires maxBars > 0
    ensures Admits(Records(stream), bar, maxBars) <==> LaterThanAll(bar, stream)
  {
    if stream != [] {
      RecordsEndLatest(stream);
      LatestDecides(Records(stream), stream, bar);
      LastHeldIsLast(Records(stream), maxBars);
    }
  }

  /** However small the window, what is accepted is exactly the bars that are later than all before them; only a
      window of no bars at all lets everything through. */
  lemma {:induction false} AcceptedAreRecords(stream: seq<Bar>, maxBars: nat)
    ensures Accepted(stream, maxBars) == if maxBars > 0 then Records(stream) else stream
  {
    hide LaterThanAll;
    if stream != [] {
      var init, bar := stream[..|stream| - 1], stream[|stream| - 1];
      assert stream == init + [bar];
      AcceptedAreRecords(init, maxBars);
      AcceptedSnoc(init, bar, maxBars);
      if maxBars > 0 {
        hide Admits;
        RecordsSnoc(init, bar);
        AdmitsIffLatest(init, bar, maxBars);
      }
    }
  }

  // ---------------------------------------------------------------- the indicators

  /** The last `n` closes held, or all of them when `n` is not positive. */
  function Closes(prices: seq<real>, n: int): seq<real> {
    if n > 0 then Last(prices, n) else prices
  }

  function SmaOf(prices: seq<real>, n: int): Reading {
    var closes := Closes(prices, n);
    if |closes| < n then NoReading
    else if closes == [] then Raises
    else Reading(Sum(closes) / |closes| as real)
  }

  function Blend(price: real, ema: real, alpha: real): real {
    price * alpha + ema * (1.0 - alpha)
  }

  /** How many closes the seed covers; a negative `n` counts from the end. */
  function SeedCount(length: nat, n: int): (k: nat)
    requires n <= length
    ensures k <= length
  {
    if n >= 0 then n else if length + n > 0 then length + n else 0
  }

  function Smoothed(closes: seq<real>, seed: nat, n: int): real
    requires seed <= |closes| && n != 0 && n != -1
    decreases |closes|
  {
    if |closes| == seed then Sum(closes) / n as real
    else Blend(closes[|closes| - 1], Smoothed(closes[..|closes| - 1], seed, n), 2.0 / (n + 1) as real)
  }

  function EmaOf(closes: seq<real>, n: int): Reading {
    if |closes| < n then NoReading
    else if n == 0 || n == -1 then Raises
    else Reading(Smoothed(closes, SeedCount(|closes|, n), n))
  }

  function Lowest(xs: seq<real>): real
    requires xs != []
  {
    if |xs| == 1 then xs[0] else Min(Lowest(xs[..|xs| - 1]), xs[|xs| - 1])
  }

  function Highest(xs: seq<real>): real
    requires xs != []
  {
    if |xs| == 1 then xs[0] else Max(Highest(xs[..|xs| - 1]), xs[|xs| - 1])
  }

  /** All but the last `offset` bars. */
  function Without(bars: seq<Bar>, offset: nat): seq<Bar> {
    if |bars| > offset then bars[..|bars| - offset] else []
  }

  /** The lowest and highest of the bars from `n + offset` ago until `offset` ago. */
  function DonchianBars(bars: seq<Bar>, n: int, offset: int): seq<Bar> {
    var window := if n + offset > 0 then Last(bars, n + offset) else bars;
    if offset <= 0 then window else Without(window, offset)
  }

  function Donchian(bars: seq<Bar>, n: int, offset: int): (channel: (Reading, Reading)) {
    var window := Prices(DonchianBars(bars, n, offset));
    if window == [] then (NoReading, NoReading) else (Reading(Lowest(window)), Reading(Highest(window)))
  }

  // ---------------------------------------------------------------- bounded window against full history

  lemma {:induction false} LastOfLast<T>(xs: seq<T>, n: nat, m: nat)
    requires n <= m
    ensures Last(Last(xs, m), n) == Last(xs, n)
  {
  }

  lemma {:induction false} PricesOfLast(bars: seq<Bar>, n: nat)
    ensures Prices(Last(bars, n)) == Last(Prices(bars), n)
  {
  }

  /** As long as the window is no shorter than asked, the mean is that of the full history. */
  lemma {:induction false} SmaSeesFullHistory(history: seq<Bar>, maxBars: nat, n: int)
    requires 0 < n <= maxBars
    ensures SmaOf(Prices(Last(history, maxBars)), n) == SmaOf(Prices(history), n)
  {
    PricesOfLast(history, maxBars);
    LastOfLast(Prices(history), n, maxBars);
  }

  /** On these closes the exponential average over the window is the one over the full history. */
  predicate EmaAgrees(closes: seq<real>, maxBars: nat, n: int) {
    EmaOf(Last(closes, maxBars), n) == EmaOf(closes, n)
  }

  /** Over one bar the exponential average is the last close. */
  lemma {:induction false} EmaOfOneIsLast(closes: seq<real>)
    requires closes != []
    ensures Smoothed(closes, 1, 1) == closes[|closes| - 1]
  {
    if |closes| == 1 {
      assert closes[..0] == [] && Sum(closes) == 0.0 + closes[0];
    }
  }

  /** A unit followed by nothing. */
  function Pulse(length: nat): seq<real>
    requires length > 0
  {
    [1.0] + seq(length - 1, _ => 0.0)
  }

  lemma {:induction false} PulseSum(length: nat)
    requires length > 0
    ensures Sum(Pulse(length)) == 1.0
  {
    if length == 1 {
      assert Pulse(1) == [1.0] && Pulse(1)[..0] == [];
    } else {
      PulseSum(length - 1);
      assert Pulse(length)[..length - 1] == Pulse(length - 1);
    }
  }

  lemma {:induction false} FadeStaysPositive(ema: real, d: real)
    requires ema > 0.0 && d > 2.0
    ensures Blend(0.0, ema, 2.0 / d) > 0.0
  {
    var alpha := 2.0 / d;
    assert alpha * d == 2.0;
    assert alpha < 1.0;
    assert ema * (1.0 - alpha) > 0.0;
  }

  lemma {:induction false} MeanOfPulse(n: nat)
    requires n > 0
    ensures Sum(Pulse(n)) / n as real > 0.0
  {
    PulseSum(n);
  }

  /** The average over more than one bar never forgets the pulse. */
  lemma {:induction false} PulseLasts(length: nat, n: nat)
    requires 2 <= n <= length
    ensures Smoothed(Pulse(length), n, n) > 0.0
    decreases length
  {
    hide Blend;
    if length == n {
      MeanOfPulse(n);
    } else {
      PulseLasts(length - 1, n);
      assert Pulse(length)[..length - 1] == Pulse(length - 1);
      FadeStaysPositive(Smoothed(Pulse(length - 1), n, n), (n + 1) as real);
    }
  }

  lemma {:induction false} SilenceIsZero(length: nat, n: nat)
    requires 1 <= n <= length
    ensures Smoothed(seq(length, _ => 0.0), n, n) == 0.0
    decreases length
  {
    var zeros := seq(length, _ => 0.0);
    assert Within(zeros, 0.0, 0.0);
    SmoothedWithin(zeros, n, 0.0, 0.0);
  }

  /** The exponential average is seeded where the window happens to begin. So it is the average over the full
      history for all closes if and only if nothing has left the window yet, or it covers a single bar. */
  lemma {:induction false} EmaSeesFullHistoryIff(maxBars: nat, n: nat, length: nat)
    requires 0 < n <= maxBars
    ensures (forall closes :: |closes| == length ==> EmaAgrees(closes, maxBars, n)) <==> length <= maxBars || n == 1
  {
    if length <= maxBars {
      forall closes: seq<real> | |closes| == length
        ensures EmaAgrees(closes, maxBars, n)
      {
      }
    } else if n == 1 {
      forall closes: seq<real> | |closes| == length
        ensures EmaAgrees(closes, maxBars, n)
      {
        EmaOfOneIsLast(closes);
        EmaOfOneIsLast(Last(closes, maxBars));
      }
    } else {
      var pulse := Pulse(length);
      PulseLasts(length, n);
      SilenceIsZero(maxBars, n);
      assert Last(pulse, maxBars) == seq(maxBars, _ => 0.0);
      assert !EmaAgrees(pulse, maxBars, n);
    }
  }

  lemma {:induction false} LastWithout(bars: seq<Bar>, n: nat, offset: nat)
    requires offset <= |bars|
    ensures Without(Last(bars, n + offset), offset) == Last(bars[..|bars| - offset], n)
  {
    var earlier := bars[..|bars| - offset];
    if |bars| > n + offset {
      var first := |bars| - n - offset;
      assert bars[first..][..n] == earlier[first..];
    }
  }

  /** A channel with an offset is the channel that could be seen `offset` bars earlier: nothing later enters it. */
  lemma {:induction false} DonchianLooksBack(history: seq<Bar>, maxBars: nat, n: nat, offset: nat)
    requires 0 < n && n + offset <= maxBars && offset <= |history|
    ensures Donchian(Last(history, maxBars), n, offset) == Donchian(Last(history[..|history| - offset], maxBars), n, 0)
  {
    var earlier := history[..|history| - offset];
    LastOfLast(history, n + offset, maxBars);
    LastOfLast(earlier, n, maxBars);
    assert DonchianBars(Last(earlier, maxBars), n, 0) == Last(earlier, n);
    LastWithout(history, n, offset);
    assert DonchianBars(Last(history, maxBars), n, offset) == Without(Last(history, n + offset), offset);
  }

  // ---------------------------------------------------------------- averages stay within the window

  ghost predicate Within(xs: seq<real>, low: real, high: real) {
    forall i :: 0 <= i < |xs| ==> low <= xs[i] <= high
  }

  lemma {:induction false} ExtremesBound(xs: seq<real>)
    requires xs != []
    ensures Within(xs, Lowest(xs), Highest(xs))
  {
    if |xs| > 1 {
      ExtremesBound(xs[..|xs| - 1]);
    }
  }

  lemma {:induction false} SumWithin(xs: seq<real>, low: real, high: real)
    requires Within(xs, low, high)
    ensures low * |xs| as real <= Sum(xs) <= high * |xs| as real
  {
    if xs != [] {
      var n := |xs| - 1;
      SumWithin(xs[..n], low, high);
      OneMore(low, n);
      OneMore(high, n);
    }
  }

  lemma {:induction false} OneMore(a: real, n: nat)
    ensures a * (n + 1) as real == a * n as real + a
  {
  }

  lemma {:induction false} QuotientWithin(total: real, n: real, low: real, high: real)
    requires n > 0.0 && low * n <= total <= high * n
    ensures low <= total / n <= high
  {
    var q := total / n;
    assert q * n == total;
    assert (q - low) * n >= 0.0 && (high - q) * n >= 0.0;
  }

  lemma {:induction false} Share(a: real, b: real)
    requires a >= 0.0 && b >= 0.0
    ensures a * b >= 0.0
  {
  }

  lemma {:induction false} BlendWithin(price: real, ema: real, alpha: real, low: real, high: real)
    requires low <= price <= high && low <= ema <= high && 0.0 <= alpha <= 1.0
    ensures low <= Blend(price, ema, alpha) <= high
  {
    var beta := 1.0 - alpha;
    Share(alpha, price - low);
    Share(beta, ema - low);
    Share(alpha, high - price);
    Share(beta, high - ema);
    assert Blend(price, ema, alpha) - low == alpha * (price - low) + beta * (ema - low);
    assert high - Blend(price, ema, alpha) == alpha * (high - price) + beta * (high - ema);
  }

  lemma {:induction false} SmoothedWithin(closes: seq<real>, seed: nat, low: real, high: real)
    requires 0 < seed <= |closes| && Within(closes, low, high)
    ensures low <= Smoothed(closes, seed, seed) <= high
    decreases |closes|
  {
    if |closes| == seed {
      SumWithin(closes, low, high);
      QuotientWithin(Sum(closes), seed as real, low, high);
    } else {
      var m := |closes| - 1;
      SmoothedWithin(closes[..m], seed, low, high);
      var alpha := 2.0 / (seed + 1) as real;
      QuotientWithin(2.0, (seed + 1) as real, 0.0, 1.0);
      BlendWithin(closes[m], Smoothed(closes[..m], seed, seed), alpha, low, high);
    }
  }

  /** A simple average that is given lies between the lowest and the highest close it covers. */
  lemma {:induction false} SmaWithin(prices: seq<real>, n: int)
    requires SmaOf(prices, n).Reading?
    ensures var closes := Closes(prices, n);
            closes != [] && Lowest(closes) <= SmaOf(prices, n).value <= Highest(closes)
  {
    var closes := Closes(prices, n);
    ExtremesBound(closes);
    SumWithin(closes, Lowest(closes), Highest(closes));
    QuotientWithin(Sum(closes), |closes| as real, Lowest(closes), Highest(closes));
  }

  /** So does an exponential one over a positive number of bars. */
  lemma {:induction false} EmaWithin(closes: seq<real>, n: int)
    requires n > 0 && EmaOf(closes, n).Reading?
    ensures closes != [] && Lowest(closes) <= EmaOf(closes, n).value <= Highest(closes)
  {
    ExtremesBound(closes);
    SmoothedWithin(closes, n, Lowest(closes), Highest(closes));
  }

  // ---------------------------------------------------------------- one more bar

  lemma {:induction false} SumCons(x: real, xs: seq<real>)
    ensures Sum([x] + xs) == x + Sum(xs)
  {
    if xs == [] {
      assert [x] + xs == [x] && [x][..0] == [];
    } else {
      var n := |xs| - 1;
      assert ([x] + xs)[..n + 1] == [x] + xs[..n];
      SumCons(x, xs[..n]);
    }
  }

  lemma {:induction false} SumSnoc(xs: seq<real>, x: real)
    ensures Sum(xs + [x]) == Sum(xs) + x
  {
    assert (xs + [x])[..|xs|] == xs;
  }

  lemma {:induction false} QuotientsDiffer(a: real, b: real, n: real)
    requires n != 0.0
    ensures (a / n - b / n) * n == a - b
  {
    assert a / n * n == a && b / n * n == b;
  }

  lemma {:induction false} SmaOfMany(prices: seq<real>, n: nat)
    requires n > 0
    ensures SmaOf(prices, n) == if |prices| >= n then Reading(Sum(prices[|prices| - n..]) / n as real) else NoReading
  {
    if |prices| == n {
      assert prices[0..] == prices;
    }
  }

  /** A mean over `n` closes is given exactly once there are that many. Then a new close moves it by an `n`-th of the
      distance to the close that it pushes out. */
  lemma {:induction false} SmaSlides(prices: seq<real>, n: nat, x: real)
    requires n > 0
    ensures SmaOf(prices, n).Reading? <==> |prices| >= n
    ensures |prices| >= n ==>
              && SmaOf(prices + [x], n).Reading?
              && (SmaOf(prices + [x], n).value - SmaOf(prices, n).value) * n as real == x - prices[|prices| - n]
  {
    hide SmaOf;
    hide Sum;
    SmaOfMany(prices, n);
    SmaOfMany(prices + [x], n);
    if |prices| >= n {
      var first, rest := prices[|prices| - n], prices[|prices| - n + 1..];
      assert prices[|prices| - n..] == [first] + rest;
      assert (prices + [x])[|prices| + 1 - n..] == rest + [x];
      SumCons(first, rest);
      SumSnoc(rest, x);
      QuotientsDiffer(Sum(rest + [x]), Sum([first] + rest), n as real);
    }
  }

  lemma {:induction false} BlendScales(x: real, ema: real, d: real)
    requires d > 0.0
    ensures Blend(x, ema, 2.0 / d) * d == 2.0 * x + (d - 2.0) * ema
  {
    var alpha := 2.0 / d;
    assert alpha * d == 2.0;
    assert Blend(x, ema, alpha) * d == x * (alpha * d) + ema * d - ema * (alpha * d);
  }

  /** The exponential average starts as the mean of the first `n` closes, and each later close moves it two parts in
      `n + 1` of the way. */
  lemma {:induction false} EmaFollows(closes: seq<real>, n: nat, x: real)
    requires n > 0
    ensures EmaOf(closes, n).Reading? <==> |closes| >= n
    ensures |closes| == n ==> EmaOf(closes, n) == SmaOf(closes, n)
    ensures |closes| >= n ==>
              && EmaOf(closes + [x], n).Reading?
              && EmaOf(closes + [x], n).value * (n + 1) as real == 2.0 * x + (n - 1) as real * EmaOf(closes, n).value
  {
    hide Blend;
    assert (closes + [x])[..|closes|] == closes;
    if |closes| >= n {
      BlendScales(x, Smoothed(closes, n, n), (n + 1) as real);
      assert (n + 1) as real - 2.0 == (n - 1) as real;
    }
  }

  ghost predicate Attains(xs: seq<real>, x: real) {
    exists i :: 0 <= i < |xs| && xs[i] == x
  }

  lemma {:induction false} ExtremesAttained(xs: seq<real>)
    requires xs != []
    ensures Attains(xs, Lowest(xs)) && Attains(xs, Highest(xs))
  {
    if |xs| == 1 {
      assert xs[0] == Lowest(xs) && xs[0] == Highest(xs);
    } else {
      var n := |xs| - 1;
      ExtremesAttained(xs[..n]);
      var i :| 0 <= i < n && xs[..n][i] == Lowest(xs[..n]);
      var j :| 0 <= j < n && xs[..n][j] == Highest(xs[..n]);
      assert xs[i] == Lowest(xs[..n]) && xs[j] == Highest(xs[..n]) && xs[n] == xs[|xs| - 1];
    }
  }

  ghost predicate Covered(bars: seq<Bar>, n: nat, offset: nat, i: nat) {
    |bars| - n - offset <= i < |bars| - offset
  }

  ghost predicate CoveredAt(bars: seq<Bar>, n: nat, offset: nat, price: real) {
    exists i :: 0 <= i < |bars| && Covered(bars, n, offset, i) && bars[i].price == price
  }

  lemma {:induction false} DonchianIndex(bars: seq<Bar>, n: nat, offset: nat)
    requires 0 < n
    ensures var first := if |bars| > n + offset then |bars| - n - offset else 0;
            var window := DonchianBars(bars, n, offset);
            && |window| == (if |bars| > offset then |bars| - offset - first else 0)
            && forall k :: 0 <= k < |window| ==> window[k] == bars[first + k]
  {
  }

  /** The channel spans exactly the prices of the `n` bars, or however many there are, that end `offset` bars ago:
      both edges are among them and none is outside. Without any such bar there is no channel. */
  lemma {:induction false} DonchianSpans(bars: seq<Bar>, n: nat, offset: nat)
    requires 0 < n
    ensures var (low, high) := Donchian(bars, n, offset);
            && (low == NoReading <==> |bars| <= offset) && (high == NoReading <==> |bars| <= offset)
            && (|bars| > offset ==>
                  && low.Reading? && high.Reading?
                  && CoveredAt(bars, n, offset, low.value) && CoveredAt(bars, n, offset, high.value)
                  && forall i :: 0 <= i < |bars| && Covered(bars, n, offset, i) ==> low.value <= bars[i].price <= high.value)
  {
    hide DonchianBars;
    DonchianIndex(bars, n, offset);
    var window := DonchianBars(bars, n, offset);
    var prices := Prices(window);
    if |bars| > offset {
      var first := if |bars| > n + offset then |bars| - n - offset else 0;
      ExtremesBound(prices);
      ExtremesAttained(prices);
      forall i | 0 <= i < |bars| && Covered(bars, n, offset, i)
        ensures Lowest(prices) <= bars[i].price <= Highest(prices)
      {
        assert prices[i - first] == window[i - first].price == bars[i].price;
      }
      var j :| 0 <= j < |prices| && prices[j] == Lowest(prices);
      assert Covered(bars, n, offset, first + j) && bars[first + j].price == Lowest(prices);
      var k :| 0 <= k < |prices| && prices[k] == Highest(prices);
      assert Covered(bars, n, offset, first + k) && bars[first + k].price == Highest(prices);
    }
  }
}
