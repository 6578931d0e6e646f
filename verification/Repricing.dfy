/** Changing the prices of a stream: what stays, and when a cycle is worth its cash at every price. */
module Repricing {
  import opened Numbers
  import opened Fills
  import opened Cycles
  import opened Episodes

  function Reprice(fills: seq<Fill>, prices: seq<real>): (r: seq<Fill>)
    requires |prices| == |fills|
    ensures |r| == |fills|
  {
    seq(|fills|, i requires 0 <= i < |fills| => fills[i].(price := prices[i]))
  }

  predicate AllPositive(prices: seq<real>) {
    forall i :: 0 <= i < |prices| ==> prices[i] > 0.0
  }

  // ---------------------------------------------------------------- changing one price

  lemma {:induction false} TotalPointwise(g: Fill -> real, a: seq<Fill>, b: seq<Fill>)
    requires |a| == |b| && forall k :: 0 <= k < |a| ==> g(a[k]) == g(b[k])
    ensures Total(g, a) == Total(g, b)
  {
    if a != [] {
      TotalPointwise(g, a[1..], b[1..]);
    }
  }

  lemma {:induction false} TotalUpdate(g: Fill -> real, a: seq<Fill>, i: nat, f: Fill)
    requires i < |a|
    ensures Total(g, a[i := f]) == Total(g, a) - g(a[i]) + g(f)
  {
    if i == 0 {
      assert a[0 := f][1..] == a[1..];
    } else {
      assert a[i := f][1..] == a[1..][i - 1 := f];
      TotalUpdate(g, a[1..], i - 1, f);
    }
  }

  function Dearer(f: Fill): Fill {
    f.(price := f.price + 1.0)
  }

  function Bumped(fills: seq<Fill>, i: nat): seq<Fill>
    requires i < |fills|
  {
    fills[i := Dearer(fills[i])]
  }

  lemma {:induction false} SameQuantities(fills: seq<Fill>, i: nat, k: nat)
    requires i < |fills| && k <= |fills|
    ensures NetQuantity(Bumped(fills, i)[..k]) == NetQuantity(fills[..k])
  {
    TotalPointwise(SIGNED, Bumped(fills, i)[..k], fills[..k]);
  }

  /** With an exit made dearer, every fill stays in its leg. */
  lemma {:induction false} SameExits(seg: seq<Fill>, i: nat, k: nat)
    requires i < |seg| && k < |seg|
    ensures ExitAt(Bumped(seg, i), k) == ExitAt(seg, k)
  {
    SameQuantities(seg, i, k);
  }

  lemma {:induction false} DearerExitLegs(seg: seq<Fill>, i: nat, n: nat)
    requires i < |seg| && n <= |seg| && ExitAt(seg, i)
    ensures Leg(Bumped(seg, i), n, false) == Leg(seg, n, false)
    ensures |Leg(Bumped(seg, i), n, true)| == |Leg(seg, n, true)|
  {
    if n > 0 {
      DearerExitLegs(seg, i, n - 1);
      SameExits(seg, i, n - 1);
    }
  }

  lemma {:induction false} DearerExitTotal(g: Fill -> real, seg: seq<Fill>, i: nat, n: nat)
    requires i < |seg| && n <= |seg| && ExitAt(seg, i)
    ensures Total(g, Leg(Bumped(seg, i), n, true))
         == Total(g, Leg(seg, n, true)) + (if i < n then g(Dearer(seg[i])) - g(seg[i]) else 0.0)
  {
    if n > 0 {
      var b := Bumped(seg, i);
      DearerExitTotal(g, seg, i, n - 1);
      SameExits(seg, i, n - 1);
      TotalSnoc(g, Leg(b, n - 1, true), b[n - 1]);
      TotalSnoc(g, Leg(seg, n - 1, true), seg[n - 1]);
    }
  }

  // ---------------------------------------------------------------- what no price changes

  lemma {:induction false} RepricedPrefixes(fills: seq<Fill>, prices: seq<real>, k: nat)
    requires |prices| == |fills| && k <= |fills|
    ensures NetQuantity(Reprice(fills, prices)[..k]) == NetQuantity(fills[..k])
  {
    TotalPointwise(SIGNED, Reprice(fills, prices)[..k], fills[..k]);
  }

  lemma {:induction false} RepricedStretch(seg: seq<Fill>, prices: seq<real>)
    requires |prices| == |seg| && Stretch(seg) && Positive(seg) && NetQuantity(seg) == 0.0
    ensures var r := Reprice(seg, prices);
            Stretch(r) && Positive(r) && NetQuantity(r) == 0.0 && (Proper(r) <==> Proper(seg))
  {
    var r := Reprice(seg, prices);
    forall k | 0 <= k <= |seg|
      ensures NetQuantity(r[..k]) == NetQuantity(seg[..k])
    {
      RepricedPrefixes(seg, prices, k);
    }
    assert r[..|seg|] == r && seg[..|seg|] == seg;
    assert forall k :: 1 <= k < |seg| ==> FlatAt(r, k) == FlatAt(seg, k);
    assert forall k :: 1 <= k < |seg| ==> ProperAt(r, k) == ProperAt(seg, k);
  }

  // ---------------------------------------------------------------- gross against cash

  predicate GrossIsCash(symbol: string, seg: seq<Fill>)
    requires seg != []
  {
    AverageGross(CycleOf(symbol, seg)) == NetCash(seg)
  }

  ghost predicate GrossIsCashAtEveryPrice(symbol: string, seg: seq<Fill>)
    requires seg != []
  {
    forall prices :: |prices| == |seg| && AllPositive(prices) ==> GrossIsCash(symbol, Reprice(seg, prices))
  }

  lemma {:induction false} DearerCash(fills: seq<Fill>, i: nat)
    requires i < |fills|
    ensures NetCash(Bumped(fills, i)) == NetCash(fills) - Signed(fills[i])
  {
    var f := fills[i];
    TotalUpdate(CASHFLOW, fills, i, Dearer(f));
    assert (f.price + 1.0) * Signed(f) == f.price * Signed(f) + Signed(f);
  }

  lemma {:induction false} AverageOfMore(notional: real, q: real, x: real)
    requires x > 0.0
    ensures (notional + q) / x == notional / x + q / x
  {
  }

  lemma {:induction false} SpreadMoves(entry: real, exit: real, more: real, closed: real)
    ensures (exit + more - entry) * closed == (exit - entry) * closed + more * closed
    ensures (entry - (exit + more)) * closed == (entry - exit) * closed - more * closed
  {
  }

  /** Two cycles that differ by `q` in the notional of their exits. */
  lemma {:induction false} GrossMoves(c: CycleValue, d: CycleValue, q: real)
    requires d.direction == c.direction && d.entryFills == c.entryFills
    requires Total(QUANTITY, d.exitFills) == Total(QUANTITY, c.exitFills) > 0.0
    requires Total(NOTIONAL, d.exitFills) == Total(NOTIONAL, c.exitFills) + q
    ensures var entered, exited := Total(QUANTITY, c.entryFills), Total(QUANTITY, c.exitFills);
            AverageGross(d) - AverageGross(c)
            == if c.direction == LONG then q / exited * Min(entered, exited) else -(q / exited * Min(entered, exited))
  {
    hide Total;
    var entered, exited := Total(QUANTITY, c.entryFills), Total(QUANTITY, c.exitFills);
    AverageOfMore(Total(NOTIONAL, c.exitFills), q, exited);
    SpreadMoves(WeightedAvg(c.entryFills), WeightedAvg(c.exitFills), q / exited, Min(entered, exited));
  }

  lemma {:induction false} PositiveLegs(symbol: string, seg: seq<Fill>)
    requires seg != [] && Positive(seg) && CycleOf(symbol, seg).Complete()
    ensures Total(QUANTITY, CycleOf(symbol, seg).entryFills) > 0.0 && Total(QUANTITY, CycleOf(symbol, seg).exitFills) > 0.0
  {
    LegIsPositive(seg, |seg|, true);
    LegIsPositive(seg, |seg|, false);
    PositiveTotal(CycleOf(symbol, seg).exitFills);
    PositiveTotal(CycleOf(symbol, seg).entryFills);
  }

  /** An exit dearer by one moves the gross by its share of the exit leg, times what was entered. */
  lemma {:induction false} DearerExitMovesGross(symbol: string, seg: seq<Fill>, i: nat)
    requires i < |seg| && ExitAt(seg, i) && Positive(seg) && CycleOf(symbol, seg).Complete()
    ensures var c := CycleOf(symbol, seg);
            var entered, exited := Total(QUANTITY, c.entryFills), Total(QUANTITY, c.exitFills);
            && entered > 0.0 && exited > 0.0
            && (var moved := seg[i].quantity / exited * Min(entered, exited);
                AverageGross(CycleOf(symbol, Bumped(seg, i))) - AverageGross(c) == if seg[0].side == BUY then moved else -moved)
  {
    hide AverageGross;
    hide Total;
    hide Leg;
    var n := |seg|;
    DearerExitLegs(seg, i, n);
    DearerExitTotal(QUANTITY, seg, i, n);
    DearerExitTotal(NOTIONAL, seg, i, n);
    assert NOTIONAL(Dearer(seg[i])) == NOTIONAL(seg[i]) + seg[i].quantity;
    PositiveLegs(symbol, seg);
    GrossMoves(CycleOf(symbol, seg), CycleOf(symbol, Bumped(seg, i)), seg[i].quantity);
  }

  /** A flat stretch ends with an exit, and an improper one exits more than it entered. */
  lemma {:induction false} ImproperLegs(symbol: string, seg: seq<Fill>)
    requires Stretch(seg) && Positive(seg) && NetQuantity(seg) == 0.0 && !Proper(seg)
    ensures ExitAt(seg, |seg| - 1) && CycleOf(symbol, seg).Complete()
    ensures var c := CycleOf(symbol, seg); 0.0 < Total(QUANTITY, c.entryFills) < Total(QUANTITY, c.exitFills)
  {
    var i := |seg| - 1;
    assert seg == seg[..i] + [seg[i]];
    TotalSnoc(SIGNED, seg[..i], seg[i]);
    FlatStretchIsComplete(symbol, seg);
    EntryEqualsExitIffProper(symbol, seg, map[]);
    PositiveLegs(symbol, seg);
  }

  lemma {:induction false} ShareIsLess(q: real, entered: real, exited: real)
    requires q > 0.0 && 0.0 < entered < exited
    ensures 0.0 < q / exited * entered < q
  {
    var share := q / exited;
    assert share * exited == q && share > 0.0;
    assert share * entered > 0.0 && share * (exited - entered) > 0.0;
  }

  /** A cycle that overshoots cannot be worth its cash both before and after its last exit gets dearer. */
  lemma {:induction false} ImproperMisprices(symbol: string, seg: seq<Fill>) returns (i: nat)
    requires Stretch(seg) && Positive(seg) && NetQuantity(seg) == 0.0 && !Proper(seg)
    ensures i < |seg| && !(GrossIsCash(symbol, seg) && GrossIsCash(symbol, Bumped(seg, i)))
  {
    hide AverageGross;
    hide Total;
    hide ExitAt;
    hide CycleOf;
    i := |seg| - 1;
    ImproperLegs(symbol, seg);
    DearerExitMovesGross(symbol, seg, i);
    DearerCash(seg, i);
    var c := CycleOf(symbol, seg);
    ShareIsLess(seg[i].quantity, Total(QUANTITY, c.entryFills), Total(QUANTITY, c.exitFills));
  }

  /** The average-price formula is the cash of a completed cycle, long or short, at every price if and only if
      the cycle is proper: no reducing fill overshoots, and no reduce-only fill is on the opening side. */
  lemma {:induction false} GrossIsCashIffProper(symbol: string, seg: seq<Fill>)
    requires Stretch(seg) && Positive(seg) && NetQuantity(seg) == 0.0
    ensures GrossIsCashAtEveryPrice(symbol, seg) <==> Proper(seg)
  {
    hide GrossIsCash;
    if Proper(seg) {
      forall prices | |prices| == |seg| && AllPositive(prices)
        ensures GrossIsCash(symbol, Reprice(seg, prices))
      {
        RepricedStretch(seg, prices);
        ProperIsCash(symbol, Reprice(seg, prices));
      }
    } else {
      var ones := seq(|seg|, _ => 1.0);
      var r := Reprice(seg, ones);
      RepricedStretch(seg, ones);
      var i := ImproperMisprices(symbol, r);
      assert Reprice(seg, ones[i := 2.0]) == Bumped(r, i);
    }
  }

  lemma {:induction false} ProperIsCash(symbol: string, seg: seq<Fill>)
    requires Stretch(seg) && Positive(seg) && NetQuantity(seg) == 0.0 && Proper(seg)
    ensures GrossIsCash(symbol, seg)
  {
    GrossIsNetCash(symbol, seg);
  }
}
