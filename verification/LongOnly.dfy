/** When ledger and episodes agree on a long-only stream: exactly when it has no reduce-only buy. */
module LongOnly {
  import opened Numbers
  import opened Fills
  import opened Cycles
  import opened Episodes
  import opened Repricing
  import opened RiskGate
  import opened Agreement
  import opened Journal
  import opened Projection
  import opened Settlement

  predicate IsReduceOnlyBuy(f: Fill) {
    f.reduceOnly && f.side == BUY
  }

  /** The episodes of the stream earn the cash of its fills (no perpetual ledger hit). */
  predicate CyclesEarnTheCash(symbol: string, fills: seq<Fill>) {
    SumGross(BuiltCycles(symbol, fills), map[]) == NetCash(fills)
  }

  /** Settled on top of `start` and replayed, the stream has realised what its episodes say. */
  ghost predicate LedgerAgrees(initial: map<string, real>, start: seq<Transaction>, symbol: string, fills: seq<Fill>,
                               events: seq<string>)
    requires |fills| == |events| && Replay(Initial(initial), start).Ok?
  {
    var r := Replay(Initial(initial), SettleAll(initial, start, fills, events));
    && r.Ok?
    && r.value.PositionOf(symbol).realizedPnl
       == Replay(Initial(initial), start).value.PositionOf(symbol).realizedPnl + SumGross(BuiltCycles(symbol, fills), map[])
  }

  ghost predicate LedgerAgreesAtEveryPrice(initial: map<string, real>, start: seq<Transaction>, symbol: string, fills: seq<Fill>,
                                           events: seq<string>)
    requires |fills| == |events| && Replay(Initial(initial), start).Ok?
  {
    forall prices :: |prices| == |fills| && AllPositive(prices) ==>
      LedgerAgrees(initial, start, symbol, Reprice(fills, prices), events)
  }

  // ---------------------------------------------------------------- the ledger's side

  /** Spot fills of one symbol that start and end flat and never oversell, at prices that are not negative. */
  ghost predicate RoundTrips(symbol: string, fills: seq<Fill>) {
    && (forall k :: 0 <= k < |fills| ==> fills[k].symbol == symbol && fills[k].marketType == SPOT && fills[k].price >= 0.0)
    && Positive(fills) && NeverShort(fills) && NetQuantity(fills) == 0.0
  }

  lemma {:induction false} OnlyOne(symbol: string, fills: seq<Fill>, other: string)
    requires forall k :: 0 <= k < |fills| ==> fills[k].symbol == symbol
    ensures Only(other, fills) == if other == symbol then fills else []
  {
    if fills != [] {
      OnlyOne(symbol, fills[1..], other);
    }
  }

  lemma {:induction false} RoundTripsAreCovered(symbol: string, fills: seq<Fill>)
    requires RoundTrips(symbol, fills)
    ensures AllCovered(fills) && AllFlat(fills)
  {
    forall k | 0 <= k < |fills|
      ensures CoveredAt(fills, k)
    {
      OnlyOne(symbol, fills[..k], symbol);
      assert fills[..k + 1] == fills[..k] + [fills[k]];
      TotalSnoc(SIGNED, fills[..k], fills[k]);
      assert NetQuantity(fills[..k + 1]) >= 0.0;
    }
    forall other
      ensures NetQuantity(Only(other, fills)) == 0.0
    {
      OnlyOne(symbol, fills, other);
    }
  }

  /** The replayed ledger realises exactly the cash of the stream, so it agrees with the episodes exactly when
      they earn that cash. The reduce-only flag never reaches the journal. */
  lemma {:induction false} LedgerEarnsTheCash(initial: map<string, real>, start: seq<Transaction>, symbol: string, fills: seq<Fill>,
                                              events: seq<string>)
    requires |fills| == |events| && RoundTrips(symbol, fills)
    requires Ready(initial, start) && FreshEvents(events) && Unseen(start, events, 0)
    ensures LedgerAgrees(initial, start, symbol, fills, events) <==> CyclesEarnTheCash(symbol, fills)
  {
    hide Replay;
    hide SettleAll;
    hide BuiltCycles;
    RoundTripsAreCovered(symbol, fills);
    FlatSettlement(initial, start, fills, events);
    OnlyOne(symbol, fills, symbol);
  }

  // ---------------------------------------------------------------- a dearer exit

  lemma {:induction false} SameFirstFlat(fills: seq<Fill>, i: nat, n: nat)
    requires i < |fills| && 1 <= n <= |fills|
    ensures FirstFlat(Bumped(fills, i), n) == FirstFlat(fills, n)
    decreases |fills| - n
  {
    SameQuantities(fills, i, n);
    if n < |fills| {
      SameFirstFlat(fills, i, n + 1);
    }
  }

  /** Making an exit of a long cycle dearer never lowers its gross PnL. */
  lemma {:induction false} DearerExitPaysMore(symbol: string, seg: seq<Fill>, i: nat)
    requires i < |seg| && ExitAt(seg, i) && seg[0].side == BUY && Positive(seg)
    requires CycleOf(symbol, seg).Complete()
    ensures CycleOf(symbol, Bumped(seg, i)).Complete()
    ensures GrossPnl(CycleOf(symbol, Bumped(seg, i)), map[]) >= GrossPnl(CycleOf(symbol, seg), map[])
  {
    hide AverageGross;
    var n, c, d := |seg|, CycleOf(symbol, seg), CycleOf(symbol, Bumped(seg, i));
    DearerExitLegs(seg, i, n);
    SameQuantities(seg, i, n);
    assert seg[..n] == seg && Bumped(seg, i)[..n] == Bumped(seg, i);
    NoFirstHit(c.exitFills, map[]);
    NoFirstHit(d.exitFills, map[]);
    DearerExitMovesGross(symbol, seg, i);
    var entered, exited := Total(QUANTITY, c.entryFills), Total(QUANTITY, c.exitFills);
    ShareIsNotNegative(seg[i].quantity, Min(entered, exited), exited);
  }

  lemma {:induction false} ShareIsNotNegative(q: real, closed: real, exited: real)
    requires q > 0.0 && closed >= 0.0 && exited > 0.0
    ensures q / exited * closed >= 0.0
  {
    assert q / exited > 0.0;
  }

  // ---------------------------------------------------------------- the first reduce-only buy

  /** Fill `i` is a reduce-only buy, and everything before it is orderly and never short. */
  ghost predicate FirstReduceOnlyBuy(fills: seq<Fill>, i: nat) {
    && i < |fills| && IsReduceOnlyBuy(fills[i])
    && (forall k :: 0 <= k < i ==> OrderlyAt(NetQuantity(fills[..k]), fills[k]))
    && (forall k :: 0 <= k <= i ==> NetQuantity(fills[..k]) >= 0.0)
  }

  lemma {:induction false} FirstAfterFlat(fills: seq<Fill>, i: nat, n: nat)
    requires FirstReduceOnlyBuy(fills, i) && n <= i && FlatAt(fills, n)
    ensures FirstReduceOnlyBuy(fills[n..], i - n)
  {
    forall k | 0 <= k <= i - n
      ensures NetQuantity(fills[n..][..k]) == NetQuantity(fills[..n + k])
    {
      NetQuantityFrom(fills, n, k);
    }
  }

  lemma {:induction false} SumGrossCons(c: CycleValue, cycles: seq<CycleValue>)
    ensures SumGross([c] + cycles, map[]) == GrossPnl(c, map[]) + SumGross(cycles, map[])
  {
    assert ([c] + cycles)[1..] == cycles;
  }

  /** The stretch that holds the first reduce-only buy: its exit only gains from a dearer price. */
  lemma {:induction false} DearerStretch(symbol: string, fills: seq<Fill>, i: nat)
    requires Positive(fills) && FirstReduceOnlyBuy(fills, i) && 0 < i < FirstFlat(fills, 1)
    ensures SumGross(BuiltCycles(symbol, Bumped(fills, i)), map[]) >= SumGross(BuiltCycles(symbol, fills), map[])
  {
    var n, b := FirstFlat(fills, 1), Bumped(fills, i);
    var seg, rest := fills[..n], fills[n..];
    assert fills[..0] == [] && OrderlyAt(NetQuantity(fills[..0]), fills[0]);
    assert fills[..1] == [] + [fills[0]] && NetQuantity(fills[..1]) >= 0.0;
    TotalSnoc(SIGNED, [], fills[0]);
    SameFirstFlat(fills, i, 1);
    SameQuantities(fills, i, n);
    CyclesUnfold(symbol, fills);
    CyclesUnfold(symbol, b);
    assert b[..n] == Bumped(seg, i) && b[n..] == rest;
    assert seg[..i] == fills[..i] && ExitAt(seg, i);
    if FlatAt(fills, n) {
      FlatStretchIsComplete(symbol, seg);
      DearerExitPaysMore(symbol, seg, i);
      SumGrossCons(CycleOf(symbol, seg), BuiltCycles(symbol, rest));
      SumGrossCons(CycleOf(symbol, Bumped(seg, i)), BuiltCycles(symbol, rest));
    }
  }

  /** A reduce-only fill at the start leaves no trace in the cycles. */
  lemma {:induction false} IgnoredFirst(symbol: string, fills: seq<Fill>)
    requires fills != [] && fills[0].reduceOnly
    ensures BuiltCycles(symbol, fills) == BuiltCycles(symbol, fills[1..])
  {
    ReplayIsSegmentation(symbol, fills);
    ReplayIsSegmentation(symbol, fills[1..]);
    assert ([Ignored(fills[0])] + Blocks(fills[1..]))[1..] == Blocks(fills[1..]);
  }

  /** A dearer reduce-only buy costs more cash, yet never lowers the episodes' gross PnL. */
  lemma {:induction false} DearerReduceOnlyBuy(symbol: string, fills: seq<Fill>, i: nat)
    requires Positive(fills) && FirstReduceOnlyBuy(fills, i)
    ensures SumGross(BuiltCycles(symbol, Bumped(fills, i)), map[]) >= SumGross(BuiltCycles(symbol, fills), map[])
    decreases |fills|
  {
    hide SumGross;
    hide BuiltCycles;
    assert fills[..0] == [];
    if i == 0 {
      IgnoredFirst(symbol, fills);
      IgnoredFirst(symbol, Bumped(fills, i));
      assert Bumped(fills, i)[1..] == fills[1..];
    } else {
      assert OrderlyAt(NetQuantity(fills[..0]), fills[0]);
      var n := FirstFlat(fills, 1);
      if i < n {
        DearerStretch(symbol, fills, i);
      } else {
        LaterStretch(symbol, fills, i);
        var rest := fills[n..];
        FirstAfterFlat(fills, i, n);
        DearerReduceOnlyBuy(symbol, rest, i - n);
      }
    }
  }

  /** Skipping the first cycle, which the change does not touch. */
  lemma {:induction false} LaterStretch(symbol: string, fills: seq<Fill>, i: nat)
    requires Positive(fills) && FirstReduceOnlyBuy(fills, i) && i >= FirstFlat(fills, 1) && !fills[0].reduceOnly
    ensures var n := FirstFlat(fills, 1); var rest := fills[n..];
            && FlatAt(fills, n)
            && SumGross(BuiltCycles(symbol, Bumped(fills, i)), map[]) - SumGross(BuiltCycles(symbol, fills), map[])
            == SumGross(BuiltCycles(symbol, Bumped(rest, i - n)), map[]) - SumGross(BuiltCycles(symbol, rest), map[])
  {
    var n, b := FirstFlat(fills, 1), Bumped(fills, i);
    var seg, rest := fills[..n], fills[n..];
    SameFirstFlat(fills, i, 1);
    SameQuantities(fills, i, n);
    CyclesUnfold(symbol, fills);
    CyclesUnfold(symbol, b);
    assert b[..n] == seg && b[n..] == Bumped(rest, i - n);
    FlatStretchIsComplete(symbol, seg);
    SumGrossCons(CycleOf(symbol, seg), BuiltCycles(symbol, rest));
    SumGrossCons(CycleOf(symbol, seg), BuiltCycles(symbol, Bumped(rest, i - n)));
  }

  // ---------------------------------------------------------------- the exact condition

  ghost predicate NoReduceOnlyBuys(fills: seq<Fill>) {
    forall k :: 0 <= k < |fills| ==> !IsReduceOnlyBuy(fills[k])
  }

  lemma {:induction false} RepricedRoundTrips(symbol: string, fills: seq<Fill>, prices: seq<real>)
    requires |prices| == |fills| && AllPositive(prices) && RoundTrips(symbol, fills)
    ensures RoundTrips(symbol, Reprice(fills, prices))
    ensures NoReduceOnlyBuys(Reprice(fills, prices)) <==> NoReduceOnlyBuys(fills)
  {
    var r := Reprice(fills, prices);
    forall k | 0 <= k <= |r|
      ensures NetQuantity(r[..k]) == NetQuantity(fills[..k])
    {
      RepricedPrefixes(fills, prices, k);
    }
    assert r[..|r|] == r && fills[..|r|] == fills;
    assert forall k :: 0 <= k < |fills| ==> IsReduceOnlyBuy(r[k]) == IsReduceOnlyBuy(fills[k]);
  }

  lemma {:induction false} LeastReduceOnlyBuy(fills: seq<Fill>) returns (i: nat)
    requires Positive(fills) && NeverShort(fills) && !NoReduceOnlyBuys(fills)
    ensures FirstReduceOnlyBuy(fills, i)
  {
    i := 0;
    while !IsReduceOnlyBuy(fills[i])
      invariant i < |fills|
      invariant forall k :: 0 <= k < i ==> !IsReduceOnlyBuy(fills[k])
      invariant exists k :: i <= k < |fills| && IsReduceOnlyBuy(fills[k])
      decreases |fills| - i
    {
      i := i + 1;
    }
    var before := fills[..i];
    forall k | 0 <= k <= i
      ensures before[..k] == fills[..k]
    {
    }
    LongOnlyOrderlyIff(before);
    assert forall k :: 0 <= k < i ==> OrderlyAt(NetQuantity(before[..k]), before[k]);
  }

  lemma {:induction false} CashWithoutReduceOnlyBuys(symbol: string, fills: seq<Fill>)
    requires RoundTrips(symbol, fills) && NoReduceOnlyBuys(fills)
    ensures CyclesEarnTheCash(symbol, fills)
  {
    LongOnlyOrderlyIff(fills);
    FlatMeansNoTail(symbol, fills, map[]);
  }

  lemma {:induction false} BumpedRoundTrips(symbol: string, fills: seq<Fill>, i: nat)
    requires RoundTrips(symbol, fills) && i < |fills|
    ensures RoundTrips(symbol, Bumped(fills, i))
  {
    var b := Bumped(fills, i);
    forall k | 0 <= k <= |b|
      ensures NetQuantity(b[..k]) == NetQuantity(fills[..k])
    {
      SameQuantities(fills, i, k);
    }
    assert b[..|b|] == b && fills[..|b|] == fills;
  }

  /** The episodes cannot earn the cash both before and after a higher price on the first reduce-only buy. */
  lemma {:induction false} DearerBuyMissesTheCash(symbol: string, fills: seq<Fill>) returns (i: nat)
    requires Positive(fills) && NeverShort(fills) && !NoReduceOnlyBuys(fills)
    ensures i < |fills| && !(CyclesEarnTheCash(symbol, fills) && CyclesEarnTheCash(symbol, Bumped(fills, i)))
  {
    hide SumGross;
    hide BuiltCycles;
    i := LeastReduceOnlyBuy(fills);
    DearerReduceOnlyBuy(symbol, fills, i);
    DearerCash(fills, i);
  }

  /** With a reduce-only buy, the replayed ledger and the episodes disagree at the given prices or after the price
      of one named buy is raised. */
  lemma {:induction false} ReduceOnlyBuyDisagrees(initial: map<string, real>, start: seq<Transaction>, symbol: string,
                                                  fills: seq<Fill>, events: seq<string>) returns (i: nat)
    requires |fills| == |events| && RoundTrips(symbol, fills) && !NoReduceOnlyBuys(fills)
    requires Ready(initial, start) && FreshEvents(events) && Unseen(start, events, 0)
    ensures i < |fills|
    ensures !(LedgerAgrees(initial, start, symbol, fills, events) && LedgerAgrees(initial, start, symbol, Bumped(fills, i), events))
  {
    hide LedgerAgrees;
    hide CyclesEarnTheCash;
    i := DearerBuyMissesTheCash(symbol, fills);
    BumpedRoundTrips(symbol, fills, i);
    LedgerEarnsTheCash(initial, start, symbol, fills, events);
    LedgerEarnsTheCash(initial, start, symbol, Bumped(fills, i), events);
  }

  /** Spot fills of a symbol that start and end flat and never oversell, settled on top of any ledger without open
      positions: the PnL the replayed ledger realises is the gross PnL of the episodes at every price if and only
      if none of the buys is reduce-only. */
  lemma {:induction false} AgreementIffNoReduceOnlyBuys(initial: map<string, real>, start: seq<Transaction>, symbol: string,
                                                        fills: seq<Fill>, events: seq<string>)
    requires |fills| == |events| && RoundTrips(symbol, fills)
    requires Ready(initial, start) && FreshEvents(events) && Unseen(start, events, 0)
    ensures LedgerAgreesAtEveryPrice(initial, start, symbol, fills, events) <==> NoReduceOnlyBuys(fills)
  {
    hide LedgerAgrees;
    hide CyclesEarnTheCash;
    hide RoundTrips;
    if NoReduceOnlyBuys(fills) {
      forall prices | |prices| == |fills| && AllPositive(prices)
        ensures LedgerAgrees(initial, start, symbol, Reprice(fills, prices), events)
      {
        RepricedRoundTrips(symbol, fills, prices);
        CashWithoutReduceOnlyBuys(symbol, Reprice(fills, prices));
        LedgerEarnsTheCash(initial, start, symbol, Reprice(fills, prices), events);
      }
    } else {
      var ones := seq(|fills|, _ => 1.0);
      var r := Reprice(fills, ones);
      RepricedRoundTrips(symbol, fills, ones);
      var i := ReduceOnlyBuyDisagrees(initial, start, symbol, r, events);
      assert Reprice(fills, ones[i := 2.0]) == Bumped(r, i);
    }
  }
}
