/** Two independent accounts of the same money: the average-cost ledger replay, and the
    flat-to-flat cycles priced from weighted averages. */
module Agreement {
  import opened Wrappers
  import opened Fills
  import opened Cycles
  import opened Episodes
  import opened RiskGate

  function SumGross(cycles: seq<CycleValue>, hits: LedgerHits): real {
    if cycles == [] then 0.0 else GrossPnl(cycles[0], hits) + SumGross(cycles[1..], hits)
  }

  function SumFees(cycles: seq<CycleValue>): real {
    if cycles == [] then 0.0 else Total(FEES, cycles[0].entryFills + cycles[0].exitFills) + SumFees(cycles[1..])
  }

  predicate AllComplete(cycles: seq<CycleValue>) {
    forall i :: 0 <= i < |cycles| ==> cycles[i].Complete()
  }

  /** The sum of the episodes' net PnL. */
  function SumNet(cycles: seq<CycleValue>, hits: LedgerHits): real
    requires AllComplete(cycles)
  {
    if cycles == [] then 0.0 else CycleEpisode(cycles[0], hits).netPnl + SumNet(cycles[1..], hits)
  }

  lemma {:induction false} NetIsGrossLessFees(cycles: seq<CycleValue>, hits: LedgerHits)
    requires AllComplete(cycles)
    ensures SumNet(cycles, hits) == SumGross(cycles, hits) - SumFees(cycles)
  {
    if cycles != [] {
      NetIsGrossLessFees(cycles[1..], hits);
    }
  }

  /** The unfinished stretch at the end of the stream. */
  function OpenTail(fills: seq<Fill>): seq<Fill>
    decreases |fills|
  {
    if fills == [] then []
    else if fills[0].reduceOnly then OpenTail(fills[1..])
    else
      var n := FirstFlat(fills, 1);
      if FlatAt(fills, n) then OpenTail(fills[n..]) else fills
  }

  ghost predicate NoHits(fills: seq<Fill>, hits: LedgerHits) {
    forall f :: f in fills ==> f.orderId !in hits
  }

  lemma {:induction false} NoFirstHit(fills: seq<Fill>, hits: LedgerHits)
    requires NoHits(fills, hits)
    ensures FirstHit(fills, hits) == None
  {
    if fills != [] {
      NoFirstHit(fills[1..], hits);
    }
  }

  lemma {:induction false} NetQuantityFrom(fills: seq<Fill>, n: nat, k: nat)
    requires n + k <= |fills|
    ensures NetQuantity(fills[..n + k]) == NetQuantity(fills[..n]) + NetQuantity(fills[n..][..k])
  {
    assert fills[..n + k] == fills[..n] + fills[n..][..k];
    TotalAppend(SIGNED, fills[..n], fills[n..][..k]);
  }

  /** After a flat point an orderly stream starts over. */
  lemma {:induction false} OrderlyAfterFlat(fills: seq<Fill>, n: nat)
    requires n <= |fills| && Orderly(fills) && FlatAt(fills, n)
    ensures Orderly(fills[n..])
  {
    forall k | 0 <= k < |fills[n..]|
      ensures OrderlyAt(NetQuantity(fills[n..][..k]), fills[n..][k])
    {
      NetQuantityFrom(fills, n, k);
      assert fills[n..][k] == fills[n + k];
    }
  }

  lemma {:induction false} OrderlyKeepsDirection(seg: seq<Fill>, k: nat)
    requires Stretch(seg) && Orderly(seg) && 1 <= k <= |seg|
    ensures HeldInDirection(seg, k) >= 0.0
  {
    assert OrderlyAt(NetQuantity(seg[..k - 1]), seg[k - 1]);
    HeldStep(seg, k - 1);
    if k > 1 {
      OrderlyKeepsDirection(seg, k - 1);
      assert !FlatAt(seg, k - 1);
    } else {
      assert seg[..0] == [];
    }
  }

  lemma {:induction false} OrderlyStretchIsProper(seg: seq<Fill>)
    requires Stretch(seg) && Orderly(seg)
    ensures Proper(seg)
  {
    forall k | 1 <= k < |seg|
      ensures ProperAt(seg, k)
    {
      OrderlyKeepsDirection(seg, k);
      assert OrderlyAt(NetQuantity(seg[..k]), seg[k]) && !FlatAt(seg, k);
    }
  }

  lemma {:induction false} OrderlyPrefix(fills: seq<Fill>, n: nat)
    requires n <= |fills| && Orderly(fills)
    ensures Orderly(fills[..n]) && Positive(fills[..n])
  {
    forall k | 0 <= k < n
      ensures OrderlyAt(NetQuantity(fills[..n][..k]), fills[..n][k])
    {
      assert fills[..n][..k] == fills[..k];
    }
  }

  lemma {:induction false} LegsFromSegment(seg: seq<Fill>)
    ensures forall f :: f in Leg(seg, |seg|, true) ==> f in seg
    ensures forall f :: f in Leg(seg, |seg|, false) ==> f in seg
  {
    LegsPartition(seg, |seg|);
    assert seg[..|seg|] == seg;
    forall f | f in Leg(seg, |seg|, true) || f in Leg(seg, |seg|, false)
      ensures f in seg
    {
      assert f in multiset(Leg(seg, |seg|, false)) + multiset(Leg(seg, |seg|, true));
    }
  }

  /** The cycle is complete and closes exactly the quantity it opened. */
  predicate Balanced(c: CycleValue, hits: LedgerHits) {
    c.Complete() && CycleEpisode(c, hits).entryQty == CycleEpisode(c, hits).exitQty
  }

  /** What is claimed of the cycles of a stream: all are complete and balanced, and with the cash and
      fees of the unfinished tail they account for every fill. */
  ghost predicate Accounts(cycles: seq<CycleValue>, tail: seq<Fill>, fills: seq<Fill>, hits: LedgerHits) {
    && (forall i :: 0 <= i < |cycles| ==> Balanced(cycles[i], hits))
    && SumGross(cycles, hits) + NetCash(tail) == NetCash(fills)
    && SumFees(cycles) + Total(FEES, tail) == Total(FEES, fills)
    && NetQuantity(tail) == NetQuantity(fills)
    && (tail != [] ==> NetQuantity(tail) != 0.0)
  }

  lemma {:induction false} FlatStretchAccounts(symbol: string, seg: seq<Fill>, hits: LedgerHits)
    requires Stretch(seg) && Orderly(seg) && NetQuantity(seg) == 0.0 && NoHits(seg, hits)
    ensures var c := CycleOf(symbol, seg);
            && Balanced(c, hits)
            && GrossPnl(c, hits) == NetCash(seg)
            && Total(FEES, c.entryFills + c.exitFills) == Total(FEES, seg)
  {
    OrderlyPrefix(seg, |seg|);
    assert seg[..|seg|] == seg;
    OrderlyStretchIsProper(seg);
    FlatStretchIsComplete(symbol, seg);
    EntryEqualsExitIffProper(symbol, seg, hits);
    GrossIsNetCash(symbol, seg);
    FeesOfCycle(symbol, seg);
    LegsFromSegment(seg);
    NoFirstHit(CycleOf(symbol, seg).exitFills, hits);
  }

  lemma {:induction false} AccountsCons(c: CycleValue, seg: seq<Fill>, cycles: seq<CycleValue>, tail: seq<Fill>, rest: seq<Fill>,
                     hits: LedgerHits)
    requires Accounts(cycles, tail, rest, hits) && NetQuantity(seg) == 0.0
    requires Balanced(c, hits)
    requires GrossPnl(c, hits) == NetCash(seg) && Total(FEES, c.entryFills + c.exitFills) == Total(FEES, seg)
    ensures Accounts([c] + cycles, tail, seg + rest, hits)
  {
    assert ([c] + cycles)[1..] == cycles;
    TotalAppend(CASHFLOW, seg, rest);
    TotalAppend(FEES, seg, rest);
    TotalAppend(SIGNED, seg, rest);
  }

  /** How the cycles and the tail unfold at the first flat point. */
  lemma {:induction false} CyclesUnfold(symbol: string, fills: seq<Fill>)
    requires fills != [] && !fills[0].reduceOnly
    ensures var n := FirstFlat(fills, 1);
            && Stretch(fills[..n])
            && (!FlatAt(fills, n) ==> n == |fills| && BuiltCycles(symbol, fills) == [] && OpenTail(fills) == fills)
            && (FlatAt(fills, n) && CycleOf(symbol, fills[..n]).Complete() ==>
                  BuiltCycles(symbol, fills) == [CycleOf(symbol, fills[..n])] + BuiltCycles(symbol, fills[n..]))
  {
    var n := FirstFlat(fills, 1);
    var seg, rest := fills[..n], fills[n..];
    FirstFlatIsStretch(fills);
    ScanStretch(symbol, seg);
    assert fills == seg + rest;
    if FlatAt(fills, n) {
      CyclesAreAdditiveAtFlat(symbol, seg, rest);
    } else {
      assert seg == fills;
    }
  }

  /** For every orderly stream, long or short, at every moment: the cycles reported so far balance, their
      gross PnL plus the cash of the open tail is the cash of all fills, and no fee is lost. */
  lemma {:induction false} OrderlyCyclesAccountForEverything(symbol: string, fills: seq<Fill>, hits: LedgerHits)
    requires Orderly(fills) && NoHits(fills, hits)
    ensures Accounts(BuiltCycles(symbol, fills), OpenTail(fills), fills, hits)
    decreases |fills|
  {
    if fills != [] {
      assert fills[..0] == [] && OrderlyAt(NetQuantity(fills[..0]), fills[0]);
      var n := FirstFlat(fills, 1);
      var seg, rest := fills[..n], fills[n..];
      assert fills == seg + rest;
      CyclesUnfold(symbol, fills);
      if FlatAt(fills, n) {
        OrderlyPrefix(fills, n);
        OrderlyAfterFlat(fills, n);
        FlatStretchAccounts(symbol, seg, hits);
        OrderlyCyclesAccountForEverything(symbol, rest, hits);
        AccountsCons(CycleOf(symbol, seg), seg, BuiltCycles(symbol, rest), OpenTail(rest), rest, hits);
      } else {
        assert fills[..n] == fills;
      }
    }
  }

  /** Once flat, nothing is left over. */
  lemma {:induction false} FlatMeansNoTail(symbol: string, fills: seq<Fill>, hits: LedgerHits)
    requires Orderly(fills) && NoHits(fills, hits) && NetQuantity(fills) == 0.0
    ensures AllComplete(BuiltCycles(symbol, fills))
    ensures SumGross(BuiltCycles(symbol, fills), hits) == NetCash(fills)
    ensures SumNet(BuiltCycles(symbol, fills), hits) == NetCash(fills) - Total(FEES, fills)
  {
    OrderlyCyclesAccountForEverything(symbol, fills, hits);
    assert OpenTail(fills) == [];
    NetIsGrossLessFees(BuiltCycles(symbol, fills), hits);
  }
}
