/** Replaying raw fills into flat-to-flat trade cycles.

    `BuildCycles` is the loop of the trader, `BuiltCycles` is the recursive function it
    refines. `Blocks` defines the same thing without any running state: cut the stream
    at the first point where the signed quantity is back to zero. The two are proved equal. */
module Cycles {
  import opened Wrappers
  import opened Fills

  datatype Direction = LONG | SHORT

  datatype CycleValue = CycleValue(
    symbol: string,
    marketType: MarketType,
    direction: Direction,
    entryFills: seq<Fill>,
    exitFills: seq<Fill>,
    openQty: real)
  {
    predicate Complete() {
      entryFills != [] && exitFills != [] && openQty == 0.0
    }
  }

  predicate IsReduce(f: Fill, openQty: real) {
    openQty != 0.0 && ((openQty > 0.0 && f.side == SELL) || (openQty < 0.0 && f.side == BUY))
  }

  predicate Exits(f: Fill, openQty: real) {
    IsReduce(f, openQty) || f.reduceOnly
  }

  function Opened(symbol: string, f: Fill): CycleValue {
    CycleValue(symbol, f.marketType, if f.side == BUY then LONG else SHORT, [f], [], Signed(f))
  }

  function Extended(c: CycleValue, f: Fill): CycleValue {
    if Exits(f, c.openQty)
    then c.(exitFills := c.exitFills + [f], openQty := c.openQty + Signed(f))
    else c.(entryFills := c.entryFills + [f], openQty := c.openQty + Signed(f))
  }

  // ---------------------------------------------------------------- the replay as a fold

  datatype Scan = Scan(closed: seq<CycleValue>, current: Option<CycleValue>) {
    predicate Flat() {
      current.None? || current.value.openQty == 0.0
    }

    /** The cycles reported if the stream stopped here. */
    function Finish(): seq<CycleValue> {
      if current.Some? && current.value.Complete() then closed + [current.value] else closed
    }
  }

  function ScanStep(symbol: string, s: Scan, f: Fill): Scan {
    if s.Flat() then
      if f.reduceOnly then Scan(s.Finish(), None) else Scan(s.Finish(), Some(Opened(symbol, f)))
    else
      s.(current := Some(Extended(s.current.value, f)))
  }

  function ScanFrom(symbol: string, s: Scan, fills: seq<Fill>): Scan
    decreases fills
  {
    if fills == [] then s else ScanFrom(symbol, ScanStep(symbol, s, fills[0]), fills[1..])
  }

  const START := Scan([], None)

  function BuiltCycles(symbol: string, fills: seq<Fill>): seq<CycleValue> {
    ScanFrom(symbol, START, fills).Finish()
  }

  predicate EndsFlat(symbol: string, fills: seq<Fill>) {
    ScanFrom(symbol, START, fills).Flat()
  }

  // ---------------------------------------------------------------- the loop

  /** The mutable record the loop grows fill by fill. */
  class Cycle {
    const symbol: string
    const marketType: MarketType
    const direction: Direction
    var entryFills: seq<Fill>
    var exitFills: seq<Fill>
    var openQty: real

    ghost function Value(): CycleValue
      reads this
    {
      CycleValue(symbol, marketType, direction, entryFills, exitFills, openQty)
    }

    constructor (symbol: string, f: Fill)
      ensures Value() == Opened(symbol, f)
    {
      this.symbol := symbol;
      this.marketType := f.marketType;
      this.direction := if f.side == BUY then LONG else SHORT;
      this.entryFills := [f];
      this.exitFills := [];
      this.openQty := Signed(f);
    }

    method Complete() returns (complete: bool)
      ensures complete == Value().Complete()
    {
      complete := entryFills != [] && exitFills != [] && openQty == 0.0;
    }

    method Extend(f: Fill)
      modifies this
      ensures Value() == Extended(old(Value()), f)
    {
      if IsReduce(f, openQty) || f.reduceOnly {
        exitFills := exitFills + [f];
      } else {
        entryFills := entryFills + [f];
      }
      openQty := openQty + Signed(f);
    }
  }

  ghost function Values(cycles: seq<Cycle>): (r: seq<CycleValue>)
    reads cycles
    ensures |r| == |cycles|
  {
    seq(|cycles|, i requires 0 <= i < |cycles| reads cycles => cycles[i].Value())
  }

  ghost function CurrentValue(current: Cycle?): Option<CycleValue>
    reads current
  {
    if current == null then None else Some(current.Value())
  }

  method BuildCycles(symbol: string, fills: seq<Fill>) returns (cycles: seq<Cycle>)
    ensures fresh(cycles)
    ensures Values(cycles) == BuiltCycles(symbol, fills)
  {
    cycles := [];
    var current: Cycle? := null;
    for i := 0 to |fills|
      invariant fresh(cycles) && (current != null ==> fresh(current) && current !in cycles)
      invariant ScanFrom(symbol, Scan(Values(cycles), CurrentValue(current)), fills[i..])
             == ScanFrom(symbol, START, fills)
    {
      var f := fills[i];
      assert fills[i..][0] == f && fills[i..][1..] == fills[i + 1..];
      ghost var before := Scan(Values(cycles), CurrentValue(current));
      if current == null || current.openQty == 0.0 {
        if current != null {
          var done := current.Complete();
          if done {
            cycles := cycles + [current];
          }
        }
        assert Values(cycles) == before.Finish();
        current := null;
        if !IsReduce(f, 0.0) && !f.reduceOnly {
          current := new Cycle(symbol, f);
        }
        assert Values(cycles) == before.Finish();
      } else {
        current.Extend(f);
        assert Values(cycles) == before.closed;
      }
      assert Scan(Values(cycles), CurrentValue(current)) == ScanStep(symbol, before, f);
    }
    assert fills[|fills|..] == [];
    if current != null {
      var done := current.Complete();
      if done {
        cycles := cycles + [current];
      }
    }
  }

  // ---------------------------------------------------------------- runs compose

  lemma {:induction false} ScanAppend(symbol: string, s: Scan, a: seq<Fill>, b: seq<Fill>)
    ensures ScanFrom(symbol, s, a + b) == ScanFrom(symbol, ScanFrom(symbol, s, a), b)
    decreases a
  {
    if a == [] {
      assert a + b == b;
    } else {
      assert (a + b)[1..] == a[1..] + b;
      ScanAppend(symbol, ScanStep(symbol, s, a[0]), a[1..], b);
    }
  }

  lemma {:induction false} FinishGrows(symbol: string, s: Scan, fills: seq<Fill>)
    ensures s.Finish() <= ScanFrom(symbol, s, fills).Finish()
    decreases fills
  {
    if fills != [] {
      assert s.Finish() <= ScanStep(symbol, s, fills[0]).Finish();
      FinishGrows(symbol, ScanStep(symbol, s, fills[0]), fills[1..]);
    }
  }

  /** Later fills never change or reorder the cycles already reported. */
  lemma {:induction false} CyclesArePrefixStable(symbol: string, a: seq<Fill>, b: seq<Fill>)
    ensures BuiltCycles(symbol, a) <= BuiltCycles(symbol, a + b)
  {
    ScanAppend(symbol, START, a, b);
    FinishGrows(symbol, ScanFrom(symbol, START, a), b);
  }

  /** From a flat state only the cycles already reported are remembered. */
  lemma {:induction false} FlatForgets(symbol: string, closed: seq<CycleValue>, s: Scan, fills: seq<Fill>)
    ensures ScanFrom(symbol, Scan(closed + s.closed, s.current), fills)
         == (var r := ScanFrom(symbol, s, fills); Scan(closed + r.closed, r.current))
    decreases fills
  {
    if fills != [] {
      var t := ScanStep(symbol, s, fills[0]);
      assert ScanStep(symbol, Scan(closed + s.closed, s.current), fills[0]) == Scan(closed + t.closed, t.current);
      FlatForgets(symbol, closed, t, fills[1..]);
    }
  }

  lemma {:induction false} FromFlat(symbol: string, s: Scan, fills: seq<Fill>)
    requires s.Flat()
    ensures ScanFrom(symbol, s, fills).Finish() == s.Finish() + BuiltCycles(symbol, fills)
  {
    if fills != [] {
      assert ScanStep(symbol, s, fills[0]) == ScanStep(symbol, Scan(s.Finish(), None), fills[0]);
      var closed := s.Finish();
      assert Scan(closed, None) == Scan(closed + START.closed, START.current);
      FlatForgets(symbol, closed, START, fills);
    }
  }

  /** Two streams that meet at a flat point build their cycles independently. */
  lemma {:induction false} CyclesAreAdditiveAtFlat(symbol: string, a: seq<Fill>, b: seq<Fill>)
    requires EndsFlat(symbol, a)
    ensures BuiltCycles(symbol, a + b) == BuiltCycles(symbol, a) + BuiltCycles(symbol, b)
  {
    ScanAppend(symbol, START, a, b);
    FromFlat(symbol, ScanFrom(symbol, START, a), b);
  }

  // ---------------------------------------------------------------- the same cycles without a running state

  /** `Ignored`: a reduce-only fill that meets no position. `Held`: a maximal stretch of fills
      between two flat points, or the unfinished stretch at the end. */
  datatype Block = Ignored(fill: Fill) | Held(fills: seq<Fill>)

  predicate FlatAt(fills: seq<Fill>, n: nat)
    requires n <= |fills|
  {
    NetQuantity(fills[..n]) == 0.0
  }

  /** The length of the shortest nonempty prefix that nets to zero; all of `fills` when there is none. */
  function FirstFlat(fills: seq<Fill>, n: nat): (r: nat)
    requires 1 <= n <= |fills|
    ensures n <= r <= |fills|
    ensures forall k :: n <= k < r ==> !FlatAt(fills, k)
    ensures FlatAt(fills, r) || r == |fills|
    decreases |fills| - n
  {
    if n == |fills| || FlatAt(fills, n) then n else FirstFlat(fills, n + 1)
  }

  function Blocks(fills: seq<Fill>): seq<Block>
    decreases |fills|
  {
    if fills == [] then []
    else if fills[0].reduceOnly then [Ignored(fills[0])] + Blocks(fills[1..])
    else
      var n := FirstFlat(fills, 1);
      [Held(fills[..n])] + Blocks(fills[n..])
  }

  /** Fill `i` of a stretch is an exit when it reduces what the stretch held before it, or is reduce-only. */
  predicate ExitAt(seg: seq<Fill>, i: nat)
    requires i < |seg|
  {
    i > 0 && Exits(seg[i], NetQuantity(seg[..i]))
  }

  /** The fills of the stretch that are (`exits`) or are not exits, in order. */
  function Leg(seg: seq<Fill>, n: nat, exits: bool): seq<Fill>
    requires n <= |seg|
  {
    if n == 0 then []
    else if ExitAt(seg, n - 1) == exits then Leg(seg, n - 1, exits) + [seg[n - 1]]
    else Leg(seg, n - 1, exits)
  }

  function CycleOf(symbol: string, seg: seq<Fill>): CycleValue
    requires seg != []
  {
    CycleValue(symbol, seg[0].marketType, if seg[0].side == BUY then LONG else SHORT,
               Leg(seg, |seg|, false), Leg(seg, |seg|, true), NetQuantity(seg))
  }

  /** A stretch that starts with an ordinary fill and is not flat before its end. */
  ghost predicate Stretch(seg: seq<Fill>) {
    && seg != []
    && !seg[0].reduceOnly
    && forall k :: 1 <= k < |seg| ==> !FlatAt(seg, k)
  }

  function CyclesOf(symbol: string, blocks: seq<Block>): seq<CycleValue> {
    if blocks == [] then []
    else if blocks[0].Held? && blocks[0].fills != [] && CycleOf(symbol, blocks[0].fills).Complete()
    then [CycleOf(symbol, blocks[0].fills)] + CyclesOf(symbol, blocks[1..])
    else CyclesOf(symbol, blocks[1..])
  }

  lemma {:induction false} LegPrefix(seg: seq<Fill>, m: nat, n: nat, exits: bool)
    requires n <= m <= |seg|
    ensures Leg(seg[..m], n, exits) == Leg(seg, n, exits)
  {
    if n > 0 {
      LegPrefix(seg, m, n - 1, exits);
      assert seg[..m][..n - 1] == seg[..n - 1];
    }
  }

  lemma {:induction false} OpenedIsCycleOf(symbol: string, f: Fill)
    ensures Opened(symbol, f) == CycleOf(symbol, [f])
  {
    assert Leg([f], 0, true) == [] && Leg([f], 0, false) == [];
    assert !ExitAt([f], 0);
    assert NetQuantity([f]) == SIGNED(f) + Total(SIGNED, [f][1..]);
  }

  lemma {:induction false} ExtendedIsCycleOf(symbol: string, seg: seq<Fill>, f: Fill)
    requires seg != []
    ensures Extended(CycleOf(symbol, seg), f) == CycleOf(symbol, seg + [f])
  {
    var t := seg + [f];
    var n := |seg|;
    assert t[..n] == seg;
    LegPrefix(t, n, n, true);
    LegPrefix(t, n, n, false);
    TotalSnoc(SIGNED, seg, f);
    assert ExitAt(t, n) == Exits(f, NetQuantity(seg));
    assert t[n] == f;
  }

  /** While the stretch is not flat the scan just grows the current cycle. */
  lemma {:induction false} ScanHeld(symbol: string, closed: seq<CycleValue>, seg: seq<Fill>, n: nat)
    requires 1 <= n <= |seg|
    requires forall k :: n <= k < |seg| ==> !FlatAt(seg, k)
    ensures ScanFrom(symbol, Scan(closed, Some(CycleOf(symbol, seg[..n]))), seg[n..])
         == Scan(closed, Some(CycleOf(symbol, seg)))
    decreases |seg| - n
  {
    if n == |seg| {
      assert seg[..n] == seg;
    } else {
      assert !FlatAt(seg, n);
      assert seg[n..][0] == seg[n] && seg[n..][1..] == seg[n + 1..] && seg[..n + 1] == seg[..n] + [seg[n]];
      ExtendedIsCycleOf(symbol, seg[..n], seg[n]);
      ScanHeld(symbol, closed, seg, n + 1);
    }
  }

  lemma {:induction false} ScanStretch(symbol: string, seg: seq<Fill>)
    requires Stretch(seg)
    ensures ScanFrom(symbol, START, seg) == Scan([], Some(CycleOf(symbol, seg)))
  {
    assert seg[..1] == [seg[0]];
    OpenedIsCycleOf(symbol, seg[0]);
    ScanHeld(symbol, [], seg, 1);
  }

  lemma {:induction false} FirstFlatIsStretch(fills: seq<Fill>)
    requires fills != [] && !fills[0].reduceOnly
    ensures Stretch(fills[..FirstFlat(fills, 1)])
  {
    var n := FirstFlat(fills, 1);
    forall k | 1 <= k < n
      ensures !FlatAt(fills[..n], k)
    {
      assert fills[..n][..k] == fills[..k];
      assert !FlatAt(fills, k);
    }
  }

  /** The running replay and the first-flat segmentation give the same cycles, for every fill list. */
  lemma {:induction false} ReplayIsSegmentation(symbol: string, fills: seq<Fill>)
    ensures BuiltCycles(symbol, fills) == CyclesOf(symbol, Blocks(fills))
    decreases |fills|
  {
    hide Leg;
    if fills == [] {
    } else if fills[0].reduceOnly {
      var rest := fills[1..];
      assert ([Ignored(fills[0])] + Blocks(rest))[1..] == Blocks(rest);
      ReplayIsSegmentation(symbol, rest);
    } else {
      var n := FirstFlat(fills, 1);
      var seg, rest := fills[..n], fills[n..];
      FirstFlatIsStretch(fills);
      ScanStretch(symbol, seg);
      assert fills == seg + rest;
      ReplayIsSegmentation(symbol, rest);
      assert ([Held(seg)] + Blocks(rest))[1..] == Blocks(rest);
      if FlatAt(fills, n) {
        CyclesAreAdditiveAtFlat(symbol, seg, rest);
      } else {
        assert rest == [] && seg == fills;
      }
    }
  }

  // ---------------------------------------------------------------- nothing is lost or counted twice

  function Flatten(blocks: seq<Block>): seq<Fill> {
    if blocks == [] then []
    else (if blocks[0].Held? then blocks[0].fills else [blocks[0].fill]) + Flatten(blocks[1..])
  }

  ghost predicate Segmented(blocks: seq<Block>) {
    forall i :: 0 <= i < |blocks| ==>
      && (blocks[i].Ignored? ==> blocks[i].fill.reduceOnly)
      && (blocks[i].Held? ==> Stretch(blocks[i].fills) && (NetQuantity(blocks[i].fills) == 0.0 || i == |blocks| - 1))
  }

  /** The blocks cut the stream: in order, without loss, overlap or change. */
  lemma {:induction false} BlocksPartitionTheFills(fills: seq<Fill>)
    ensures Flatten(Blocks(fills)) == fills
    ensures Segmented(Blocks(fills))
    decreases |fills|
  {
    if fills == [] {
    } else if fills[0].reduceOnly {
      BlocksPartitionTheFills(fills[1..]);
      assert ([Ignored(fills[0])] + Blocks(fills[1..]))[1..] == Blocks(fills[1..]);
    } else {
      var n := FirstFlat(fills, 1);
      FirstFlatIsStretch(fills);
      BlocksPartitionTheFills(fills[n..]);
      assert ([Held(fills[..n])] + Blocks(fills[n..]))[1..] == Blocks(fills[n..]);
      assert fills == fills[..n] + fills[n..];
    }
  }

  lemma {:induction false} OneMoreInBag(fills: seq<Fill>, f: Fill)
    ensures multiset(fills + [f]) == multiset(fills) + multiset{f}
  {
  }

  /** Both legs of a cycle together are exactly the fills of its stretch. */
  lemma {:induction false} LegsPartition(seg: seq<Fill>, n: nat)
    requires n <= |seg|
    ensures multiset(Leg(seg, n, false)) + multiset(Leg(seg, n, true)) == multiset(seg[..n])
  {
    hide ExitAt;
    if n > 0 {
      LegsPartition(seg, n - 1);
      assert seg[..n] == seg[..n - 1] + [seg[n - 1]];
      OneMoreInBag(seg[..n - 1], seg[n - 1]);
      OneMoreInBag(Leg(seg, n - 1, ExitAt(seg, n - 1)), seg[n - 1]);
    }
  }

  /** With positive quantities a stretch that comes back to zero always holds an exit, so no
      flat stretch is dropped from the report. */
  lemma {:induction false} FlatStretchIsComplete(symbol: string, seg: seq<Fill>)
    requires Stretch(seg) && Positive(seg) && NetQuantity(seg) == 0.0
    ensures CycleOf(symbol, seg).Complete()
  {
    var n := |seg| - 1;
    assert seg[..|seg|] == seg && seg == seg[..n] + [seg[n]];
    TotalSnoc(SIGNED, seg[..n], seg[n]);
    assert n > 0 ==> ExitAt(seg, n);
    FirstFillIsEntry(seg, |seg|);
  }

  lemma {:induction false} FirstFillIsEntry(seg: seq<Fill>, n: nat)
    requires 1 <= n <= |seg|
    ensures Leg(seg, n, false) != [] && Leg(seg, n, false)[0] == seg[0]
  {
    if n == 1 {
      assert Leg(seg, 0, false) == [] && !ExitAt(seg, 0);
    } else {
      FirstFillIsEntry(seg, n - 1);
    }
  }

  ghost function FlatStretches(blocks: seq<Block>): seq<seq<Fill>> {
    if blocks == [] then []
    else if blocks[0].Held? && NetQuantity(blocks[0].fills) == 0.0 then [blocks[0].fills] + FlatStretches(blocks[1..])
    else FlatStretches(blocks[1..])
  }

  lemma {:induction false} CompleteStretches(symbol: string, blocks: seq<Block>)
    requires Segmented(blocks) && Positive(Flatten(blocks))
    ensures var flat := FlatStretches(blocks); var cycles := CyclesOf(symbol, blocks);
            && |cycles| == |flat|
            && forall j :: 0 <= j < |flat| ==>
                 flat[j] != [] && cycles[j] == CycleOf(symbol, flat[j]) && cycles[j].Complete()
  {
    if blocks != [] {
      var head := if blocks[0].Held? then blocks[0].fills else [blocks[0].fill];
      assert Flatten(blocks) == head + Flatten(blocks[1..]);
      forall i | 0 <= i < |head| ensures head[i].quantity > 0.0 {
        assert Flatten(blocks)[i] == head[i];
      }
      forall i | 0 <= i < |Flatten(blocks[1..])| ensures Flatten(blocks[1..])[i].quantity > 0.0 {
        assert Flatten(blocks)[|head| + i] == Flatten(blocks[1..])[i];
      }
      CompleteStretches(symbol, blocks[1..]);
      if blocks[0].Held? && NetQuantity(blocks[0].fills) == 0.0 {
        FlatStretchIsComplete(symbol, blocks[0].fills);
      }
    }
  }

  /** With positive quantities the reported cycles are exactly the flat stretches of the stream:
      each fill is in one cycle, was ignored as reduce-only while flat, or is in the open tail. */
  lemma {:induction false} CyclesAreTheFlatStretches(symbol: string, fills: seq<Fill>)
    requires Positive(fills)
    ensures var flat := FlatStretches(Blocks(fills)); var cycles := BuiltCycles(symbol, fills);
            && |cycles| == |flat|
            && forall j :: 0 <= j < |flat| ==>
                 && flat[j] != [] && cycles[j] == CycleOf(symbol, flat[j]) && cycles[j].Complete()
                 && multiset(cycles[j].entryFills) + multiset(cycles[j].exitFills) == multiset(flat[j])
  {
    ReplayIsSegmentation(symbol, fills);
    BlocksPartitionTheFills(fills);
    CompleteStretches(symbol, Blocks(fills));
    var flat := FlatStretches(Blocks(fills));
    forall j | 0 <= j < |flat|
      ensures multiset(BuiltCycles(symbol, fills)[j].entryFills) + multiset(BuiltCycles(symbol, fills)[j].exitFills)
           == multiset(flat[j])
    {
      LegsPartition(flat[j], |flat[j]|);
      assert flat[j][..|flat[j]|] == flat[j];
    }
  }
}
