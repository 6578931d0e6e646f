/** Pricing a completed cycle from the weighted averages of its two legs. */
module Episodes {
  import opened Wrappers
  import opened Numbers
  import opened Fills
  import opened Cycles

  datatype Verdict = WIN | LOSS | BREAKEVEN

  /** What the trader hashes into the episode id. */
  datatype EpisodeKey = EpisodeKey(
    symbol: string, marketType: MarketType, entryFillIds: seq<string>, exitFillIds: seq<string>)

  datatype Episode = Episode(
    key: EpisodeKey,
    direction: Direction,
    entryPrice: real,
    exitPrice: real,
    positionSize: real,
    entryQty: real,
    exitQty: real,
    holdingSeconds: int,
    grossPnl: real,
    fees: real,
    feeCurrency: string,
    netPnl: real,
    verdict: Verdict,
    entryTimestamp: Option<int>,
    exitTimestamp: Option<int>,
    strategyId: string)

  /** order id -> realised PnL, read from the perpetual ledger. */
  type LedgerHits = map<string, real>

  function WeightedAvg(fills: seq<Fill>): real {
    var quantity := Total(QUANTITY, fills);
    if quantity == 0.0 then 0.0 else Total(NOTIONAL, fills) / quantity
  }

  function FillIds(fills: seq<Fill>): seq<string> {
    seq(|fills|, i requires 0 <= i < |fills| => fills[i].fillId)
  }

  function KeyOf(c: CycleValue): EpisodeKey {
    EpisodeKey(c.symbol, c.marketType, FillIds(c.entryFills), FillIds(c.exitFills))
  }

  /** The realised PnL of the first exit order the perpetual ledger knows. */
  function FirstHit(fills: seq<Fill>, hits: LedgerHits): Option<real> {
    if fills == [] then None
    else if fills[0].orderId in hits then Some(hits[fills[0].orderId])
    else FirstHit(fills[1..], hits)
  }

  function AverageGross(c: CycleValue): real {
    var closed := Min(Total(QUANTITY, c.entryFills), Total(QUANTITY, c.exitFills));
    if c.direction == LONG
    then (WeightedAvg(c.exitFills) - WeightedAvg(c.entryFills)) * closed
    else (WeightedAvg(c.entryFills) - WeightedAvg(c.exitFills)) * closed
  }

  function GrossPnl(c: CycleValue, hits: LedgerHits): real {
    FirstHit(c.exitFills, hits).GetOr(AverageGross(c))
  }

  function HoldingSeconds(entry: Option<int>, exit: Option<int>): int {
    if entry.Some? && exit.Some? && exit.value > entry.value then exit.value - entry.value else 0
  }

  function CycleEpisode(c: CycleValue, hits: LedgerHits): Episode
    requires c.entryFills != [] && c.exitFills != []
  {
    var entryQty := Total(QUANTITY, c.entryFills);
    var exitQty := Total(QUANTITY, c.exitFills);
    var fees := Total(FEES, c.entryFills + c.exitFills);
    var gross := GrossPnl(c, hits);
    var net := gross - fees;
    var entryTs := c.entryFills[0].timestamp;
    var exitTs := c.exitFills[|c.exitFills| - 1].timestamp;
    var currency := (c.exitFills + c.entryFills)[0].feeCurrency;
    Episode(KeyOf(c), c.direction, WeightedAvg(c.entryFills), WeightedAvg(c.exitFills),
            Min(entryQty, exitQty), entryQty, exitQty, HoldingSeconds(entryTs, exitTs),
            gross, fees, if currency == "" then "USDT" else currency, net,
            if net > 0.0 then WIN else if net < 0.0 then LOSS else BREAKEVEN,
            entryTs, exitTs, c.entryFills[0].strategyId)
  }

  // ---------------------------------------------------------------- which stretches balance

  /** The quantity held before fill `k`, counted in the direction the stretch was opened in. */
  function HeldInDirection(seg: seq<Fill>, k: nat): real
    requires seg != [] && k <= |seg|
  {
    if seg[0].side == BUY then NetQuantity(seg[..k]) else -NetQuantity(seg[..k])
  }

  predicate ProperAt(seg: seq<Fill>, k: nat)
    requires 1 <= k < |seg|
  {
    HeldInDirection(seg, k) >= 0.0 && (seg[k].reduceOnly ==> seg[k].side != seg[0].side)
  }

  /** No reducing fill overshoots the open quantity, and reduce-only fills are on the reducing side. */
  ghost predicate Proper(seg: seq<Fill>) {
    forall k :: 1 <= k < |seg| ==> ProperAt(seg, k)
  }

  ghost predicate ProperBefore(seg: seq<Fill>, n: nat)
    requires n <= |seg|
  {
    forall k :: 1 <= k < n ==> ProperAt(seg, k)
  }

  function On(side: Side): Fill -> real {
    if side == BUY then BOUGHT else SOLD
  }

  lemma {:induction false} LegTotals(g: Fill -> real, seg: seq<Fill>, n: nat)
    requires n <= |seg|
    ensures Total(g, Leg(seg, n, false)) + Total(g, Leg(seg, n, true)) == Total(g, seg[..n])
  {
    if n > 0 {
      LegTotals(g, seg, n - 1);
      assert seg[..n] == seg[..n - 1] + [seg[n - 1]];
      TotalSnoc(g, seg[..n - 1], seg[n - 1]);
      TotalSnoc(g, Leg(seg, n - 1, ExitAt(seg, n - 1)), seg[n - 1]);
    }
  }

  lemma {:induction false} HeldStep(seg: seq<Fill>, n: nat)
    requires n < |seg|
    ensures HeldInDirection(seg, n + 1)
         == HeldInDirection(seg, n) + (if seg[n].side == seg[0].side then seg[n].quantity else -seg[n].quantity)
  {
    assert seg[..n + 1] == seg[..n] + [seg[n]];
    TotalSnoc(SIGNED, seg[..n], seg[n]);
  }

  ghost predicate AllOn(fills: seq<Fill>, side: Side) {
    forall i :: 0 <= i < |fills| ==> fills[i].side == side
  }

  /** While the stretch stays proper the legs are one-sided. */
  lemma {:induction false} ProperLegs(seg: seq<Fill>, n: nat)
    requires 1 <= n <= |seg| && Stretch(seg) && ProperBefore(seg, n)
    ensures AllOn(Leg(seg, n, false), seg[0].side)
    ensures AllOn(Leg(seg, n, true), Opposite(seg[0].side))
  {
    if n == 1 {
      assert Leg(seg, 0, false) == [] && Leg(seg, 0, true) == [] && !ExitAt(seg, 0);
    } else {
      ProperLegs(seg, n - 1);
      assert ProperAt(seg, n - 1) && !FlatAt(seg, n - 1);
    }
  }

  lemma {:induction false} OneSidedTotals(fills: seq<Fill>, side: Side)
    requires AllOn(fills, side)
    ensures Total(On(side), fills) == Total(QUANTITY, fills)
    ensures Total(On(Opposite(side)), fills) == 0.0
    ensures Total(CASHFLOW, fills) == (if side == BUY then -Total(NOTIONAL, fills) else Total(NOTIONAL, fills))
  {
    if fills != [] {
      OneSidedTotals(fills[1..], side);
    }
  }

  /** Quantity sitting in the exit leg on the opening side, minus quantity in the entry leg on the other side. */
  function Misplaced(seg: seq<Fill>, n: nat): real
    requires seg != [] && n <= |seg|
  {
    Total(On(seg[0].side), Leg(seg, n, true)) - Total(On(Opposite(seg[0].side)), Leg(seg, n, false))
  }

  lemma {:induction false} MisplacedStep(seg: seq<Fill>, n: nat)
    requires seg != [] && n < |seg|
    ensures Misplaced(seg, n + 1) == Misplaced(seg, n)
         + (if ExitAt(seg, n) && seg[n].side == seg[0].side then seg[n].quantity
            else if !ExitAt(seg, n) && seg[n].side != seg[0].side then -seg[n].quantity
            else 0.0)
  {
    TotalSnoc(On(seg[0].side), Leg(seg, n, true), seg[n]);
    TotalSnoc(On(Opposite(seg[0].side)), Leg(seg, n, false), seg[n]);
  }

  /** Once a stretch has been improper, exits on the opening side outweigh entries on the other
      side for ever after (by more than the amount it is currently reversed). */
  lemma {:induction false} ImproperNeverRecovers(seg: seq<Fill>, n: nat)
    requires 1 <= n <= |seg| && Stretch(seg) && Positive(seg)
    ensures ProperBefore(seg, n) ==> Misplaced(seg, n) == 0.0
    ensures !ProperBefore(seg, n) ==> Misplaced(seg, n) > Min(HeldInDirection(seg, n), 0.0)
  {
    if ProperBefore(seg, n) {
      ProperLegs(seg, n);
      OneSidedTotals(Leg(seg, n, false), seg[0].side);
      OneSidedTotals(Leg(seg, n, true), Opposite(seg[0].side));
    } else {
      ImproperNeverRecovers(seg, n - 1);
      HeldStep(seg, n - 1);
      MisplacedStep(seg, n - 1);
      assert !FlatAt(seg, n - 1);
    }
  }

  lemma {:induction false} QuantitiesFromMisplaced(seg: seq<Fill>)
    requires seg != [] && NetQuantity(seg) == 0.0
    ensures Total(QUANTITY, Leg(seg, |seg|, false)) - Total(QUANTITY, Leg(seg, |seg|, true))
         == -2.0 * Misplaced(seg, |seg|)
  {
    var n := |seg|;
    assert seg[..n] == seg;
    BoughtAndSold(seg);
    BoughtAndSold(Leg(seg, n, false));
    BoughtAndSold(Leg(seg, n, true));
    LegTotals(BOUGHT, seg, n);
    LegTotals(SOLD, seg, n);
  }

  /** The entry quantity of a completed cycle equals its exit quantity exactly when the stretch is
      proper; otherwise the exit leg is strictly larger. */
  lemma {:induction false} EntryEqualsExitIffProper(symbol: string, seg: seq<Fill>, hits: LedgerHits)
    requires Stretch(seg) && Positive(seg) && NetQuantity(seg) == 0.0
    requires CycleOf(symbol, seg).Complete()
    ensures var e := CycleEpisode(CycleOf(symbol, seg), hits);
            && (e.entryQty == e.exitQty <==> Proper(seg))
            && e.entryQty <= e.exitQty && e.positionSize == e.entryQty
  {
    ImproperNeverRecovers(seg, |seg|);
    QuantitiesFromMisplaced(seg);
    assert seg[..|seg|] == seg;
    assert ProperBefore(seg, |seg|) <==> Proper(seg);
  }

  lemma {:induction false} DifferenceOfQuotients(a: real, b: real, q: real)
    requires q != 0.0
    ensures (a / q - b / q) * q == a - b
  {
    assert a / q - b / q == (a - b) / q;
  }

  /** The average-price formula over equal quantities is the difference of the notionals. */
  lemma {:induction false} AverageGrossOfEqualLegs(c: CycleValue)
    requires Total(QUANTITY, c.entryFills) == Total(QUANTITY, c.exitFills) != 0.0
    ensures AverageGross(c) == if c.direction == LONG
            then Total(NOTIONAL, c.exitFills) - Total(NOTIONAL, c.entryFills)
            else Total(NOTIONAL, c.entryFills) - Total(NOTIONAL, c.exitFills)
  {
    var q, a, b := Total(QUANTITY, c.entryFills), Total(NOTIONAL, c.entryFills), Total(NOTIONAL, c.exitFills);
    DifferenceOfQuotients(a, b, q);
    DifferenceOfQuotients(b, a, q);
  }

  lemma {:induction false} PositiveTotal(fills: seq<Fill>)
    requires Positive(fills)
    ensures Total(QUANTITY, fills) >= 0.0
    ensures fills != [] ==> Total(QUANTITY, fills) > 0.0
  {
    if fills != [] {
      PositiveTotal(fills[1..]);
    }
  }

  lemma {:induction false} LegIsPositive(seg: seq<Fill>, n: nat, exits: bool)
    requires n <= |seg| && Positive(seg)
    ensures Positive(Leg(seg, n, exits))
  {
    if n > 0 {
      LegIsPositive(seg, n - 1, exits);
    }
  }

  /** For a proper cycle, long or short, the average-price formula is the cash the fills brought in. */
  lemma {:induction false} GrossIsNetCash(symbol: string, seg: seq<Fill>)
    requires Stretch(seg) && Positive(seg) && NetQuantity(seg) == 0.0 && Proper(seg)
    ensures AverageGross(CycleOf(symbol, seg)) == NetCash(seg)
  {
    var n, c := |seg|, CycleOf(symbol, seg);
    assert seg[..n] == seg;
    assert ProperBefore(seg, n);
    ImproperNeverRecovers(seg, n);
    QuantitiesFromMisplaced(seg);
    ProperLegs(seg, n);
    OneSidedTotals(c.entryFills, seg[0].side);
    OneSidedTotals(c.exitFills, Opposite(seg[0].side));
    LegTotals(CASHFLOW, seg, n);
    LegIsPositive(seg, n, false);
    FirstFillIsEntry(seg, n);
    PositiveTotal(c.entryFills);
    AverageGrossOfEqualLegs(c);
  }

  lemma {:induction false} FeesOfCycle(symbol: string, seg: seq<Fill>)
    requires seg != []
    ensures var c := CycleOf(symbol, seg); Total(FEES, c.entryFills + c.exitFills) == Total(FEES, seg)
  {
    var c := CycleOf(symbol, seg);
    TotalAppend(FEES, c.entryFills, c.exitFills);
    LegTotals(FEES, seg, |seg|);
    assert seg[..|seg|] == seg;
  }

  // ---------------------------------------------------------------- what the columns say

  /** The quantity-weighted average; zero for a leg without quantity. */
  predicate IsAverage(price: real, fills: seq<Fill>) {
    if Total(QUANTITY, fills) == 0.0 then price == 0.0 else price * Total(QUANTITY, fills) == Total(NOTIONAL, fills)
  }

  /** Fill `i` is the earliest whose order the perpetual ledger knows. */
  predicate FirstKnown(fills: seq<Fill>, hits: LedgerHits, i: nat)
    requires i < |fills|
  {
    fills[i].orderId in hits && forall j :: 0 <= j < i ==> fills[j].orderId !in hits
  }

  predicate NoneKnown(fills: seq<Fill>, hits: LedgerHits) {
    forall i :: 0 <= i < |fills| ==> fills[i].orderId !in hits
  }

  predicate VerdictSays(verdict: Verdict, net: real) {
    (verdict == WIN <==> net > 0.0) && (verdict == LOSS <==> net < 0.0) && (verdict == BREAKEVEN <==> net == 0.0)
  }

  /** The seconds from the first to the second time, never negative, and zero when either is unknown. */
  predicate Spans(seconds: int, entry: Option<int>, exit: Option<int>) {
    && seconds >= 0
    && (entry.Some? && exit.Some? && entry.value <= exit.value ==> entry.value + seconds == exit.value)
    && (entry.None? || exit.None? || exit.value < entry.value ==> seconds == 0)
  }

  predicate Smaller(x: real, a: real, b: real) {
    x <= a && x <= b && (x == a || x == b)
  }

  /** The columns of an episode, read off the two legs and the perpetual ledger. */
  predicate Tells(e: Episode, c: CycleValue, hits: LedgerHits)
    requires c.Complete()
  {
    var first, last := c.entryFills[0], c.exitFills[|c.exitFills| - 1];
    && IsAverage(e.entryPrice, c.entryFills) && IsAverage(e.exitPrice, c.exitFills)
    && e.entryQty == Total(QUANTITY, c.entryFills) && e.exitQty == Total(QUANTITY, c.exitFills)
    && Smaller(e.positionSize, e.entryQty, e.exitQty)
    && e.entryTimestamp == first.timestamp && e.exitTimestamp == last.timestamp
    && Spans(e.holdingSeconds, first.timestamp, last.timestamp)
    && (forall i :: 0 <= i < |c.exitFills| && FirstKnown(c.exitFills, hits, i) ==> e.grossPnl == hits[c.exitFills[i].orderId])
    && (NoneKnown(c.exitFills, hits) && c.direction == LONG ==> e.grossPnl == (e.exitPrice - e.entryPrice) * e.positionSize)
    && (NoneKnown(c.exitFills, hits) && c.direction == SHORT ==> e.grossPnl == (e.entryPrice - e.exitPrice) * e.positionSize)
    && e.fees == Total(FEES, c.entryFills) + Total(FEES, c.exitFills)
    && e.grossPnl == e.netPnl + e.fees && VerdictSays(e.verdict, e.netPnl)
    && e.feeCurrency == (if c.exitFills[0].feeCurrency == "" then "USDT" else c.exitFills[0].feeCurrency)
    && e.direction == c.direction && e.strategyId == first.strategyId
  }

  lemma {:induction false} HitIsOfTheFirstKnown(fills: seq<Fill>, hits: LedgerHits)
    ensures FirstHit(fills, hits) == None <==> NoneKnown(fills, hits)
    ensures forall i :: 0 <= i < |fills| && FirstKnown(fills, hits, i) ==> FirstHit(fills, hits) == Some(hits[fills[i].orderId])
  {
    if fills != [] && fills[0].orderId !in hits {
      var rest := fills[1..];
      HitIsOfTheFirstKnown(rest, hits);
      assert NoneKnown(rest, hits) ==> NoneKnown(fills, hits) by {
        assert forall i :: 1 <= i < |fills| ==> fills[i] == rest[i - 1];
      }
      forall i | 0 <= i < |fills| && FirstKnown(fills, hits, i)
        ensures FirstHit(fills, hits) == Some(hits[fills[i].orderId])
      {
        assert rest[i - 1] == fills[i] && forall j :: 0 <= j < i - 1 ==> rest[j] == fills[j + 1];
        assert FirstKnown(rest, hits, i - 1);
      }
    }
  }

  lemma {:induction false} AverageIsAverage(fills: seq<Fill>)
    ensures IsAverage(WeightedAvg(fills), fills)
  {
  }

  /** The gross PnL is what the ledger reports for the first exit order it knows, else price difference times quantity. */
  lemma {:induction false} GrossOfCycle(c: CycleValue, hits: LedgerHits)
    ensures forall i :: 0 <= i < |c.exitFills| && FirstKnown(c.exitFills, hits, i) ==> GrossPnl(c, hits) == hits[c.exitFills[i].orderId]
    ensures var entry, exit := WeightedAvg(c.entryFills), WeightedAvg(c.exitFills);
            var closed := Min(Total(QUANTITY, c.entryFills), Total(QUANTITY, c.exitFills));
            NoneKnown(c.exitFills, hits) ==> GrossPnl(c, hits) == if c.direction == LONG then (exit - entry) * closed else (entry - exit) * closed
  {
    hide WeightedAvg;
    hide FirstKnown;
    hide NoneKnown;
    hide Total;
    HitIsOfTheFirstKnown(c.exitFills, hits);
  }

  /** Every column of the episode of a complete cycle. */
  lemma {:induction false} ColumnsOfCycle(c: CycleValue, hits: LedgerHits)
    requires c.Complete()
    ensures Tells(CycleEpisode(c, hits), c, hits)
  {
    hide IsAverage;
    hide WeightedAvg;
    hide FirstKnown;
    hide NoneKnown;
    hide Total;
    hide GrossPnl;
    GrossOfCycle(c, hits);
    AverageIsAverage(c.entryFills);
    AverageIsAverage(c.exitFills);
    TotalAppend(FEES, c.entryFills, c.exitFills);
    assert (c.exitFills + c.entryFills)[0] == c.exitFills[0];
  }

  /** A proper flat stretch the ledger knows no exit of: the episode earns the cash of its fills less
      their fees, and is a win, a loss or even as that is above, below or at zero. */
  lemma {:induction false} VerdictFollowsTheCash(symbol: string, seg: seq<Fill>, hits: LedgerHits)
    requires Stretch(seg) && Positive(seg) && NetQuantity(seg) == 0.0 && Proper(seg)
    requires CycleOf(symbol, seg).Complete() && NoneKnown(CycleOf(symbol, seg).exitFills, hits)
    ensures var e := CycleEpisode(CycleOf(symbol, seg), hits); var earned := NetCash(seg) - Total(FEES, seg);
            e.grossPnl == NetCash(seg) && e.netPnl == earned && VerdictSays(e.verdict, earned)
  {
    hide CycleOf;
    HitIsOfTheFirstKnown(CycleOf(symbol, seg).exitFills, hits);
    GrossIsNetCash(symbol, seg);
    FeesOfCycle(symbol, seg);
  }

  /** With positive quantities the recorded prices are the notionals over the quantities of the legs. */
  lemma {:induction false} PricesTimesQuantities(symbol: string, seg: seq<Fill>, hits: LedgerHits)
    requires Stretch(seg) && Positive(seg) && NetQuantity(seg) == 0.0 && CycleOf(symbol, seg).Complete()
    ensures var c := CycleOf(symbol, seg); var e := CycleEpisode(c, hits);
            && e.entryQty > 0.0 && e.entryPrice * e.entryQty == Total(NOTIONAL, c.entryFills)
            && e.exitQty > 0.0 && e.exitPrice * e.exitQty == Total(NOTIONAL, c.exitFills)
  {
    hide Leg;
    hide GrossPnl;
    hide Total;
    var c := CycleOf(symbol, seg);
    LegIsPositive(seg, |seg|, false);
    LegIsPositive(seg, |seg|, true);
    PositiveTotal(c.entryFills);
    PositiveTotal(c.exitFills);
    AverageIsAverage(c.entryFills);
    AverageIsAverage(c.exitFills);
  }

  /** The key of a stretch names its symbol, the market of its first fill, and every fill in exactly one of its lists. */
  lemma {:induction false} KeyOfStretch(symbol: string, seg: seq<Fill>, hits: LedgerHits)
    requires seg != [] && CycleOf(symbol, seg).Complete()
    ensures var e := CycleEpisode(CycleOf(symbol, seg), hits);
            && e.key.symbol == symbol && e.key.marketType == seg[0].marketType
            && (e.direction == LONG <==> seg[0].side == BUY)
            && multiset(e.key.entryFillIds) + multiset(e.key.exitFillIds) == multiset(FillIds(seg))
  {
    hide GrossPnl;
    hide WeightedAvg;
    LegIds(seg, |seg|);
    assert seg[..|seg|] == seg;
  }

  lemma {:induction false} IdsSnoc(fills: seq<Fill>, f: Fill)
    ensures FillIds(fills + [f]) == FillIds(fills) + [f.fillId]
  {
  }

  lemma {:induction false} LegIds(seg: seq<Fill>, n: nat)
    requires n <= |seg|
    ensures multiset(FillIds(Leg(seg, n, false))) + multiset(FillIds(Leg(seg, n, true))) == multiset(FillIds(seg[..n]))
  {
    hide ExitAt;
    hide FillIds;
    if n > 0 {
      LegIds(seg, n - 1);
      assert seg[..n] == seg[..n - 1] + [seg[n - 1]];
      IdsSnoc(seg[..n - 1], seg[n - 1]);
      IdsSnoc(Leg(seg, n - 1, ExitAt(seg, n - 1)), seg[n - 1]);
    } else {
      NoIds();
    }
  }

  lemma {:induction false} NoIds()
    ensures FillIds([]) == []
  {
  }

  const OPENING := Fill("a", "o", "BTCUSDT", BUY, 100.0, 2.0, 0.0, "USDT", PERPETUAL, false, None, "s")
  const OVERSHOOT := OPENING.(fillId := "b", side := SELL, price := 110.0, quantity := 5.0)
  const COVERING := OPENING.(fillId := "c", price := 90.0, quantity := 3.0)
  const OVERSHOT: seq<Fill> := [OPENING, OVERSHOOT, COVERING]

  lemma {:induction false} OvershotTotals(t: Fill -> real)
    ensures Total(t, OVERSHOT[..1]) == t(OPENING) && Total(t, OVERSHOT[..2]) == t(OPENING) + t(OVERSHOOT)
    ensures Total(t, OVERSHOT) == t(OPENING) + t(OVERSHOOT) + t(COVERING)
    ensures Total(t, [OPENING]) == t(OPENING) && Total(t, [OVERSHOOT, COVERING]) == t(OVERSHOOT) + t(COVERING)
  {
    assert OVERSHOT[..1] == [] + [OPENING] == [OPENING] && OVERSHOT[..2] == [OPENING] + [OVERSHOOT];
    assert OVERSHOT == OVERSHOT[..2] + [COVERING] && [OVERSHOOT, COVERING] == [] + [OVERSHOOT] + [COVERING];
    TotalSnoc(t, [], OPENING);
    TotalSnoc(t, [OPENING], OVERSHOOT);
    TotalSnoc(t, OVERSHOT[..2], COVERING);
    TotalSnoc(t, [], OVERSHOOT);
    TotalSnoc(t, [] + [OVERSHOOT], COVERING);
  }

  lemma {:induction false} OvershotLegs()
    ensures Leg(OVERSHOT, 3, false) == [OPENING] && Leg(OVERSHOT, 3, true) == [OVERSHOOT, COVERING]
  {
    OvershotTotals(SIGNED);
    assert !ExitAt(OVERSHOT, 0) && ExitAt(OVERSHOT, 1) && ExitAt(OVERSHOT, 2);
    assert Leg(OVERSHOT, 1, false) == [] + [OPENING] && Leg(OVERSHOT, 1, true) == [];
    assert Leg(OVERSHOT, 2, true) == [] + [OVERSHOOT];
  }

  /** A sell that overshoots reverses the position inside one cycle; the averages then miss the cash. */
  lemma {:induction false} OvershootMispricesTheCycle()
    ensures Stretch(OVERSHOT) && Positive(OVERSHOT) && NetQuantity(OVERSHOT) == 0.0 && !Proper(OVERSHOT)
    ensures AverageGross(CycleOf("BTCUSDT", OVERSHOT)) != NetCash(OVERSHOT)
  {
    hide Leg;
    OvershotTotals(SIGNED);
    OvershotTotals(CASHFLOW);
    OvershotTotals(QUANTITY);
    OvershotTotals(NOTIONAL);
    assert !FlatAt(OVERSHOT, 1) && !FlatAt(OVERSHOT, 2) && !ProperAt(OVERSHOT, 2);
    OvershotLegs();
    assert NetCash(OVERSHOT) == 80.0;
    assert WeightedAvg([OPENING]) == 100.0 && WeightedAvg([OVERSHOOT, COVERING]) == 102.5;
  }
}
