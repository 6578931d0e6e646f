/** From trading intents to orders, and what a whole run of filled intents looks like. */
module Intents {
  import opened Numbers
  import opened Fills
  import opened Cycles
  import opened Episodes
  import opened Journal
  import opened Projection
  import opened RiskGate
  import opened Agreement
  import opened Settlement

  datatype IntentAction =
    | HOLD | NO_TRADE | NO_ACTION | OPEN_LONG | OPEN_SHORT | ADD | REDUCE | EXIT
    | UnknownAction(name: string)

  datatype PositionSide = LongSide | ShortSide | FlatSide

  datatype IntentMapping =
    | Order(action: IntentAction, side: Side, quantity: real, reduceOnly: bool)
    | NoOrder(action: IntentAction, reason: string)

  function MapTradingIntent(action: IntentAction, position: PositionSide, held: real, requested: real): IntentMapping {
    match action
    case HOLD => NoOrder(HOLD, "no order")
    case NO_TRADE => NoOrder(NO_TRADE, "no order")
    case NO_ACTION => NoOrder(NO_ACTION, "no order")
    case OPEN_LONG => if held > 0.0 then NoOrder(NO_TRADE, "position exists") else Order(OPEN_LONG, BUY, requested, false)
    case OPEN_SHORT => if held > 0.0 then NoOrder(NO_TRADE, "position exists") else Order(OPEN_SHORT, SELL, requested, false)
    case ADD =>
      if held <= 0.0 then NoOrder(NO_TRADE, "no position to add")
      else Order(ADD, if position == LongSide then BUY else SELL, Min(requested, held), false)
    case REDUCE =>
      if held <= 0.0 then NoOrder(NO_TRADE, "no position to reduce")
      else Order(REDUCE, if position == LongSide then SELL else BUY, Min(requested, held), true)
    case EXIT =>
      if held <= 0.0 then NoOrder(NO_ACTION, "already closed")
      else Order(EXIT, if position == LongSide then SELL else BUY, held, true)
    case UnknownAction(_) => NoOrder(NO_TRADE, "unknown action")
  }

  // ---------------------------------------------------------------- one step on a signed position

  function SideOf(held: real): PositionSide {
    if held > 0.0 then LongSide else if held < 0.0 then ShortSide else FlatSide
  }

  function Respond(held: real, action: IntentAction, requested: real): IntentMapping {
    MapTradingIntent(action, SideOf(held), Abs(held), requested)
  }

  /** The signed position once the order is filled in full. */
  function After(held: real, m: IntentMapping): real {
    if m.NoOrder? then held else if m.side == BUY then held + m.quantity else held - m.quantity
  }

  /** The fill of an order: everything but side, quantity and the reduce-only flag is the exchange's. */
  function Filled(m: IntentMapping, report: Fill): Fill
    requires m.Order?
  {
    report.(side := m.side, quantity := m.quantity, reduceOnly := m.reduceOnly)
  }

  predicate Idle(action: IntentAction) {
    action.HOLD? || action.NO_TRADE? || action.NO_ACTION? || action.UnknownAction?
  }

  /** The exact position after one filled intent. */
  ghost predicate Lands(held: real, action: IntentAction, requested: real, after: real) {
    && (Idle(action) ==> after == held)
    && (action == OPEN_LONG ==> after == if held == 0.0 then requested else held)
    && (action == OPEN_SHORT ==> after == if held == 0.0 then -requested else held)
    && (action == ADD ==> Abs(after) == Abs(held) + Min(requested, Abs(held)))
    && (action == REDUCE ==> Abs(after) == Max(Abs(held) - requested, 0.0))
    && (action == EXIT ==> after == 0.0)
    && (held > 0.0 ==> after >= 0.0) && (held < 0.0 ==> after <= 0.0)
  }

  /** Where a filled intent leaves the position: an idle one where it was, ADD grows it by the request but at most
      doubles it, REDUCE takes off the request but stops at zero, EXIT closes it, and none takes it through zero. */
  lemma {:induction false} StepNeverReverses(held: real, action: IntentAction, requested: real)
    requires requested > 0.0
    ensures Lands(held, action, requested, After(held, Respond(held, action, requested)))
  {
  }

  /** Which intents place an order: opening when flat, and adding, reducing or closing when not. */
  lemma {:induction false} OrdersIff(held: real, action: IntentAction, requested: real)
    ensures Respond(held, action, requested).Order? <==>
              || (action in {OPEN_LONG, OPEN_SHORT} && held == 0.0)
              || (action in {ADD, REDUCE, EXIT} && held != 0.0)
    ensures Idle(action) ==> Respond(held, action, requested).NoOrder?
  {
  }

  /** The market-data gate calls an order risk-reducing exactly when the mapping made it reduce-only: missing
      market data blocks every order that opens or adds and never one that reduces or exits. */
  lemma {:induction false} MissingDataNeverBlocksAnExit(held: real, action: IntentAction, requested: real)
    ensures var m := Respond(held, action, requested);
            m.Order? ==>
              && (ClassifyOrderAction(m.side, held) in {ReduceLong, ReduceShort} <==> m.reduceOnly)
              && (NewRiskBlocked(false, m.side, held) <==> m.action in {OPEN_LONG, OPEN_SHORT, ADD})
              && !NewRiskBlocked(true, m.side, held) && m.action == action
  {
  }

  /** An order is well formed for the position exactly when its size was requested positive; an exit needs no size. */
  lemma {:induction false} OrderlyIffRequestedPositive(held: real, action: IntentAction, requested: real, report: Fill)
    requires Respond(held, action, requested).Order?
    ensures OrderlyAt(held, Filled(Respond(held, action, requested), report)) <==> action == EXIT || requested > 0.0
  {
  }

  // ---------------------------------------------------------------- whole runs

  datatype Decision = Decision(action: IntentAction, requested: real, report: Fill)

  function Emit(held: real, d: Decision): seq<Fill> {
    var m := Respond(held, d.action, d.requested);
    if m.Order? then [Filled(m, d.report)] else []
  }

  /** All fills of a run of decisions over any number of symbols, each position starting flat. */
  function EmitAll(ds: seq<Decision>): seq<Fill> {
    if ds == [] then []
    else
      var before := EmitAll(ds[..|ds| - 1]);
      var d := ds[|ds| - 1];
      before + Emit(NetQuantity(Only(d.report.symbol, before)), d)
  }

  ghost predicate Requested(ds: seq<Decision>) {
    forall i :: 0 <= i < |ds| ==> ds[i].requested > 0.0
  }

  /** The fills a run emits are orderly, long or short, in every symbol. */
  lemma {:induction false} RunIsOrderly(ds: seq<Decision>, symbol: string)
    requires Requested(ds)
    ensures Orderly(Only(symbol, EmitAll(ds)))
  {
    if ds != [] {
      var n := |ds| - 1;
      RunIsOrderly(ds[..n], symbol);
      var before, d := EmitAll(ds[..n]), ds[n];
      var held := NetQuantity(Only(d.report.symbol, before));
      if Emit(held, d) != [] {
        var f := Emit(held, d)[0];
        OrderlyIffRequestedPositive(held, d.action, d.requested, d.report);
        OnlySnoc(symbol, before, f);
        if f.symbol == symbol {
          OrderlySnoc(Only(symbol, before), f);
        } else {
          assert Only(symbol, before + [f]) == Only(symbol, before);
        }
      } else {
        assert before + [] == before;
      }
    }
  }

  /** The position in `symbol` after the first `k` decisions. */
  function PositionAfter(ds: seq<Decision>, k: nat, symbol: string): real
    requires k <= |ds|
  {
    NetQuantity(Only(symbol, EmitAll(ds[..k])))
  }

  /** The emitted fill moves the position as the mapping says. */
  lemma {:induction false} EmittedMoves(held: real, d: Decision)
    ensures var m, fills := Respond(held, d.action, d.requested), Emit(held, d);
            && |fills| <= 1
            && (fills == [] ==> After(held, m) == held)
            && (fills != [] ==> fills[0].symbol == d.report.symbol && held + SIGNED(fills[0]) == After(held, m))
  {
  }

  lemma {:induction false} PositionStep(ds: seq<Decision>, k: nat, symbol: string)
    requires k < |ds|
    ensures var p, d := PositionAfter(ds, k, symbol), ds[k];
            PositionAfter(ds, k + 1, symbol) == (if d.report.symbol == symbol then After(p, Respond(p, d.action, d.requested)) else p)
  {
    hide Respond;
    hide After;
    hide Emit;
    var before, d := EmitAll(ds[..k]), ds[k];
    assert ds[..k + 1][..k] == ds[..k];
    var held := NetQuantity(Only(d.report.symbol, before));
    EmittedMoves(held, d);
    if Emit(held, d) == [] {
      assert before + [] == before;
    } else {
      var f := Emit(held, d)[0];
      assert Emit(held, d) == [f];
      OnlySnoc(symbol, before, f);
      if f.symbol == symbol {
        TotalSnoc(SIGNED, Only(symbol, before), f);
      } else {
        assert Only(symbol, before) + [] == Only(symbol, before);
      }
    }
  }

  /** Over every run, each decision leaves the position of its symbol exactly where its action says, never through
      zero, and no other symbol moves; an idle decision emits no fill at all. */
  lemma {:induction false} RunNeverReverses(ds: seq<Decision>, k: nat, symbol: string)
    requires k < |ds| && Requested(ds)
    ensures var p, q, d := PositionAfter(ds, k, symbol), PositionAfter(ds, k + 1, symbol), ds[k];
            && (d.report.symbol != symbol ==> q == p)
            && (d.report.symbol == symbol ==> Lands(p, d.action, d.requested, q))
            && (Idle(d.action) ==> EmitAll(ds[..k + 1]) == EmitAll(ds[..k]))
  {
    PositionStep(ds, k, symbol);
    var p := PositionAfter(ds, k, symbol);
    StepNeverReverses(p, ds[k].action, ds[k].requested);
    assert ds[..k + 1][..k] == ds[..k];
    assert EmitAll(ds[..k]) + [] == EmitAll(ds[..k]);
    OrdersIff(NetQuantity(Only(ds[k].report.symbol, EmitAll(ds[..k]))), ds[k].action, ds[k].requested);
  }

  /** Every cycle a run produces, in every symbol, closes exactly what it opened, and the cycles with the
      open tail account for all its cash and fees. */
  lemma {:induction false} RunsProduceBalancedCycles(ds: seq<Decision>, symbol: string, hits: LedgerHits)
    requires Requested(ds) && NoHits(EmitAll(ds), hits)
    ensures var mine := Only(symbol, EmitAll(ds)); Accounts(BuiltCycles(symbol, mine), OpenTail(mine), mine, hits)
  {
    RunIsOrderly(ds, symbol);
    OrderlyCyclesAccountForEverything(symbol, Only(symbol, EmitAll(ds)), hits);
  }

  /** Spot decisions never open a short, and their fills come at prices that are not negative. */
  ghost predicate SpotRun(ds: seq<Decision>) {
    forall i :: 0 <= i < |ds| ==>
      ds[i].action != OPEN_SHORT && ds[i].requested > 0.0 && ds[i].report.marketType == SPOT && ds[i].report.price >= 0.0
  }

  lemma {:induction false} EmittedPassesTheGate(held: real, d: Decision)
    requires d.action != OPEN_SHORT && d.requested > 0.0 && held >= 0.0 && d.report.marketType == SPOT && Emit(held, d) != []
    ensures var f := Emit(held, d)[0];
            && Emit(held, d) == [f] && f.symbol == d.report.symbol && f.marketType == SPOT && f.price == d.report.price
            && CheckNoReversal(SPOT, f.side, f.quantity, f.reduceOnly, held) == Pass
  {
  }

  lemma {:induction false} AcceptedSnoc(fills: seq<Fill>, f: Fill)
    requires Accepted(fills) && f.marketType == SPOT && f.price >= 0.0
    requires CheckNoReversal(SPOT, f.side, f.quantity, f.reduceOnly, NetQuantity(Only(f.symbol, fills))) == Pass
    ensures Accepted(fills + [f])
  {
    var all := fills + [f];
    forall k | 0 <= k < |all|
      ensures AcceptedAt(all, k)
    {
      if k < |fills| {
        assert AcceptedAt(fills, k) && all[..k] == fills[..k];
      } else {
        assert all[..k] == fills;
      }
    }
  }

  /** Every order of a spot run passes the pre-trade gate at the position it meets. */
  lemma {:induction false} SpotRunIsAccepted(ds: seq<Decision>)
    requires SpotRun(ds)
    ensures Accepted(EmitAll(ds))
  {
    if ds != [] {
      var n := |ds| - 1;
      SpotRunIsAccepted(ds[..n]);
      var before, d := EmitAll(ds[..n]), ds[n];
      var held := NetQuantity(Only(d.report.symbol, before));
      assert before[..|before|] == before;
      AcceptedIsOrderly(before, d.report.symbol, |before|);
      if Emit(held, d) == [] {
        assert before + [] == before;
      } else {
        EmittedPassesTheGate(held, d);
        AcceptedSnoc(before, Emit(held, d)[0]);
      }
    }
  }

  /** End to end: a run of spot intents that has closed every position, filled at any prices and fees, settled on
      top of any ledger without open positions and replayed, has earned exactly the net PnL of its episodes. */
  lemma {:induction false} SpotRunEarnsItsEpisodes(initial: map<string, real>, start: seq<Transaction>, ds: seq<Decision>,
                                                   events: seq<string>, symbols: seq<string>, hits: LedgerHits)
    requires SpotRun(ds) && |events| == |EmitAll(ds)|
    requires Ready(initial, start) && FreshEvents(events) && Unseen(start, events, 0)
    requires NoHits(EmitAll(ds), hits) && AllFlat(EmitAll(ds))
    requires Distinct(symbols) && forall f :: f in EmitAll(ds) ==> f.symbol in symbols
    ensures var fills := EmitAll(ds); var r := Replay(Initial(initial), SettleAll(initial, start, fills, events));
            && r.Ok?
            && (forall i :: 0 <= i < |symbols| ==> AllComplete(BuiltCycles(symbols[i], Only(symbols[i], fills))))
            && r.value.Equity() - Replay(Initial(initial), start).value.Equity() == EpisodesNet(symbols, fills, hits)
  {
    hide Apply;
    hide SettleAll;
    SpotRunIsAccepted(ds);
    LedgerAndEpisodesAgree(initial, start, EmitAll(ds), events, symbols, hits);
  }
}
