/** Settling spot fills through the engine into the ledger, and what the resulting ledger says about the fills.

    The last theorem joins every accounting module: fills admitted by the risk gate, journaled by the
    ledger writer and replayed by the projection earn exactly what the trade episodes report. */
module Settlement {
  import opened Wrappers
  import opened Fills
  import opened Cycles
  import opened Episodes
  import opened Journal
  import opened Projection
  import opened Conservation
  import opened RiskGate
  import opened Agreement

  /** The cost a sell releases in its journal: the position's average price, or the fill price when the
      average is missing or zero. */
  function EngineRelease(s: Snapshot, f: Fill): Option<real> {
    if f.side == BUY then None
    else
      var avg := s.PositionOf(f.symbol).avgEntryPrice;
      Some((if avg.Some? && avg.value != 0.0 then avg.value else f.price) * f.quantity)
  }

  function EngineCall(s: Snapshot, f: Fill, event: string): Call {
    TradeCall(f.side, f.symbol, if f.feeCurrency == "" then "USDT" else f.feeCurrency, f.price, f.quantity, f.fee,
              EngineRelease(s, f), Some(f.orderId), Some(f.fillId), Some(event))
  }

  /** Perpetual fills are settled elsewhere. The positions come from the replay of the ledger so far. */
  ghost function SettleFill(initial: map<string, real>, ledger: seq<Transaction>, f: Fill, event: string): seq<Transaction> {
    var s := Replay(Initial(initial), ledger);
    if f.marketType == PERPETUAL || s.Err? then ledger else Recorded(ledger, EngineCall(s.value, f, event))
  }

  /** Settling a stream of fills on top of what the ledger already holds. */
  ghost function SettleAll(initial: map<string, real>, start: seq<Transaction>, fills: seq<Fill>, events: seq<string>): seq<Transaction>
    requires |events| == |fills|
    decreases |fills|
  {
    if fills == [] then start
    else
      var n := |fills| - 1;
      SettleFill(initial, SettleAll(initial, start, fills[..n], events[..n]), fills[n], events[n])
  }

  // ---------------------------------------------------------------- the asset account

  function AssetDelta(p: Posting, symbol: string): real {
    if p.account != PositionAsset(symbol) then 0.0 else if p.direction == DEBIT then p.amount else -p.amount
  }

  function AssetMoved(ps: seq<Posting>, symbol: string): real {
    if ps == [] then 0.0 else AssetDelta(ps[0], symbol) + AssetMoved(ps[1..], symbol)
  }

  /** The balance of POSITION_ASSET:symbol over the whole ledger. */
  function AssetBalance(ledger: seq<Transaction>, symbol: string): real {
    if ledger == [] then 0.0
    else AssetBalance(ledger[..|ledger| - 1], symbol) + AssetMoved(Postings(ledger[|ledger| - 1]), symbol)
  }

  lemma {:induction false} AssetMovedAppend(a: seq<Posting>, b: seq<Posting>, symbol: string)
    ensures AssetMoved(a + b, symbol) == AssetMoved(a, symbol) + AssetMoved(b, symbol)
  {
    if a == [] {
      assert a + b == b;
    } else {
      assert (a + b)[1..] == a[1..] + b;
      AssetMovedAppend(a[1..], b, symbol);
    }
  }

  lemma {:induction false} AssetUntouched(ps: seq<Posting>, symbol: string)
    requires forall i :: 0 <= i < |ps| ==> !ps[i].account.PositionAsset?
    ensures AssetMoved(ps, symbol) == 0.0
  {
    if ps != [] {
      AssetUntouched(ps[1..], symbol);
    }
  }

  /** A buy posts its gross cost to the asset account of its symbol, a sell takes out the released cost. */
  lemma {:induction false} TradePostingsAsset(side: Side, symbol: string, quote: string, price: real, quantity: real, fee: real,
                           costReleased: Option<real>, other: string)
    ensures AssetMoved(TradePostings(side, symbol, quote, price, quantity, fee, costReleased), other)
         == if other != symbol then 0.0 else if side == BUY then price * quantity else -costReleased.GetOr(0.0)
  {
    var ps := TradePostings(side, symbol, quote, price, quantity, fee, costReleased);
    var i := if side == BUY then 0 else 1;
    assert ps == ps[..i] + [ps[i]] + ps[i + 1..];
    AssetMovedAppend(ps[..i] + [ps[i]], ps[i + 1..], other);
    AssetMovedAppend(ps[..i], [ps[i]], other);
    AssetUntouched(ps[..i], other);
    AssetUntouched(ps[i + 1..], other);
    assert [ps[i]][1..] == [];
  }

  // ---------------------------------------------------------------- one settlement

  /** A sound position with a strictly positive average price. */
  ghost predicate Priced(p: Position) {
    Sound(p) && (p.quantity > 0.0 ==> p.avgEntryPrice.value > 0.0)
  }

  ghost predicate AllPriced(s: Snapshot) {
    forall symbol :: symbol in s.positions ==> Priced(s.positions[symbol])
  }

  lemma {:induction false} QuotientPositive(a: real, b: real)
    requires a > 0.0 && b > 0.0
    ensures a / b > 0.0
  {
  }

  lemma {:induction false} BuyKeepsPriced(p: Position, quantity: real, price: real)
    requires Priced(p) && quantity > 0.0 && price > 0.0
    ensures Priced(Bought(p, quantity, price))
  {
    BuyKeepsSound(p, quantity, price);
    if p.quantity > 0.0 {
      Product(p.avgEntryPrice.value, p.quantity);
    }
    assert price * quantity > 0.0;
    QuotientPositive(p.costBasis + price * quantity, p.quantity + quantity);
  }

  lemma {:induction false} SellKeepsPriced(p: Position, quantity: real, price: real)
    requires Priced(p) && 0.0 < quantity <= p.quantity
    ensures Priced(Sold(p, quantity, price))
  {
    SellReleasesExactly(p, quantity, price);
    if quantity < p.quantity {
      var a := p.avgEntryPrice.value;
      assert a * p.quantity - a * quantity == a * (p.quantity - quantity) > 0.0;
      QuotientPositive(a * (p.quantity - quantity), p.quantity - quantity);
    }
  }

  /** A spot fill of some quantity at a price that is not negative; a sell takes no more than is held. */
  predicate Covered(held: real, f: Fill) {
    f.marketType == SPOT && f.price >= 0.0 && f.quantity > 0.0 && (f.side == SELL ==> f.quantity <= held)
  }

  function AfterFill(p: Position, f: Fill): Position {
    if f.side == BUY then Bought(p, f.quantity, f.price) else Sold(p, f.quantity, f.price)
  }

  /** The position of one symbol after its fill: quantity moves by the fill, realised PnL less cost by its cash. */
  lemma {:induction false} FillMovesPosition(p: Position, f: Fill)
    requires Sound(p) && Covered(p.quantity, f)
    ensures var q := AfterFill(p, f);
            && Sound(q)
            && q.quantity == p.quantity + Signed(f)
            && q.realizedPnl - q.costBasis == p.realizedPnl - p.costBasis + CASHFLOW(f)
  {
    if f.side == BUY {
      BuyKeepsSound(p, f.quantity, f.price);
    } else {
      SellReleasesExactly(p, f.quantity, f.price);
      assert f.price * -f.quantity == -(f.price * f.quantity);
    }
  }

  lemma {:induction false} FillKeepsPriced(p: Position, f: Fill)
    requires Priced(p) && Covered(p.quantity, f) && f.price > 0.0
    ensures Priced(AfterFill(p, f))
  {
    if f.side == BUY {
      BuyKeepsPriced(p, f.quantity, f.price);
    } else {
      SellKeepsPriced(p, f.quantity, f.price);
    }
  }

  /** The cost the engine journals for a sell is the cost replay releases, exactly when the average price is
      not zero (or the sell is free too): a zero average falls back to the fill price. */
  lemma {:induction false} EngineReleaseIsReplayReleaseIff(s: Snapshot, f: Fill)
    requires var p := s.PositionOf(f.symbol); Sound(p) && f.side == SELL && 0.0 < f.quantity <= p.quantity
    ensures var p := s.PositionOf(f.symbol);
            EngineRelease(s, f).value == p.costBasis - Sold(p, f.quantity, f.price).costBasis
            <==> p.avgEntryPrice.value != 0.0 || f.price == 0.0
  {
    var p := s.PositionOf(f.symbol);
    SellReleasesExactly(p, f.quantity, f.price);
    if p.avgEntryPrice.value == 0.0 && f.price != 0.0 {
      assert f.price * f.quantity != 0.0;
    }
  }

  /** The snapshot after replaying the engine's journal of a covered fill. */
  lemma {:induction false} SettledSnapshot(s: Snapshot, f: Fill, event: string)
    requires Covered(s.PositionOf(f.symbol).quantity, f)
    ensures var t := EngineCall(s, f, event).Stored(); var (r, fault) := Apply(s, t);
            && fault.None?
            && r.positions == s.positions[f.symbol := AfterFill(s.PositionOf(f.symbol), f)]
            && r.totalFees == s.totalFees + f.fee
            && r.totalDeposits == s.totalDeposits && r.totalWithdrawals == s.totalWithdrawals
            && SumValues(AMOUNT, r.balances) == SumValues(AMOUNT, s.balances) + CASHFLOW(f) - f.fee
  {
    var c := EngineCall(s, f, event);
    hide PostAll;
    hide Bought;
    hide Sold;
    hide CashMoved;
    hide FeesPosted;
    StoredPostings(c);
    PostKeepsTheRest(s, c.postings);
    PostAllTotals(s, c.postings);
    TradePostingsMove(f.side, f.symbol, if f.feeCurrency == "" then "USDT" else f.feeCurrency, f.price, f.quantity, f.fee,
                      EngineRelease(s, f));
    assert f.price * -f.quantity == -(f.price * f.quantity);
  }

  lemma {:induction false} EngineCallIsValid(s: Snapshot, f: Fill, event: string)
    ensures EngineCall(s, f, event).Valid()
  {
    TradeJournalsBalance(f.side, f.symbol, if f.feeCurrency == "" then "USDT" else f.feeCurrency, f.price, f.quantity,
                         f.fee, EngineRelease(s, f));
  }

  // ---------------------------------------------------------------- all settlements

  ghost predicate CoveredAt(fills: seq<Fill>, k: nat)
    requires k < |fills|
  {
    Covered(NetQuantity(Only(fills[k].symbol, fills[..k])), fills[k])
  }

  /** No fill of any symbol sells what is not held, reduce-only or not. */
  ghost predicate AllCovered(fills: seq<Fill>) {
    forall k :: 0 <= k < |fills| ==> CoveredAt(fills, k)
  }

  ghost predicate AcceptedAt(fills: seq<Fill>, k: nat)
    requires k < |fills|
  {
    && fills[k].marketType == SPOT && fills[k].price >= 0.0
    && CheckNoReversal(SPOT, fills[k].side, fills[k].quantity, fills[k].reduceOnly,
                       NetQuantity(Only(fills[k].symbol, fills[..k]))) == Pass
  }

  /** The fills of every symbol came through the gate, at the position held in that symbol. */
  ghost predicate Accepted(fills: seq<Fill>) {
    forall k :: 0 <= k < |fills| ==> AcceptedAt(fills, k)
  }

  ghost predicate FreshEvents(events: seq<string>) {
    && (forall i :: 0 <= i < |events| ==> events[i] != "")
    && (forall i, j :: 0 <= i < j < |events| ==> events[i] != events[j])
  }

  ghost predicate RowUnseen(row: Transaction, events: seq<string>, n: nat) {
    forall i :: n <= i < |events| ==> row.eventId != Some(events[i])
  }

  /** No row carries one of the event ids from the `n`th on. */
  ghost predicate Unseen(ledger: seq<Transaction>, events: seq<string>, n: nat) {
    forall r :: 0 <= r < |ledger| ==> RowUnseen(ledger[r], events, n)
  }

  /** A ledger that replays, with no position open at its end. */
  ghost predicate Ready(initial: map<string, real>, start: seq<Transaction>) {
    && AllSane(start) && Replay(Initial(initial), start).Ok?
    && forall symbol :: Replay(Initial(initial), start).value.PositionOf(symbol).quantity == 0.0
  }

  /** The position of `symbol` mirrors its fills, on top of what was realised before them. */
  ghost predicate Mirrors(before: Snapshot, s: Snapshot, fills: seq<Fill>, symbol: string) {
    var p := s.PositionOf(symbol);
    && p.quantity == NetQuantity(Only(symbol, fills))
    && p.realizedPnl - p.costBasis == before.PositionOf(symbol).realizedPnl + NetCash(Only(symbol, fills))
  }

  /** Everything the replayed ledger says about positions, fees and cash, in terms of the fills. */
  ghost predicate Books(before: Snapshot, s: Snapshot, fills: seq<Fill>) {
    && AllSound(s)
    && (forall symbol :: Mirrors(before, s, fills, symbol))
    && s.totalFees == before.totalFees + Total(FEES, fills)
    && s.totalDeposits == before.totalDeposits && s.totalWithdrawals == before.totalWithdrawals
    && SumValues(AMOUNT, s.balances) == SumValues(AMOUNT, before.balances) + NetCash(fills) - Total(FEES, fills)
  }

  lemma {:induction false} OnlySnoc(symbol: string, fills: seq<Fill>, f: Fill)
    ensures Only(symbol, fills + [f]) == Only(symbol, fills) + (if f.symbol == symbol then [f] else [])
  {
    OnlyAppend(symbol, fills, [f]);
    assert [f][1..] == [];
  }

  lemma {:induction false} EngineAsset(s: Snapshot, f: Fill, event: string, symbol: string)
    ensures AssetMoved(Postings(EngineCall(s, f, event).Stored()), symbol)
         == if symbol != f.symbol then 0.0
            else if f.side == BUY then f.price * f.quantity else -EngineRelease(s, f).GetOr(0.0)
  {
    hide EngineRelease;
    hide AssetMoved;
    StoredPostings(EngineCall(s, f, event));
    TradePostingsAsset(f.side, f.symbol, if f.feeCurrency == "" then "USDT" else f.feeCurrency, f.price, f.quantity, f.fee,
                       EngineRelease(s, f), symbol);
  }

  lemma {:induction false} AssetBalanceSnoc(ledger: seq<Transaction>, t: Transaction, symbol: string)
    ensures AssetBalance(ledger + [t], symbol) == AssetBalance(ledger, symbol) + AssetMoved(Postings(t), symbol)
  {
    assert (ledger + [t])[..|ledger|] == ledger;
  }

  lemma {:induction false} MirrorsStep(before: Snapshot, s: Snapshot, r: Snapshot, fills: seq<Fill>, f: Fill, symbol: string)
    requires Mirrors(before, s, fills, symbol) && Sound(s.PositionOf(f.symbol)) && Covered(s.PositionOf(f.symbol).quantity, f)
    requires r.positions == s.positions[f.symbol := AfterFill(s.PositionOf(f.symbol), f)]
    ensures Mirrors(before, r, fills + [f], symbol)
  {
    OnlySnoc(symbol, fills, f);
    if symbol == f.symbol {
      TotalSnoc(SIGNED, Only(f.symbol, fills), f);
      TotalSnoc(CASHFLOW, Only(f.symbol, fills), f);
      FillMovesPosition(s.PositionOf(f.symbol), f);
    } else {
      assert Only(symbol, fills + [f]) == Only(symbol, fills);
    }
  }

  lemma {:induction false} BooksStep(before: Snapshot, s: Snapshot, fills: seq<Fill>, f: Fill, event: string)
    requires Books(before, s, fills) && Covered(s.PositionOf(f.symbol).quantity, f)
    ensures var (r, fault) := Apply(s, EngineCall(s, f, event).Stored()); fault.None? && Books(before, r, fills + [f])
  {
    hide Apply;
    hide AfterFill;
    hide Mirrors;
    var r := Apply(s, EngineCall(s, f, event).Stored()).0;
    SettledSnapshot(s, f, event);
    assert Sound(s.PositionOf(f.symbol));
    FillMovesPosition(s.PositionOf(f.symbol), f);
    forall symbol
      ensures Mirrors(before, r, fills + [f], symbol)
    {
      assert Mirrors(before, s, fills, symbol);
      MirrorsStep(before, s, r, fills, f, symbol);
    }
    TotalSnoc(FEES, fills, f);
    TotalSnoc(CASHFLOW, fills, f);
  }

  lemma {:induction false} FreshIsAppended(ledger: seq<Transaction>, events: seq<string>, n: nat, c: Call)
    requires n < |events| && FreshEvents(events) && Unseen(ledger, events, n)
    requires c.Valid() && c.eventId == Some(events[n])
    ensures Recorded(ledger, c) == ledger + [c.Stored()]
    ensures Unseen(Recorded(ledger, c), events, n + 1)
  {
    hide JournalBalanced;
    forall r | 0 <= r < |ledger|
      ensures !Agrees(ledger[r].fillId, ledger[r].eventId, c) && RowUnseen(ledger[r], events, n + 1)
    {
      assert RowUnseen(ledger[r], events, n);
    }
  }

  /** A covered fill with a new event id is appended, and the ledger still replays. */
  lemma {:induction false} SettleStep(initial: map<string, real>, ledger: seq<Transaction>, s: Snapshot, events: seq<string>, n: nat,
                                      f: Fill)
    requires n < |events| && FreshEvents(events) && Unseen(ledger, events, n)
    requires Replay(Initial(initial), ledger) == Ok(s) && Covered(s.PositionOf(f.symbol).quantity, f)
    ensures var t := EngineCall(s, f, events[n]).Stored();
            && SettleFill(initial, ledger, f, events[n]) == ledger + [t]
            && Unseen(ledger + [t], events, n + 1)
            && Apply(s, t).1.None? && Replay(Initial(initial), ledger + [t]) == Ok(Apply(s, t).0)
  {
    hide EngineRelease;
    hide Apply;
    var t := EngineCall(s, f, events[n]).Stored();
    EngineCallIsValid(s, f, events[n]);
    FreshIsAppended(ledger, events, n, EngineCall(s, f, events[n]));
    SettledSnapshot(s, f, events[n]);
    ReplayAppend(Initial(initial), ledger, [t]);
    assert [t][1..] == [];
  }

  lemma {:induction false} StartBooks(initial: map<string, real>, start: seq<Transaction>)
    requires Ready(initial, start)
    ensures var before := Replay(Initial(initial), start).value; Books(before, before, []) && AllPriced(before)
  {
    var before := Replay(Initial(initial), start).value;
    ReplayKeepsSound(Initial(initial), start);
    forall symbol
      ensures Mirrors(before, before, [], symbol)
    {
      assert before.PositionOf(symbol).quantity == 0.0;
    }
    forall symbol | symbol in before.positions
      ensures Priced(before.positions[symbol])
    {
      assert before.PositionOf(symbol).quantity == 0.0;
    }
  }

  /** After any number of covered fills the ledger replays without fault and mirrors the fills, whatever
      their reduce-only flags say. */
  lemma {:induction false} SettledBooks(initial: map<string, real>, start: seq<Transaction>, fills: seq<Fill>, events: seq<string>,
                                        n: nat)
    requires n <= |fills| == |events| && AllCovered(fills)
    requires Ready(initial, start) && FreshEvents(events) && Unseen(start, events, 0)
    ensures var ledger := SettleAll(initial, start, fills[..n], events[..n]);
            && Unseen(ledger, events, n)
            && Replay(Initial(initial), ledger).Ok?
            && Books(Replay(Initial(initial), start).value, Replay(Initial(initial), ledger).value, fills[..n])
  {
    hide Apply;
    hide EngineCall;
    hide SettleFill;
    var before := Replay(Initial(initial), start).value;
    if n == 0 {
      StartBooks(initial, start);
      assert fills[..0] == [] && events[..0] == [];
    } else {
      SettledBooks(initial, start, fills, events, n - 1);
      assert fills[..n][..n - 1] == fills[..n - 1] && events[..n][..n - 1] == events[..n - 1];
      var ledger, f := SettleAll(initial, start, fills[..n - 1], events[..n - 1]), fills[n - 1];
      var s := Replay(Initial(initial), ledger).value;
      assert CoveredAt(fills, n - 1) && Mirrors(before, s, fills[..n - 1], f.symbol);
      SettleStep(initial, ledger, s, events, n - 1, f);
      BooksStep(before, s, fills[..n - 1], f, events[n - 1]);
      assert fills[..n] == fills[..n - 1] + [f];
    }
  }

  // ---------------------------------------------------------------- the asset account of the engine's ledger

  ghost predicate PositivePrices(fills: seq<Fill>) {
    forall k :: 0 <= k < |fills| ==> fills[k].price > 0.0
  }

  /** The asset account of every symbol has moved by the cost basis its position carries. */
  ghost predicate AssetsMatch(start: seq<Transaction>, ledger: seq<Transaction>, s: Snapshot) {
    forall symbol :: AssetBalance(ledger, symbol) == AssetBalance(start, symbol) + s.PositionOf(symbol).costBasis
  }

  /** The cost the journal of a fill moves is the cost replay moves. */
  lemma {:induction false} EngineMovesReplayCost(s: Snapshot, f: Fill)
    requires Priced(s.PositionOf(f.symbol)) && Covered(s.PositionOf(f.symbol).quantity, f)
    ensures (if f.side == BUY then f.price * f.quantity else -EngineRelease(s, f).GetOr(0.0))
         == AfterFill(s.PositionOf(f.symbol), f).costBasis - s.PositionOf(f.symbol).costBasis
  {
    if f.side == SELL {
      EngineReleaseIsReplayReleaseIff(s, f);
    }
  }

  lemma {:induction false} AssetsStep(start: seq<Transaction>, ledger: seq<Transaction>, s: Snapshot, f: Fill, event: string)
    requires AssetsMatch(start, ledger, s) && AllPriced(s) && Covered(s.PositionOf(f.symbol).quantity, f) && f.price > 0.0
    ensures var t := EngineCall(s, f, event).Stored(); var r := Apply(s, t).0;
            AssetsMatch(start, ledger + [t], r) && AllPriced(r)
  {
    hide Apply;
    hide EngineCall;
    hide EngineRelease;
    hide AfterFill;
    hide AssetBalance;
    hide SumValues;
    var t := EngineCall(s, f, event).Stored();
    var r := Apply(s, t).0;
    SettledSnapshot(s, f, event);
    assert Priced(s.PositionOf(f.symbol));
    FillKeepsPriced(s.PositionOf(f.symbol), f);
    EngineMovesReplayCost(s, f);
    forall symbol
      ensures AssetBalance(ledger + [t], symbol) == AssetBalance(start, symbol) + r.PositionOf(symbol).costBasis
    {
      AssetBalanceSnoc(ledger, t, symbol);
      EngineAsset(s, f, event, symbol);
    }
  }

  lemma {:induction false} SettledAssets(initial: map<string, real>, start: seq<Transaction>, fills: seq<Fill>, events: seq<string>,
                                         n: nat)
    requires n <= |fills| == |events| && AllCovered(fills) && PositivePrices(fills)
    requires Ready(initial, start) && FreshEvents(events) && Unseen(start, events, 0)
    ensures var ledger := SettleAll(initial, start, fills[..n], events[..n]); var r := Replay(Initial(initial), ledger);
            r.Ok? && AssetsMatch(start, ledger, r.value) && AllPriced(r.value)
  {
    hide Apply;
    hide EngineCall;
    hide SettleFill;
    var before := Replay(Initial(initial), start).value;
    SettledBooks(initial, start, fills, events, n);
    if n == 0 {
      StartBooks(initial, start);
      StartAssets(start, before);
      assert fills[..0] == [] && events[..0] == [];
    } else {
      SettledAssets(initial, start, fills, events, n - 1);
      SettledBooks(initial, start, fills, events, n - 1);
      assert fills[..n][..n - 1] == fills[..n - 1] && events[..n][..n - 1] == events[..n - 1];
      var ledger, f := SettleAll(initial, start, fills[..n - 1], events[..n - 1]), fills[n - 1];
      var s := Replay(Initial(initial), ledger).value;
      assert CoveredAt(fills, n - 1) && Mirrors(before, s, fills[..n - 1], f.symbol);
      SettleStep(initial, ledger, s, events, n - 1, f);
      AssetsStep(start, ledger, s, f, events[n - 1]);
    }
  }

  lemma {:induction false} StartAssets(start: seq<Transaction>, before: Snapshot)
    requires AllSound(before) && forall symbol :: before.PositionOf(symbol).quantity == 0.0
    ensures AssetsMatch(start, start, before)
  {
    forall symbol
      ensures before.PositionOf(symbol).costBasis == 0.0
    {
      assert before.PositionOf(symbol).quantity == 0.0;
    }
  }

  // ---------------------------------------------------------------- where a ledger can start

  lemma {:induction false} NothingTraded(s: Snapshot, start: seq<Transaction>)
    requires forall t :: t in start ==> t.entryType != TRADE
    ensures Replay(s, start).Ok? && Replay(s, start).value.positions == s.positions
    decreases |start|
  {
    hide Settle;
    hide PostAll;
    if start != [] {
      NotATrade(s, start[0]);
      NothingTraded(Apply(s, start[0]).0, start[1..]);
    }
  }

  lemma {:induction false} NotATrade(s: Snapshot, t: Transaction)
    requires t.entryType != TRADE
    ensures Apply(s, t).1.None? && Apply(s, t).0.positions == s.positions
  {
    hide PostAll;
    PostKeepsTheRest(s, Postings(t));
  }

  /** A ledger without trades, such as the seed deposits the engine begins with, is a place to start. */
  lemma {:induction false} SeedLedgerIsReady(initial: map<string, real>, start: seq<Transaction>)
    requires forall t :: t in start ==> t.entryType != TRADE
    ensures Ready(initial, start)
  {
    NothingTraded(Initial(initial), start);
  }

  /** So is a ledger that settled covered fills until every symbol was flat. */
  lemma {:induction false} FlatLedgerIsReady(initial: map<string, real>, start: seq<Transaction>, fills: seq<Fill>, events: seq<string>)
    requires |fills| == |events| && AllCovered(fills) && AllFlat(fills)
    requires Ready(initial, start) && FreshEvents(events) && Unseen(start, events, 0)
    ensures Ready(initial, SettleAll(initial, start, fills, events))
  {
    hide Apply;
    hide SettleFill;
    var n := |fills|;
    assert fills[..n] == fills && events[..n] == events;
    SettledBooks(initial, start, fills, events, n);
    forall k | 0 <= k < n
      ensures fills[k].quantity >= 0.0 && fills[k].price >= 0.0
    {
      assert CoveredAt(fills, k);
    }
    SettledIsSane(initial, start, fills, events);
    var before, s := Replay(Initial(initial), start).value, Replay(Initial(initial), SettleAll(initial, start, fills, events)).value;
    forall symbol
      ensures s.PositionOf(symbol).quantity == 0.0
    {
      assert Mirrors(before, s, fills, symbol);
    }
  }

  lemma {:induction false} SettledIsSane(initial: map<string, real>, start: seq<Transaction>, fills: seq<Fill>, events: seq<string>)
    requires |fills| == |events| && AllSane(start) && forall f :: f in fills ==> f.quantity >= 0.0 && f.price >= 0.0
    ensures AllSane(SettleAll(initial, start, fills, events))
    decreases |fills|
  {
    if fills != [] {
      var n := |fills| - 1;
      SettledIsSane(initial, start, fills[..n], events[..n]);
    }
  }

  // ---------------------------------------------------------------- the episodes of one symbol

  /** The fills of one symbol, taken alone, are an orderly stream. */
  lemma {:induction false} AcceptedIsOrderly(fills: seq<Fill>, symbol: string, n: nat)
    requires n <= |fills| && Accepted(fills)
    ensures Orderly(Only(symbol, fills[..n])) && NetQuantity(Only(symbol, fills[..n])) >= 0.0
  {
    hide Orderly;
    if n == 0 {
      assert Only(symbol, fills[..0]) == [];
      NothingIsOrderly();
    } else {
      AcceptedIsOrderly(fills, symbol, n - 1);
      var before, f := fills[..n - 1], fills[n - 1];
      assert fills[..n] == before + [f];
      OnlySnoc(symbol, before, f);
      assert AcceptedAt(fills, n - 1);
      if f.symbol == symbol {
        OrderlySnoc(Only(symbol, before), f);
        TotalSnoc(SIGNED, Only(symbol, before), f);
      } else {
        assert Only(symbol, before + [f]) == Only(symbol, before);
      }
    }
  }

  lemma {:induction false} AcceptedIsCovered(fills: seq<Fill>)
    requires Accepted(fills)
    ensures AllCovered(fills)
  {
    forall k | 0 <= k < |fills|
      ensures CoveredAt(fills, k)
    {
      assert AcceptedAt(fills, k);
      AcceptedIsOrderly(fills, fills[k].symbol, k);
    }
  }

  lemma {:induction false} NothingIsOrderly()
    ensures Orderly([])
  {
  }

  lemma {:induction false} OrderlySnoc(fills: seq<Fill>, f: Fill)
    requires Orderly(fills) && OrderlyAt(NetQuantity(fills), f)
    ensures Orderly(fills + [f])
  {
    var all := fills + [f];
    forall k | 0 <= k < |all|
      ensures OrderlyAt(NetQuantity(all[..k]), all[k])
    {
      if k < |fills| {
        assert all[..k] == fills[..k];
      } else {
        assert all[..k] == fills;
      }
    }
  }

  /** At every moment, for every symbol: the realised PnL the ledger replays, less the cost still carried, has
      grown by the gross PnL of the episodes so far plus the cash of the unfinished cycle. With positive prices
      the asset account of the journal has moved by exactly that carried cost. */
  lemma {:induction false} LedgerMatchesEpisodes(initial: map<string, real>, start: seq<Transaction>, fills: seq<Fill>,
                                                 events: seq<string>, symbol: string, hits: LedgerHits)
    requires |fills| == |events| && Accepted(fills) && NoHits(fills, hits)
    requires Ready(initial, start) && FreshEvents(events) && Unseen(start, events, 0)
    ensures var ledger := SettleAll(initial, start, fills, events); var mine := Only(symbol, fills);
            var before := Replay(Initial(initial), start).value.PositionOf(symbol);
            && Replay(Initial(initial), ledger).Ok?
            && (var p := Replay(Initial(initial), ledger).value.PositionOf(symbol);
                && p.realizedPnl - p.costBasis
                   == before.realizedPnl + SumGross(BuiltCycles(symbol, mine), hits) + NetCash(OpenTail(mine))
                && (PositivePrices(fills) ==> AssetBalance(ledger, symbol) == AssetBalance(start, symbol) + p.costBasis))
  {
    hide Apply;
    hide SettleFill;
    hide Accounts;
    var n := |fills|;
    assert fills[..n] == fills && events[..n] == events;
    AcceptedIsCovered(fills);
    SettledBooks(initial, start, fills, events, n);
    var before, ledger := Replay(Initial(initial), start).value, SettleAll(initial, start, fills, events);
    assert Mirrors(before, Replay(Initial(initial), ledger).value, fills, symbol);
    if PositivePrices(fills) {
      SettledAssets(initial, start, fills, events, n);
    }
    AcceptedIsOrderly(fills, symbol, n);
    CyclesAndTailAreTheCash(symbol, Only(symbol, fills), hits);
  }

  lemma {:induction false} CyclesAndTailAreTheCash(symbol: string, fills: seq<Fill>, hits: LedgerHits)
    requires Orderly(fills) && NoHits(fills, hits)
    ensures SumGross(BuiltCycles(symbol, fills), hits) + NetCash(OpenTail(fills)) == NetCash(fills)
  {
    OrderlyCyclesAccountForEverything(symbol, fills, hits);
  }

  // ---------------------------------------------------------------- the whole account

  ghost predicate Distinct(symbols: seq<string>) {
    forall i, j :: 0 <= i < j < |symbols| ==> symbols[i] != symbols[j]
  }

  function TotalBySymbol(g: Fill -> real, symbols: seq<string>, fills: seq<Fill>): real {
    if symbols == [] then 0.0 else Total(g, Only(symbols[0], fills)) + TotalBySymbol(g, symbols[1..], fills)
  }

  lemma {:induction false} BySymbolSnoc(g: Fill -> real, symbols: seq<string>, fills: seq<Fill>, f: Fill)
    requires Distinct(symbols)
    ensures TotalBySymbol(g, symbols, fills + [f])
         == TotalBySymbol(g, symbols, fills) + (if f.symbol in symbols then g(f) else 0.0)
  {
    if symbols != [] {
      BySymbolSnoc(g, symbols[1..], fills, f);
      OnlySnoc(symbols[0], fills, f);
      if f.symbol == symbols[0] {
        TotalSnoc(g, Only(symbols[0], fills), f);
        assert f.symbol !in symbols[1..];
      } else {
        assert Only(symbols[0], fills + [f]) == Only(symbols[0], fills);
      }
    }
  }

  /** Splitting a stream by symbol loses nothing. */
  lemma {:induction false} BySymbolTotal(g: Fill -> real, symbols: seq<string>, fills: seq<Fill>)
    requires Distinct(symbols) && forall f :: f in fills ==> f.symbol in symbols
    ensures TotalBySymbol(g, symbols, fills) == Total(g, fills)
  {
    if fills == [] {
      NothingBySymbol(g, symbols);
    } else {
      var n := |fills| - 1;
      assert fills == fills[..n] + [fills[n]];
      BySymbolTotal(g, symbols, fills[..n]);
      BySymbolSnoc(g, symbols, fills[..n], fills[n]);
      TotalSnoc(g, fills[..n], fills[n]);
    }
  }

  lemma {:induction false} NothingBySymbol(g: Fill -> real, symbols: seq<string>)
    ensures TotalBySymbol(g, symbols, []) == 0.0
  {
    if symbols != [] {
      NothingBySymbol(g, symbols[1..]);
    }
  }

  ghost predicate AllFlat(fills: seq<Fill>) {
    forall symbol :: NetQuantity(Only(symbol, fills)) == 0.0
  }

  /** The net PnL of all episodes of all symbols. */
  function EpisodesNet(symbols: seq<string>, fills: seq<Fill>, hits: LedgerHits): real
    requires forall i :: 0 <= i < |symbols| ==> AllComplete(BuiltCycles(symbols[i], Only(symbols[i], fills)))
  {
    if symbols == [] then 0.0
    else SumNet(BuiltCycles(symbols[0], Only(symbols[0], fills)), hits) + EpisodesNet(symbols[1..], fills, hits)
  }

  lemma {:induction false} EpisodesAreTheCash(symbols: seq<string>, fills: seq<Fill>, hits: LedgerHits)
    requires Accepted(fills) && NoHits(fills, hits) && AllFlat(fills)
    ensures forall i :: 0 <= i < |symbols| ==> AllComplete(BuiltCycles(symbols[i], Only(symbols[i], fills)))
    ensures EpisodesNet(symbols, fills, hits)
         == TotalBySymbol(CASHFLOW, symbols, fills) - TotalBySymbol(FEES, symbols, fills)
  {
    if symbols != [] {
      EpisodesAreTheCash(symbols[1..], fills, hits);
      assert fills[..|fills|] == fills;
      AcceptedIsOrderly(fills, symbols[0], |fills|);
      FlatMeansNoTail(symbols[0], Only(symbols[0], fills), hits);
    }
  }

  lemma {:induction false} NoValue<V>(g: V -> real, m: map<string, V>)
    requires forall k :: k in m ==> g(m[k]) == 0.0
    ensures SumValues(g, m) == 0.0
    decreases |m|
  {
    if m != map[] {
      NoValue(g, m - {Pick(m)});
    }
  }

  lemma {:induction false} FlatBooks(before: Snapshot, s: Snapshot, fills: seq<Fill>, symbol: string)
    requires Books(before, s, fills) && AllFlat(fills)
    ensures s.PositionOf(symbol).costBasis == 0.0
    ensures s.PositionOf(symbol).realizedPnl == before.PositionOf(symbol).realizedPnl + NetCash(Only(symbol, fills))
  {
    assert Mirrors(before, s, fills, symbol) && NetQuantity(Only(symbol, fills)) == 0.0;
  }

  lemma {:induction false} FlatEquity(s: Snapshot)
    requires forall symbol :: s.PositionOf(symbol).costBasis == 0.0
    ensures s.Equity() == SumValues(AMOUNT, s.balances)
  {
    assert forall k :: k in s.positions ==> s.PositionOf(k).costBasis == COST(s.positions[k]);
    NoValue(COST, s.positions);
  }

  /** What flat books are worth: every symbol has realised the cash of its fills, the account their cash less fees. */
  lemma {:induction false} FlatSettlement(initial: map<string, real>, start: seq<Transaction>, fills: seq<Fill>, events: seq<string>)
    requires |fills| == |events| && AllCovered(fills) && AllFlat(fills)
    requires Ready(initial, start) && FreshEvents(events) && Unseen(start, events, 0)
    ensures var before := Replay(Initial(initial), start).value; var r := Replay(Initial(initial), SettleAll(initial, start, fills, events));
            && r.Ok?
            && (forall symbol :: r.value.PositionOf(symbol).realizedPnl
                              == before.PositionOf(symbol).realizedPnl + NetCash(Only(symbol, fills)))
            && r.value.Equity() - before.Equity() == NetCash(fills) - Total(FEES, fills)
  {
    hide Apply;
    hide SettleFill;
    var n := |fills|;
    assert fills[..n] == fills && events[..n] == events;
    SettledBooks(initial, start, fills, events, n);
    StartBooks(initial, start);
    var before, s := Replay(Initial(initial), start).value, Replay(Initial(initial), SettleAll(initial, start, fills, events)).value;
    forall symbol
      ensures s.PositionOf(symbol).costBasis == 0.0 && before.PositionOf(symbol).costBasis == 0.0
      ensures s.PositionOf(symbol).realizedPnl == before.PositionOf(symbol).realizedPnl + NetCash(Only(symbol, fills))
    {
      FlatBooks(before, s, fills, symbol);
      assert before.PositionOf(symbol).quantity == 0.0;
    }
    FlatEquity(before);
    FlatEquity(s);
  }

  /** MAIN RESULT. From any ledger that replays to flat positions, and for every stream of spot fills in any number
      of symbols that the risk gate admits and that ends flat: after settlement and replay the realised PnL of each
      symbol has grown by its episodes' gross PnL, and the account by exactly the net PnL of all episodes. */
  lemma {:induction false} LedgerAndEpisodesAgree(initial: map<string, real>, start: seq<Transaction>, fills: seq<Fill>,
                                                  events: seq<string>, symbols: seq<string>, hits: LedgerHits)
    requires |fills| == |events| && Accepted(fills) && NoHits(fills, hits) && AllFlat(fills)
    requires Ready(initial, start) && FreshEvents(events) && Unseen(start, events, 0)
    requires Distinct(symbols) && forall f :: f in fills ==> f.symbol in symbols
    ensures var before := Replay(Initial(initial), start).value; var r := Replay(Initial(initial), SettleAll(initial, start, fills, events));
            && r.Ok?
            && (forall i :: 0 <= i < |symbols| ==> AllComplete(BuiltCycles(symbols[i], Only(symbols[i], fills))))
            && (forall symbol :: r.value.PositionOf(symbol).realizedPnl
                 == before.PositionOf(symbol).realizedPnl + SumGross(BuiltCycles(symbol, Only(symbol, fills)), hits))
            && r.value.Equity() - before.Equity() == EpisodesNet(symbols, fills, hits)
  {
    hide Apply;
    hide SettleFill;
    hide SettleAll;
    AcceptedIsCovered(fills);
    FlatSettlement(initial, start, fills, events);
    assert fills[..|fills|] == fills;
    forall symbol
      ensures SumGross(BuiltCycles(symbol, Only(symbol, fills)), hits) == NetCash(Only(symbol, fills))
    {
      AcceptedIsOrderly(fills, symbol, |fills|);
      FlatMeansNoTail(symbol, Only(symbol, fills), hits);
    }
    EpisodesAreTheCash(symbols, fills, hits);
    BySymbolTotal(CASHFLOW, symbols, fills);
    BySymbolTotal(FEES, symbols, fills);
  }
}
