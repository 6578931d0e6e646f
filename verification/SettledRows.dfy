/** The rows and the balances that settlement leaves in the ledger, fill by fill and currency by currency. */
module SettledRows {
  import opened Wrappers
  import opened Fills
  import opened Journal
  import opened Projection
  import opened Conservation
  import opened Settlement

  /** The currency a fill is settled in: that of its fee, or USDT when none is given. */
  predicate SettledIn(f: Fill, currency: string) {
    if f.feeCurrency == "" then currency == "USDT" else currency == f.feeCurrency
  }

  /** What a fill pays into a currency: the notional of a sell, less that of a buy and the fee. */
  function PaidInto(currency: string): Fill -> real {
    (f: Fill) =>
      if !SettledIn(f, currency) then 0.0
      else if f.side == SELL then f.price * f.quantity - f.fee
      else -(f.price * f.quantity) - f.fee
  }

  /** The row of one settled fill: its ids, its trade, and what it does to cash, fees and the asset bought. */
  ghost predicate RowOf(row: Transaction, f: Fill, event: string) {
    var ps := Unnumbered(row.entries);
    var gross := f.price * f.quantity;
    && row.entryType == TRADE && row.meta == TradeMeta(f.symbol, f.side, f.quantity, f.price)
    && row.orderId == Some(f.orderId) && row.fillId == Some(f.fillId) && row.eventId == Some(event)
    && JournalBalanced(ps) && (forall p :: p in ps ==> SettledIn(f, p.currency))
    && NetOn(Cash, ps) == (if f.side == BUY then -(gross + f.fee) else gross - f.fee)
    && NetOn(FeeExpense, ps) == f.fee
    && (f.side == BUY ==> NetOn(PositionAsset(f.symbol), ps) == gross)
  }

  function QuoteOf(f: Fill): string {
    if f.feeCurrency == "" then "USDT" else f.feeCurrency
  }

  lemma {:induction false} EngineRow(s: Snapshot, f: Fill, event: string)
    ensures RowOf(EngineCall(s, f, event).Stored(), f, event)
  {
    hide NetOn;
    hide TradePostings;
    hide EngineRelease;
    hide JournalBalanced;
    var c := EngineCall(s, f, event);
    EngineCallIsValid(s, f, event);
    assert Unnumbered(c.Stored().entries) == c.postings;
    TradeMovesAccounts(f.side, f.symbol, QuoteOf(f), f.price, f.quantity, f.fee, EngineRelease(s, f), Cash);
    TradeMovesAccounts(f.side, f.symbol, QuoteOf(f), f.price, f.quantity, f.fee, EngineRelease(s, f), FeeExpense);
    TradeMovesAccounts(f.side, f.symbol, QuoteOf(f), f.price, f.quantity, f.fee, EngineRelease(s, f), PositionAsset(f.symbol));
  }

  lemma {:induction false} OneCurrency(ps: seq<Posting>, quote: string, currency: string)
    requires forall p :: p in ps ==> p.currency == quote
    ensures CashMovedIn(ps, currency) == if currency == quote then CashMoved(ps) else 0.0
  {
    if ps != [] {
      OneCurrency(ps[1..], quote, currency);
    }
  }

  lemma {:induction false} TradeKeepsBalances(u: Snapshot, symbol: string, side: Side, quantity: real, price: real)
    ensures Traded(u, symbol, side, quantity, price).0.balances == u.balances
  {
    hide Bought;
    hide Sold;
  }

  lemma {:induction false} PostingsPay(s: Snapshot, f: Fill, event: string, currency: string)
    ensures CashMovedIn(EngineCall(s, f, event).postings, currency) == PaidInto(currency)(f)
  {
    hide TradePostings;
    hide EngineRelease;
    hide CashMoved;
    hide CashMovedIn;
    var ps := EngineCall(s, f, event).postings;
    TradeMovesAccounts(f.side, f.symbol, QuoteOf(f), f.price, f.quantity, f.fee, EngineRelease(s, f), Cash);
    TradePostingsMove(f.side, f.symbol, QuoteOf(f), f.price, f.quantity, f.fee, EngineRelease(s, f));
    OneCurrency(ps, QuoteOf(f), currency);
  }

  lemma {:induction false} EnginePays(s: Snapshot, f: Fill, event: string, currency: string)
    ensures Apply(s, EngineCall(s, f, event).Stored()).0.Balance(currency) == s.Balance(currency) + PaidInto(currency)(f)
  {
    hide PostAll;
    hide TradePostings;
    hide EngineRelease;
    hide Traded;
    hide CashMovedIn;
    hide PaidInto;
    var c := EngineCall(s, f, event);
    StoredPostings(c);
    PostAllTotals(s, c.postings);
    PostingsPay(s, f, event, currency);
    TradeKeepsBalances(PostAll(s, c.postings), f.symbol, f.side, f.quantity, f.price);
  }

  /** Every fill has its row, in order, after what the ledger held. */
  ghost predicate RowsOf(start: seq<Transaction>, ledger: seq<Transaction>, fills: seq<Fill>, events: seq<string>)
    requires |fills| == |events|
  {
    && |ledger| == |start| + |fills| && start <= ledger
    && forall i :: 0 <= i < |fills| ==> RowOf(ledger[|start| + i], fills[i], events[i])
  }

  ghost predicate Paid(before: Snapshot, s: Snapshot, fills: seq<Fill>) {
    forall currency :: s.Balance(currency) == before.Balance(currency) + Total(PaidInto(currency), fills)
  }

  lemma {:induction false} RowsStep(start: seq<Transaction>, ledger: seq<Transaction>, fills: seq<Fill>, events: seq<string>, row: Transaction,
                                    f: Fill, event: string)
    requires |fills| == |events| && RowsOf(start, ledger, fills, events) && RowOf(row, f, event)
    ensures RowsOf(start, ledger + [row], fills + [f], events + [event])
  {
    hide RowOf;
  }

  lemma {:induction false} PaidStep(before: Snapshot, s: Snapshot, fills: seq<Fill>, f: Fill, event: string)
    requires Paid(before, s, fills)
    ensures Paid(before, Apply(s, EngineCall(s, f, event).Stored()).0, fills + [f])
  {
    hide Apply;
    hide EngineCall;
    hide PaidInto;
    forall currency
      ensures Apply(s, EngineCall(s, f, event).Stored()).0.Balance(currency)
           == before.Balance(currency) + Total(PaidInto(currency), fills + [f])
    {
      EnginePays(s, f, event, currency);
      TotalSnoc(PaidInto(currency), fills, f);
    }
  }

  /** At every moment of a settled stream: the ledger is what it held and then one row for each fill, with the ids,
      trade, currency and account movements of that fill, and the replayed balance of every currency has moved by
      what the fills settled in it paid. */
  lemma {:induction false} SettledLedger(initial: map<string, real>, start: seq<Transaction>, fills: seq<Fill>, events: seq<string>,
                                         n: nat)
    requires n <= |fills| == |events| && AllCovered(fills)
    requires Ready(initial, start) && FreshEvents(events) && Unseen(start, events, 0)
    ensures var ledger := SettleAll(initial, start, fills[..n], events[..n]); var r := Replay(Initial(initial), ledger);
            && RowsOf(start, ledger, fills[..n], events[..n])
            && r.Ok? && Paid(Replay(Initial(initial), start).value, r.value, fills[..n])
  {
    hide Apply;
    hide EngineCall;
    hide SettleFill;
    hide RowsOf;
    hide RowOf;
    hide Paid;
    hide Unseen;
    hide FreshEvents;
    hide NetQuantity;
    hide NetCash;
    hide Total;
    hide AllSound;
    hide SumValues;
    hide Sound;
    hide AllSane;
    var before := Replay(Initial(initial), start).value;
    SettledBooks(initial, start, fills, events, n);
    if n == 0 {
      assert fills[..0] == [] && events[..0] == [];
      NothingSettled(start, before);
    } else {
      SettledLedger(initial, start, fills, events, n - 1);
      SettledBooks(initial, start, fills, events, n - 1);
      assert fills[..n][..n - 1] == fills[..n - 1] && events[..n][..n - 1] == events[..n - 1];
      assert fills[..n] == fills[..n - 1] + [fills[n - 1]] && events[..n] == events[..n - 1] + [events[n - 1]];
      var ledger, f := SettleAll(initial, start, fills[..n - 1], events[..n - 1]), fills[n - 1];
      var s := Replay(Initial(initial), ledger).value;
      assert CoveredAt(fills, n - 1) && Mirrors(before, s, fills[..n - 1], f.symbol);
      SettleStep(initial, ledger, s, events, n - 1, f);
      EngineRow(s, f, events[n - 1]);
      RowsStep(start, ledger, fills[..n - 1], events[..n - 1], EngineCall(s, f, events[n - 1]).Stored(), f, events[n - 1]);
      PaidStep(before, s, fills[..n - 1], f, events[n - 1]);
    }
  }

  lemma {:induction false} NothingSettled(start: seq<Transaction>, before: Snapshot)
    ensures RowsOf(start, start, [], []) && Paid(before, before, [])
  {
  }
}
