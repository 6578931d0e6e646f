/** What a replay adds up to: each column of the snapshot as a sum over the stored transactions, and exactly
    which ledgers it refuses. */
module Totals {
  import opened Wrappers
  import opened Fills
  import opened Journal
  import opened Projection
  import opened Conservation

  // ---------------------------------------------------------------- sums over stored transactions

  /** What a posting adds to the balance of `currency`: debits of cash and margin less their credits. */
  function IntoBalance(p: Posting, currency: string): real {
    if p.currency != currency then 0.0
    else
      match p.account
      case Cash | Margin | MarginOf(_) => (if p.direction == DEBIT then p.amount else -p.amount)
      case _ => 0.0
  }

  function IntoFees(p: Posting): real {
    match p
    case Posting(FeeExpense, DEBIT, amount, _) => amount
    case _ => 0.0
  }

  /** The sum of `f` over all entries of the transactions, in whatever order they are stored. */
  function SumPostings(f: Posting -> real, ps: seq<Posting>): real {
    if ps == [] then 0.0 else f(ps[0]) + SumPostings(f, ps[1..])
  }

  function SumEntries(f: Posting -> real, txns: seq<Transaction>): real {
    if txns == [] then 0.0
    else SumEntries(f, txns[..|txns| - 1]) + SumPostings(f, Unnumbered(txns[|txns| - 1].entries))
  }

  /** The metadata `amount`, with the `quantity` in its place, of the transactions of one entry type. */
  function SumAmounts(kind: EntryType, txns: seq<Transaction>): real {
    if txns == [] then 0.0
    else
      var t := txns[|txns| - 1];
      SumAmounts(kind, txns[..|txns| - 1])
      + (if t.entryType != kind then 0.0
         else if t.meta.CashMeta? then t.meta.amount
         else if t.meta.TradeMeta? then t.meta.quantity
         else 0.0)
  }

  predicate Trades(t: Transaction, symbol: string) {
    t.entryType == TRADE && t.meta.TradeMeta? && t.meta.symbol == symbol
  }

  /** Quantity bought less quantity sold of the symbol. */
  function NetTraded(symbol: string, txns: seq<Transaction>): real {
    if txns == [] then 0.0
    else
      var t := txns[|txns| - 1];
      NetTraded(symbol, txns[..|txns| - 1])
      + (if !Trades(t, symbol) then 0.0 else if t.meta.side == BUY then t.meta.quantity else -t.meta.quantity)
  }

  /** Notional bought less notional sold of the symbol. */
  function NetPaid(symbol: string, txns: seq<Transaction>): real {
    if txns == [] then 0.0
    else
      var t := txns[|txns| - 1];
      NetPaid(symbol, txns[..|txns| - 1])
      + (if !Trades(t, symbol) then 0.0
         else if t.meta.side == BUY then t.meta.price * t.meta.quantity
         else -(t.meta.price * t.meta.quantity))
  }

  // ---------------------------------------------------------------- one transaction

  const REALIZED: Position -> real := (p: Position) => p.realizedPnl

  lemma {:induction false} PostingsAdd(s: Snapshot, ps: seq<Posting>, currency: string)
    ensures PostAll(s, ps).Balance(currency) == s.Balance(currency) + SumPostings(p => IntoBalance(p, currency), ps)
    ensures PostAll(s, ps).totalFees == s.totalFees + SumPostings(IntoFees, ps)
    decreases |ps|
  {
    if ps != [] {
      PostingsAdd(Post(s, ps[0]), ps[1..], currency);
    }
  }

  /** The entries are posted as if in stored order. */
  lemma {:induction false} StoredOrder(s: Snapshot, t: Transaction)
    ensures PostAll(s, Postings(t)) == PostAll(s, Unnumbered(t.entries))
  {
    UnnumberedMultiset(SortBySeq(t.entries), t.entries);
    PostingOrderIsIrrelevant(s, Postings(t), Unnumbered(t.entries));
  }

  /** The columns of `s` are the sums over `txns`, on top of the initial balances. */
  ghost predicate AddsUp(initial: map<string, real>, txns: seq<Transaction>, s: Snapshot) {
    && (forall currency :: s.Balance(currency) ==
          Initial(initial).Balance(currency) + SumEntries(p => IntoBalance(p, currency), txns))
    && s.totalFees == SumEntries(IntoFees, txns)
    && s.totalDeposits == SumAmounts(DEPOSIT, txns)
    && s.totalWithdrawals == SumAmounts(WITHDRAWAL, txns)
    && (forall symbol :: s.PositionOf(symbol).quantity == NetTraded(symbol, txns))
    && s.realizedPnl == SumValues(REALIZED, s.positions)
  }

  lemma {:induction false} SettleKeepsPostings(u: Snapshot, t: Transaction)
    ensures Settle(u, t).0.balances == u.balances && Settle(u, t).0.totalFees == u.totalFees
  {
    hide Bought;
    hide Sold;
  }

  lemma {:induction false} AmountsAdd(u: Snapshot, t: Transaction, txns: seq<Transaction>)
    ensures Settle(u, t).0.totalDeposits == u.totalDeposits + SumAmounts(DEPOSIT, txns + [t]) - SumAmounts(DEPOSIT, txns)
    ensures Settle(u, t).0.totalWithdrawals
         == u.totalWithdrawals + SumAmounts(WITHDRAWAL, txns + [t]) - SumAmounts(WITHDRAWAL, txns)
  {
    hide Bought;
    hide Sold;
    assert (txns + [t])[..|txns|] == txns;
  }

  lemma {:induction false} QuantitiesAdd(u: Snapshot, t: Transaction, txns: seq<Transaction>, symbol: string)
    requires Settle(u, t).1.None?
    ensures Settle(u, t).0.PositionOf(symbol).quantity
         == u.PositionOf(symbol).quantity + NetTraded(symbol, txns + [t]) - NetTraded(symbol, txns)
  {
    assert (txns + [t])[..|txns|] == txns;
  }

  lemma {:induction false} RealizedAdds(u: Snapshot, t: Transaction)
    ensures Settle(u, t).0.realizedPnl - SumValues(REALIZED, Settle(u, t).0.positions)
         == u.realizedPnl - SumValues(REALIZED, u.positions)
  {
    if t.entryType == TRADE && t.meta.TradeMeta? {
      var p, m := u.PositionOf(t.meta.symbol), t.meta;
      SumUpdate(REALIZED, u.positions, m.symbol, Bought(p, m.quantity, m.price));
      SumUpdate(REALIZED, u.positions, m.symbol, Sold(p, m.quantity, m.price));
      SumUpdate(REALIZED, u.positions, m.symbol, p);
    }
  }

  lemma {:induction false} StepAddsUp(initial: map<string, real>, txns: seq<Transaction>, s: Snapshot, t: Transaction)
    requires AddsUp(initial, txns, s) && Apply(s, t).1.None?
    ensures AddsUp(initial, txns + [t], Apply(s, t).0)
  {
    hide Settle;
    hide PostAll;
    hide SumValues;
    var ps, u := Unnumbered(t.entries), PostAll(s, Postings(t));
    var all, after := txns + [t], Apply(s, t).0;
    assert all[..|txns|] == txns;
    StoredOrder(s, t);
    PostKeepsTheRest(s, Postings(t));
    SettleKeepsPostings(u, t);
    AmountsAdd(u, t, txns);
    RealizedAdds(u, t);
    forall currency
      ensures after.Balance(currency) == Initial(initial).Balance(currency) + SumEntries(p => IntoBalance(p, currency), all)
    {
      PostingsAdd(s, ps, currency);
    }
    PostingsAdd(s, ps, "");
    forall symbol
      ensures after.PositionOf(symbol).quantity == NetTraded(symbol, all)
    {
      QuantitiesAdd(u, t, txns, symbol);
    }
  }

  // ---------------------------------------------------------------- which ledgers are refused

  /** Transaction `k` is a trade without its fields, or sells more than all trades before it left. */
  predicate Refused(txns: seq<Transaction>, k: nat)
    requires k < |txns|
  {
    var t := txns[k];
    t.entryType == TRADE && (t.meta.TradeMeta? ==> t.meta.side == SELL && NetTraded(t.meta.symbol, txns[..k]) < t.meta.quantity)
  }

  ghost predicate NoneRefused(txns: seq<Transaction>, n: nat)
    requires n <= |txns|
  {
    forall k :: 0 <= k < n ==> !Refused(txns, k)
  }

  function FaultOf(t: Transaction): Fault {
    if t.meta.TradeMeta? then Oversell else BadMetadata
  }

  lemma {:induction false} StepFault(initial: map<string, real>, txns: seq<Transaction>, k: nat, s: Snapshot)
    requires k < |txns| && AddsUp(initial, txns[..k], s)
    ensures Apply(s, txns[k]).1 == if Refused(txns, k) then Some(FaultOf(txns[k])) else None
  {
    hide PostAll;
    hide NetTraded;
    PostKeepsTheRest(s, Postings(txns[k]));
    if txns[k].meta.TradeMeta? {
      assert s.PositionOf(txns[k].meta.symbol).quantity == NetTraded(txns[k].meta.symbol, txns[..k]);
    }
  }

  /** The outcome of the replay of the first `n` transactions, from sums over them. */
  ghost predicate Outcome(initial: map<string, real>, txns: seq<Transaction>, n: nat, r: Result<Snapshot, Fault>)
    requires n <= |txns|
  {
    && (r.Ok? <==> NoneRefused(txns, n))
    && (r.Ok? ==> AddsUp(initial, txns[..n], r.value))
    && (r.Err? ==> exists k :: 0 <= k < n && Refused(txns, k) && NoneRefused(txns, k) && r.error == FaultOf(txns[k]))
  }

  lemma {:induction false} NothingAddsUp(initial: map<string, real>)
    ensures AddsUp(initial, [], Initial(initial))
  {
    assert SumValues(REALIZED, map[]) == 0.0;
  }

  lemma {:induction false} ReplaySnoc(s: Snapshot, txns: seq<Transaction>, t: Transaction)
    ensures Replay(s, txns + [t]) ==
            (var r := Replay(s, txns);
             if r.Err? then r
             else var (u, fault) := Apply(r.value, t); if fault.Some? then Err(fault.value) else Ok(u))
  {
    ReplayAppend(s, txns, [t]);
    assert [t] + [] == [t];
    if Replay(s, txns).Ok? {
      ReplayFirst(Replay(s, txns).value, t, []);
    }
  }

  lemma {:induction false} OutcomeOf(initial: map<string, real>, txns: seq<Transaction>, n: nat)
    requires n <= |txns|
    ensures Outcome(initial, txns, n, Replay(Initial(initial), txns[..n]))
  {
    hide AddsUp;
    hide Refused;
    hide Apply;
    if n == 0 {
      NothingAddsUp(initial);
      assert txns[..0] == [];
    } else {
      OutcomeOf(initial, txns, n - 1);
      assert txns[..n] == txns[..n - 1] + [txns[n - 1]];
      ReplaySnoc(Initial(initial), txns[..n - 1], txns[n - 1]);
      var before := Replay(Initial(initial), txns[..n - 1]);
      if before.Ok? {
        StepFault(initial, txns, n - 1, before.value);
        if !Refused(txns, n - 1) {
          StepAddsUp(initial, txns[..n - 1], before.value, txns[n - 1]);
        }
      }
    }
  }

  /** For every ledger: the replay succeeds exactly when no trade lacks its fields or sells more than the trades
      before it left, and otherwise reports the first such trade. When it succeeds, each balance is the initial
      one plus the cash and margin debits less credits of that currency, fees, deposits and withdrawals are the
      sums of their own entries, each quantity the net traded, and the realised PnL that of the positions. */
  lemma {:induction false} ReplayAddsUp(initial: map<string, real>, txns: seq<Transaction>)
    ensures Outcome(initial, txns, |txns|, Replay(Initial(initial), txns))
  {
    assert txns[..|txns|] == txns;
    OutcomeOf(initial, txns, |txns|);
  }

  // ---------------------------------------------------------------- what positions cost and earned

  lemma {:induction false} TradePays(p: Position, quantity: real, price: real)
    requires Sound(p) && quantity >= 0.0
    ensures var b := Bought(p, quantity, price);
            b.costBasis - b.realizedPnl == p.costBasis - p.realizedPnl + price * quantity
    ensures quantity <= p.quantity ==>
              var d := Sold(p, quantity, price);
              d.costBasis - d.realizedPnl == p.costBasis - p.realizedPnl - price * quantity
  {
    if quantity <= p.quantity {
      SellReleasesExactly(p, quantity, price);
    }
  }

  ghost predicate PaysFor(txns: seq<Transaction>, s: Snapshot) {
    forall symbol :: s.PositionOf(symbol).costBasis - s.PositionOf(symbol).realizedPnl == NetPaid(symbol, txns)
  }

  lemma {:induction false} SettlePays(u: Snapshot, t: Transaction, txns: seq<Transaction>, symbol: string)
    requires Sound(u.PositionOf(symbol)) && Sane(t) && Settle(u, t).1.None?
    ensures var p, q := u.PositionOf(symbol), Settle(u, t).0.PositionOf(symbol);
            q.costBasis - q.realizedPnl - NetPaid(symbol, txns + [t]) == p.costBasis - p.realizedPnl - NetPaid(symbol, txns)
  {
    hide Bought;
    hide Sold;
    hide Sound;
    assert (txns + [t])[..|txns|] == txns;
    if Trades(t, symbol) {
      TradePays(u.PositionOf(symbol), t.meta.quantity, t.meta.price);
    }
  }

  lemma {:induction false} StepPays(s: Snapshot, t: Transaction, txns: seq<Transaction>)
    requires AllSound(s) && Sane(t) && Apply(s, t).1.None? && PaysFor(txns, s)
    ensures PaysFor(txns + [t], Apply(s, t).0)
  {
    hide Settle;
    hide PostAll;
    hide Sound;
    hide NetPaid;
    PostKeepsTheRest(s, Postings(t));
    EmptyIsSound();
    forall symbol
      ensures var p := Apply(s, t).0.PositionOf(symbol); p.costBasis - p.realizedPnl == NetPaid(symbol, txns + [t])
    {
      SettlePays(PostAll(s, Postings(t)), t, txns, symbol);
    }
  }

  lemma {:induction false} EmptyIsSound()
    ensures Sound(EMPTY_POSITION)
  {
  }

  lemma {:induction false} NothingPaid(initial: map<string, real>)
    ensures PaysFor([], Initial(initial))
  {
  }

  /** What a position cost less what it earned is the notional bought less the notional sold, in every ledger
      of sane trades that replays. */
  lemma {:induction false} PositionsPayForThemselves(initial: map<string, real>, txns: seq<Transaction>)
    requires AllSane(txns) && Replay(Initial(initial), txns).Ok?
    ensures PaysFor(txns, Replay(Initial(initial), txns).value)
  {
    hide Apply;
    hide PaysFor;
    hide Sane;
    if txns == [] {
      NothingPaid(initial);
    } else {
      var n := |txns| - 1;
      assert txns == txns[..n] + [txns[n]];
      ReplaySnoc(Initial(initial), txns[..n], txns[n]);
      PositionsPayForThemselves(initial, txns[..n]);
      ReplayKeepsSound(Initial(initial), txns[..n]);
      StepPays(Replay(Initial(initial), txns[..n]).value, txns[n], txns[..n]);
    }
  }
}
