/** What every replay of the ledger keeps. */
module Conservation {
  import opened Wrappers
  import opened Fills
  import opened Journal
  import opened Projection

  // ---------------------------------------------------------------- positions

  /** Cost basis is average price times quantity, and a flat position carries nothing. */
  ghost predicate Sound(p: Position) {
    && p.quantity >= 0.0
    && (p.quantity == 0.0 ==> p.avgEntryPrice == None && p.costBasis == 0.0)
    && (p.quantity > 0.0 ==> p.avgEntryPrice.Some? && p.avgEntryPrice.value >= 0.0
                             && p.costBasis == p.avgEntryPrice.value * p.quantity)
  }

  ghost predicate AllSound(s: Snapshot) {
    forall symbol :: symbol in s.positions ==> Sound(s.positions[symbol])
  }

  /** A trade that buys or sells a nonnegative quantity at a nonnegative price. */
  predicate Sane(t: Transaction) {
    t.entryType == TRADE && t.meta.TradeMeta? ==> t.meta.quantity >= 0.0 && t.meta.price >= 0.0
  }

  ghost predicate AllSane(txns: seq<Transaction>) {
    forall t :: t in txns ==> Sane(t)
  }

  lemma {:induction false} Quotient(a: real, b: real)
    requires a >= 0.0 && b > 0.0
    ensures a / b >= 0.0 && (a / b) * b == a
  {
  }

  lemma {:induction false} Product(a: real, b: real)
    requires a >= 0.0 && b >= 0.0
    ensures a * b >= 0.0
  {
  }

  lemma {:induction false} SameFactor(a: real, b: real, q: real)
    requires a * q == b * q && q > 0.0
    ensures a == b
  {
    assert (a - b) * q == 0.0;
  }

  /** A buy pays its notional into the position: the new average is that of all that is held. */
  lemma {:induction false} BuyKeepsSound(p: Position, quantity: real, price: real)
    requires Sound(p) && quantity >= 0.0 && price >= 0.0
    ensures Sound(Bought(p, quantity, price))
    ensures var b := Bought(p, quantity, price);
            && b.quantity == p.quantity + quantity && b.realizedPnl == p.realizedPnl
            && (b.quantity > 0.0 ==>
                  b.avgEntryPrice.value * b.quantity == p.avgEntryPrice.GetOr(0.0) * p.quantity + price * quantity)
  {
    Product(price, quantity);
    if p.quantity > 0.0 {
      Product(p.avgEntryPrice.value, p.quantity);
    }
    if p.quantity + quantity > 0.0 {
      Quotient(p.costBasis + price * quantity, p.quantity + quantity);
    }
  }

  /** A sell within the position never releases more cost than it carries: the clamp at zero is idle, what stays
      keeps its average, selling out leaves no residue, and the price above the average is what is earned. */
  lemma {:induction false} SellReleasesExactly(p: Position, quantity: real, price: real)
    requires Sound(p) && 0.0 <= quantity <= p.quantity
    ensures Sound(Sold(p, quantity, price))
    ensures Sold(p, quantity, price).costBasis == p.costBasis - Release(p, quantity) >= 0.0
    ensures quantity < p.quantity ==> Sold(p, quantity, price).avgEntryPrice == p.avgEntryPrice
    ensures quantity == p.quantity ==> Sold(p, quantity, price) == EMPTY_POSITION.(realizedPnl := Sold(p, quantity, price).realizedPnl)
    ensures p.quantity > 0.0 ==>
              Sold(p, quantity, price).realizedPnl == p.realizedPnl + (price - p.avgEntryPrice.value) * quantity
  {
    if p.quantity > 0.0 {
      var a := p.avgEntryPrice.value;
      assert a * p.quantity - a * quantity == a * (p.quantity - quantity);
      Product(a, p.quantity - quantity);
      if quantity < p.quantity {
        Quotient(a * (p.quantity - quantity), p.quantity - quantity);
        SameFactor(a, Sold(p, quantity, price).avgEntryPrice.value, p.quantity - quantity);
      }
    }
  }

  lemma {:induction false} PostKeepsTheRest(s: Snapshot, ps: seq<Posting>)
    ensures var r := PostAll(s, ps);
            && r.positions == s.positions && r.realizedPnl == s.realizedPnl
            && r.totalDeposits == s.totalDeposits && r.totalWithdrawals == s.totalWithdrawals
    decreases |ps|
  {
    if ps != [] {
      PostKeepsTheRest(Post(s, ps[0]), ps[1..]);
    }
  }

  lemma {:induction false} StepKeepsSound(s: Snapshot, t: Transaction)
    requires AllSound(s) && Sane(t)
    ensures AllSound(Apply(s, t).0)
  {
    hide PostAll;
    hide Bought;
    hide Sold;
    PostKeepsTheRest(s, Postings(t));
    if t.entryType == TRADE && t.meta.TradeMeta? {
      var p := s.PositionOf(t.meta.symbol);
      if t.meta.side == BUY {
        BuyKeepsSound(p, t.meta.quantity, t.meta.price);
      } else if p.quantity >= t.meta.quantity {
        SellReleasesExactly(p, t.meta.quantity, t.meta.price);
      }
    }
  }

  /** Every reachable projection has sound positions. */
  lemma {:induction false} ReplayKeepsSound(s: Snapshot, txns: seq<Transaction>)
    requires AllSound(s) && AllSane(txns)
    ensures var r := Replay(s, txns); r.Ok? ==> AllSound(r.value)
    decreases |txns|
  {
    if txns != [] {
      StepKeepsSound(s, txns[0]);
      if Apply(s, txns[0]).1.None? {
        ReplayKeepsSound(Apply(s, txns[0]).0, txns[1..]);
      }
    }
  }

  // ---------------------------------------------------------------- cash

  function CashMoved(ps: seq<Posting>): real {
    if ps == [] then 0.0 else CashDelta(ps[0]) + CashMoved(ps[1..])
  }

  function CashMovedIn(ps: seq<Posting>, currency: string): real {
    if ps == [] then 0.0
    else (if ps[0].currency == currency then CashDelta(ps[0]) else 0.0) + CashMovedIn(ps[1..], currency)
  }

  function FeesPosted(ps: seq<Posting>): real {
    if ps == [] then 0.0 else FeeDelta(ps[0]) + FeesPosted(ps[1..])
  }

  lemma {:induction false} PostAllTotals(s: Snapshot, ps: seq<Posting>)
    ensures SumValues(AMOUNT, PostAll(s, ps).balances) == SumValues(AMOUNT, s.balances) + CashMoved(ps)
    ensures PostAll(s, ps).totalFees == s.totalFees + FeesPosted(ps)
    ensures forall c :: PostAll(s, ps).Balance(c) == s.Balance(c) + CashMovedIn(ps, c)
    decreases |ps|
  {
    if ps != [] {
      PostAllTotals(Post(s, ps[0]), ps[1..]);
      SumUpdate(AMOUNT, s.balances, ps[0].currency, s.Balance(ps[0].currency) + CashDelta(ps[0]));
    }
  }

  /** The value a transaction brings into the account before fees, as its metadata declares it. */
  function Declared(t: Transaction): real {
    match t.entryType
    case DEPOSIT => MetaAmount(t.meta)
    case WITHDRAWAL => -MetaAmount(t.meta)
    case TRADE =>
      if !t.meta.TradeMeta? then 0.0
      else if t.meta.side == BUY then -(t.meta.price * t.meta.quantity)
      else t.meta.price * t.meta.quantity
    case _ => 0.0
  }

  /** The cash and margin postings add up to the declared value less the posted fees. */
  predicate Accounted(t: Transaction) {
    CashMoved(Postings(t)) == Declared(t) - FeesPosted(Postings(t))
  }

  ghost predicate AllAccounted(txns: seq<Transaction>) {
    forall t :: t in txns ==> Accounted(t)
  }

  /** What the account is worth beyond its initial balances and outside flows: realised PnL less fees. */
  ghost function Residual(s: Snapshot): real {
    s.Equity() - s.totalDeposits + s.totalWithdrawals - s.realizedPnl + s.totalFees
  }

  lemma {:induction false} PostingShiftsResidual(s: Snapshot, ps: seq<Posting>)
    ensures Residual(PostAll(s, ps)) == Residual(s) + CashMoved(ps) + FeesPosted(ps)
  {
    PostKeepsTheRest(s, ps);
    PostAllTotals(s, ps);
  }

  lemma {:induction false} TradeShiftsResidual(u: Snapshot, symbol: string, side: Side, quantity: real, price: real)
    requires Sound(u.PositionOf(symbol)) && quantity >= 0.0 && price >= 0.0
    requires Traded(u, symbol, side, quantity, price).1.None?
    ensures Residual(Traded(u, symbol, side, quantity, price).0)
         == Residual(u) + (if side == BUY then price * quantity else -(price * quantity))
  {
    var p := u.PositionOf(symbol);
    if side == BUY {
      SumUpdate(COST, u.positions, symbol, Bought(p, quantity, price));
    } else {
      SumUpdate(COST, u.positions, symbol, Sold(p, quantity, price));
      SellReleasesExactly(p, quantity, price);
    }
  }

  lemma {:induction false} SettlingShiftsResidual(u: Snapshot, t: Transaction)
    requires AllSound(u) && Sane(t) && Settle(u, t).1.None?
    ensures Residual(Settle(u, t).0) == Residual(u) - Declared(t)
  {
    hide Traded;
    if t.entryType == TRADE {
      assert Sound(u.PositionOf(t.meta.symbol));
      TradeShiftsResidual(u, t.meta.symbol, t.meta.side, t.meta.quantity, t.meta.price);
    }
  }

  lemma {:induction false} StepKeepsResidual(s: Snapshot, t: Transaction)
    requires AllSound(s) && Sane(t) && Accounted(t) && Apply(s, t).1.None?
    ensures Residual(Apply(s, t).0) == Residual(s)
  {
    PostKeepsTheRest(s, Postings(t));
    PostingShiftsResidual(s, Postings(t));
    SettlingShiftsResidual(PostAll(s, Postings(t)), t);
  }

  lemma {:induction false} ReplayKeepsResidual(s: Snapshot, txns: seq<Transaction>)
    requires AllSound(s) && AllSane(txns) && AllAccounted(txns) && Replay(s, txns).Ok?
    ensures Residual(Replay(s, txns).value) == Residual(s)
    decreases |txns|
  {
    if txns != [] {
      StepKeepsSound(s, txns[0]);
      StepKeepsResidual(s, txns[0]);
      ReplayKeepsResidual(Apply(s, txns[0]).0, txns[1..]);
    }
  }

  /** Equity = initial + deposits - withdrawals + realised PnL - fees, after any replay that does not oversell. */
  lemma {:induction false} EquityIdentity(initial: map<string, real>, txns: seq<Transaction>)
    requires AllSane(txns) && AllAccounted(txns) && Replay(Initial(initial), txns).Ok?
    ensures var s := Replay(Initial(initial), txns).value;
            s.Equity() == SumValues(AMOUNT, initial) + s.totalDeposits - s.totalWithdrawals + s.realizedPnl - s.totalFees
  {
    ReplayKeepsResidual(Initial(initial), txns);
  }

  // ---------------------------------------------------------------- the journals of the ledger writer

  lemma {:induction false} SortedByConstruction(ps: seq<Posting>, n: nat)
    requires n <= |ps|
    ensures SortBySeq(Numbered(ps)[n..]) == Numbered(ps)[n..]
    decreases |ps| - n
  {
    if n < |ps| {
      SortedByConstruction(ps, n + 1);
      assert Numbered(ps)[n..][0] == Numbered(ps)[n] && Numbered(ps)[n..][1..] == Numbered(ps)[n + 1..];
    }
  }

  /** Replay reads back exactly the postings that were recorded. */
  lemma {:induction false} StoredPostings(c: Call)
    ensures Postings(c.Stored()) == c.postings
  {
    SortedByConstruction(c.postings, 0);
    assert Numbered(c.postings)[0..] == Numbered(c.postings);
  }

  lemma {:induction false} MovedAppend(a: seq<Posting>, b: seq<Posting>)
    ensures CashMoved(a + b) == CashMoved(a) + CashMoved(b)
    ensures FeesPosted(a + b) == FeesPosted(a) + FeesPosted(b)
  {
    if a == [] {
      assert a + b == b;
    } else {
      assert (a + b)[1..] == a[1..] + b;
      MovedAppend(a[1..], b);
    }
  }

  lemma {:induction false} MovedOne(p: Posting)
    ensures CashMoved([p]) == CashDelta(p) && FeesPosted([p]) == FeeDelta(p)
  {
    assert [p][1..] == [];
  }

  lemma {:induction false} MovedThree(p: Posting, q: Posting, r: Posting)
    ensures CashMoved([p, q, r]) == CashDelta(p) + CashDelta(q) + CashDelta(r)
    ensures FeesPosted([p, q, r]) == FeeDelta(p) + FeeDelta(q) + FeeDelta(r)
  {
    assert [p, q, r] == [p] + ([q] + [r]);
    MovedAppend([p], [q] + [r]);
    MovedAppend([q], [r]);
    MovedOne(p);
    MovedOne(q);
    MovedOne(r);
  }

  lemma {:induction false} TradePostingsMove(side: Side, symbol: string, quote: string, price: real, quantity: real, fee: real,
                          costReleased: Option<real>)
    ensures var ps := TradePostings(side, symbol, quote, price, quantity, fee, costReleased);
            && CashMoved(ps) == (if side == BUY then -(price * quantity) else price * quantity) - fee
            && FeesPosted(ps) == fee
  {
    var ps := TradePostings(side, symbol, quote, price, quantity, fee, costReleased);
    if side == BUY {
      MovedThree(ps[0], ps[1], ps[2]);
    } else {
      var n := |ps|;
      var head, tail := ps[..n - 2], ps[n - 2..];
      assert ps == head + tail && tail == [ps[n - 2]] + [ps[n - 1]];
      MovedAppend(head, tail);
      MovedAppend([ps[n - 2]], [ps[n - 1]]);
      MovedOne(ps[n - 2]);
      MovedOne(ps[n - 1]);
      if n == 5 {
        assert head == [ps[0], ps[1], ps[2]];
        MovedThree(ps[0], ps[1], ps[2]);
      } else {
        assert head == [ps[0]] + [ps[1]];
        MovedAppend([ps[0]], [ps[1]]);
        MovedOne(ps[0]);
        MovedOne(ps[1]);
      }
    }
  }

  function TradeCall(side: Side, symbol: string, quote: string, price: real, quantity: real, fee: real,
                     costReleased: Option<real>, orderId: Option<string>, fillId: Option<string>,
                     eventId: Option<string>): Call
  {
    Call(TRADE, TradePostings(side, symbol, quote, price, quantity, fee, costReleased), orderId, fillId, eventId,
         TradeMeta(symbol, side, quantity, price))
  }

  /** Trade journals satisfy the hypothesis of the equity identity, whatever cost they release. */
  lemma {:induction false} TradesAreAccounted(side: Side, symbol: string, quote: string, price: real, quantity: real, fee: real,
                           costReleased: Option<real>, orderId: Option<string>, fillId: Option<string>,
                           eventId: Option<string>)
    ensures Accounted(TradeCall(side, symbol, quote, price, quantity, fee, costReleased, orderId, fillId, eventId).Stored())
  {
    StoredPostings(TradeCall(side, symbol, quote, price, quantity, fee, costReleased, orderId, fillId, eventId));
    TradePostingsMove(side, symbol, quote, price, quantity, fee, costReleased);
  }

  predicate MovesNothing(p: Posting) {
    !HoldsCash(p.account) && p.account != FeeExpense
  }

  lemma {:induction false} NothingMoved(ps: seq<Posting>)
    requires forall k :: 0 <= k < |ps| ==> MovesNothing(ps[k])
    ensures CashMoved(ps) == 0.0 && FeesPosted(ps) == 0.0
  {
    if ps != [] {
      NothingMoved(ps[1..]);
    }
  }

  /** A deposit or withdrawal with one CASH posting, in its direction and with any postings to other accounts around
      it, meets the hypothesis exactly when that posting carries the amount of the metadata. */
  lemma {:induction false} CashTransferIsAccountedIff(c: Call, i: nat)
    requires c.entryType == DEPOSIT || c.entryType == WITHDRAWAL
    requires i < |c.postings| && c.postings[i].account == Cash
    requires c.postings[i].direction == if c.entryType == DEPOSIT then DEBIT else CREDIT
    requires forall k :: 0 <= k < |c.postings| && k != i ==> MovesNothing(c.postings[k])
    ensures Accounted(c.Stored()) <==> c.postings[i].amount == MetaAmount(c.meta)
  {
    var ps := c.postings;
    StoredPostings(c);
    assert ps == ps[..i] + [ps[i]] + ps[i + 1..];
    NothingMoved(ps[..i]);
    NothingMoved(ps[i + 1..]);
    MovedAppend(ps[..i] + [ps[i]], ps[i + 1..]);
    MovedAppend(ps[..i], [ps[i]]);
    MovedOne(ps[i]);
  }

  // ---------------------------------------------------------------- scoped replay

  const FUTURES_EXCLUDED: set<EntryType> := {
    FUTURES_MARGIN_POST, FUTURES_MARGIN_RELEASE, FUTURES_REALIZED_PNL,
    FUTURES_TRADING_FEE, FUNDING_PAYMENT, FUNDING_RECEIPT }

  function ExcludedMovedIn(txns: seq<Transaction>, excluded: set<EntryType>, currency: string): real {
    if txns == [] then 0.0
    else (if txns[0].entryType in excluded then CashMovedIn(Postings(txns[0]), currency) else 0.0)
         + ExcludedMovedIn(txns[1..], excluded, currency)
  }

  function ExcludedFees(txns: seq<Transaction>, excluded: set<EntryType>): real {
    if txns == [] then 0.0
    else (if txns[0].entryType in excluded then FeesPosted(Postings(txns[0])) else 0.0)
         + ExcludedFees(txns[1..], excluded)
  }

  /** Same positions and flows; only balances and fees may differ. */
  ghost predicate SameBooks(a: Snapshot, b: Snapshot) {
    && a.positions == b.positions
    && a.realizedPnl == b.realizedPnl
    && a.totalDeposits == b.totalDeposits
    && a.totalWithdrawals == b.totalWithdrawals
  }

  /** From `a` to `a'` the balances and fees moved exactly as from `b` to `b'`. */
  ghost predicate MovedAlike(a: Snapshot, a': Snapshot, b: Snapshot, b': Snapshot) {
    && (forall c :: a'.Balance(c) - a.Balance(c) == b'.Balance(c) - b.Balance(c))
    && a'.totalFees - a.totalFees == b'.totalFees - b.totalFees
  }

  lemma {:induction false} PostInParallel(a: Snapshot, b: Snapshot, ps: seq<Posting>)
    requires SameBooks(a, b)
    ensures SameBooks(PostAll(a, ps), PostAll(b, ps)) && MovedAlike(a, PostAll(a, ps), b, PostAll(b, ps))
  {
    PostKeepsTheRest(a, ps);
    PostKeepsTheRest(b, ps);
    PostAllTotals(a, ps);
    PostAllTotals(b, ps);
  }

  lemma {:induction false} SettleInParallel(a: Snapshot, b: Snapshot, t: Transaction)
    requires SameBooks(a, b)
    ensures SameBooks(Settle(a, t).0, Settle(b, t).0) && Settle(a, t).1 == Settle(b, t).1
    ensures MovedAlike(a, Settle(a, t).0, b, Settle(b, t).0)
  {
    hide Bought;
    hide Sold;
  }

  lemma {:induction false} StepInParallel(a: Snapshot, b: Snapshot, t: Transaction)
    requires SameBooks(a, b)
    ensures SameBooks(Apply(a, t).0, Apply(b, t).0) && Apply(a, t).1 == Apply(b, t).1
    ensures MovedAlike(a, Apply(a, t).0, b, Apply(b, t).0)
  {
    PostInParallel(a, b, Postings(t));
    SettleInParallel(PostAll(a, Postings(t)), PostAll(b, Postings(t)), t);
  }

  lemma {:induction false} ExcludedStep(a: Snapshot, t: Transaction)
    requires t.entryType !in {TRADE, DEPOSIT, WITHDRAWAL}
    ensures SameBooks(Apply(a, t).0, a) && Apply(a, t).1.None?
    ensures forall c :: Apply(a, t).0.Balance(c) == a.Balance(c) + CashMovedIn(Postings(t), c)
    ensures Apply(a, t).0.totalFees == a.totalFees + FeesPosted(Postings(t))
  {
    PostKeepsTheRest(a, Postings(t));
    PostAllTotals(a, Postings(t));
  }

  ghost predicate DiffersByExcluded(full: Snapshot, scoped: Snapshot, a: Snapshot, b: Snapshot,
                                    txns: seq<Transaction>, excluded: set<EntryType>) {
    && SameBooks(full, scoped)
    && (forall c :: full.Balance(c) - a.Balance(c)
                 == scoped.Balance(c) - b.Balance(c) + ExcludedMovedIn(txns, excluded, c))
    && full.totalFees - a.totalFees == scoped.totalFees - b.totalFees + ExcludedFees(txns, excluded)
  }

  lemma {:induction false} KeptInParallel(a: Snapshot, b: Snapshot, txns: seq<Transaction>, excluded: set<EntryType>)
    requires SameBooks(a, b) && excluded !! {TRADE, DEPOSIT, WITHDRAWAL}
    requires txns != [] && txns[0].entryType !in excluded
    ensures var full := Replay(a, txns); var scoped := Replay(b, Excluding(txns, excluded));
            && (full.Ok? <==> scoped.Ok?)
            && (full.Ok? ==> DiffersByExcluded(full.value, scoped.value, a, b, txns, excluded))
    decreases |txns|, 0
  {
    hide Apply;
    hide SameBooks;
    var t, rest := txns[0], txns[1..];
    StepInParallel(a, b, t);
    ReplayFirst(b, t, Excluding(rest, excluded));
    if Apply(a, t).1.None? {
      ReplayInParallel(Apply(a, t).0, Apply(b, t).0, rest, excluded);
    }
  }

  lemma {:induction false} ReplayInParallel(a: Snapshot, b: Snapshot, txns: seq<Transaction>, excluded: set<EntryType>)
    requires SameBooks(a, b) && excluded !! {TRADE, DEPOSIT, WITHDRAWAL}
    ensures var full := Replay(a, txns); var scoped := Replay(b, Excluding(txns, excluded));
            && (full.Ok? <==> scoped.Ok?)
            && (full.Ok? ==> DiffersByExcluded(full.value, scoped.value, a, b, txns, excluded))
    decreases |txns|, 1
  {
    hide Apply;
    if txns != [] {
      var t, rest := txns[0], txns[1..];
      if t.entryType in excluded {
        ExcludedStep(a, t);
        ReplayInParallel(Apply(a, t).0, b, rest, excluded);
      } else {
        KeptInParallel(a, b, txns, excluded);
      }
    }
  }

  /** Leaving the perpetual entry types out of the replay changes no position and no realised PnL; each
      balance differs by exactly the cash and margin the left-out transactions moved. */
  lemma {:induction false} ScopedReplayAgrees(initial: map<string, real>, txns: seq<Transaction>)
    ensures var full := Replay(Initial(initial), txns);
            var scoped := Replay(Initial(initial), Excluding(txns, FUTURES_EXCLUDED));
            && (full.Ok? <==> scoped.Ok?)
            && (full.Ok? ==>
                  && full.value.positions == scoped.value.positions
                  && full.value.realizedPnl == scoped.value.realizedPnl
                  && (forall c :: full.value.Balance(c)
                               == scoped.value.Balance(c) + ExcludedMovedIn(txns, FUTURES_EXCLUDED, c))
                  && full.value.totalFees == scoped.value.totalFees + ExcludedFees(txns, FUTURES_EXCLUDED))
  {
    ReplayInParallel(Initial(initial), Initial(initial), txns, FUTURES_EXCLUDED);
  }
}
