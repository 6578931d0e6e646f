/** Replaying the ledger into cash balances, positions, cost basis and realised PnL. */
module Projection {
  import opened Wrappers
  import opened Numbers
  import opened Fills
  import opened Journal

  datatype Position = Position(quantity: real, avgEntryPrice: Option<real>, costBasis: real, realizedPnl: real)

  const EMPTY_POSITION := Position(0.0, None, 0.0, 0.0)

  datatype Snapshot = Snapshot(
    balances: map<string, real>,
    positions: map<string, Position>,
    realizedPnl: real,
    totalFees: real,
    totalDeposits: real,
    totalWithdrawals: real)
  {
    function Balance(currency: string): real {
      if currency in balances then balances[currency] else 0.0
    }

    function PositionOf(symbol: string): Position {
      if symbol in positions then positions[symbol] else EMPTY_POSITION
    }

    ghost function Equity(): real {
      SumValues(AMOUNT, balances) + SumValues(COST, positions)
    }
  }

  const AMOUNT: real -> real := (amount: real) => amount
  const COST: Position -> real := (p: Position) => p.costBasis

  /** `Oversell` is the ValueError of a sell beyond the position, `BadMetadata` the KeyError of a trade
      without its trade fields. */
  datatype Fault = Oversell | BadMetadata

  // ---------------------------------------------------------------- sums over maps

  ghost function Pick<V>(m: map<string, V>): (k: string)
    requires m != map[]
    ensures k in m
  {
    assert m.Keys != {};
    var k :| k in m; k
  }

  ghost function SumValues<V>(g: V -> real, m: map<string, V>): real
    decreases |m|
  {
    if m == map[] then 0.0 else g(m[Pick(m)]) + SumValues(g, m - {Pick(m)})
  }

  lemma {:induction false} SumRemove<V>(g: V -> real, m: map<string, V>, k: string)
    requires k in m
    ensures SumValues(g, m) == g(m[k]) + SumValues(g, m - {k})
    decreases |m|
  {
    var j := Pick(m);
    if j != k {
      SumRemove(g, m - {j}, k);
      SumRemove(g, m - {k}, j);
      assert m - {j} - {k} == m - {k} - {j};
    }
  }

  lemma {:induction false} SumUpdate<V>(g: V -> real, m: map<string, V>, k: string, v: V)
    ensures SumValues(g, m[k := v]) == SumValues(g, m) - (if k in m then g(m[k]) else 0.0) + g(v)
  {
    SumRemove(g, m[k := v], k);
    assert m[k := v] - {k} == m - {k};
    if k in m {
      SumRemove(g, m, k);
    } else {
      assert m - {k} == m;
    }
  }

  // ---------------------------------------------------------------- one transaction

  predicate HoldsCash(a: Account) {
    a.Cash? || a.Margin? || a.MarginOf?
  }

  function CashDelta(p: Posting): real {
    if !HoldsCash(p.account) then 0.0 else if p.direction == DEBIT then p.amount else -p.amount
  }

  function FeeDelta(p: Posting): real {
    if p.account == FeeExpense && p.direction == DEBIT then p.amount else 0.0
  }

  function Post(s: Snapshot, p: Posting): Snapshot {
    var t := if HoldsCash(p.account)
             then s.(balances := s.balances[p.currency := s.Balance(p.currency) + CashDelta(p)]) else s;
    t.(totalFees := t.totalFees + FeeDelta(p))
  }

  function PostAll(s: Snapshot, ps: seq<Posting>): Snapshot
    decreases |ps|
  {
    if ps == [] then s else PostAll(Post(s, ps[0]), ps[1..])
  }

  /** Insertion sort on the sequence number, stable like Python's `sorted`. */
  function Insert(e: Entry, sorted: seq<Entry>): (r: seq<Entry>)
    ensures multiset(r) == multiset{e} + multiset(sorted)
  {
    if sorted == [] || e.seqNo <= sorted[0].seqNo then [e] + sorted
    else
      assert sorted == [sorted[0]] + sorted[1..];
      [sorted[0]] + Insert(e, sorted[1..])
  }

  function SortBySeq(entries: seq<Entry>): (r: seq<Entry>)
    ensures multiset(r) == multiset(entries)
  {
    if entries == [] then []
    else
      assert entries == [entries[0]] + entries[1..];
      Insert(entries[0], SortBySeq(entries[1..]))
  }

  function Postings(t: Transaction): seq<Posting> {
    Unnumbered(SortBySeq(t.entries))
  }

  function Bought(p: Position, quantity: real, price: real): Position {
    var newQty := p.quantity + quantity;
    var newCost := p.costBasis + price * quantity;
    Position(newQty, if newQty > 0.0 then Some(newCost / newQty) else None, newCost, p.realizedPnl)
  }

  /** The average cost carried by the quantity sold. */
  function Release(p: Position, quantity: real): real {
    p.avgEntryPrice.GetOr(0.0) * quantity
  }

  function Sold(p: Position, quantity: real, price: real): Position {
    var release := Release(p, quantity);
    var newQty := p.quantity - quantity;
    var newCost := Max(p.costBasis - release, 0.0);
    var realized := p.realizedPnl + (price * quantity - release);
    if newQty == 0.0 then Position(newQty, None, 0.0, realized)
    else Position(newQty, if newQty > 0.0 then Some(newCost / newQty) else None, newCost, realized)
  }

  /** The trade's effect; on an oversell only the (possibly new, empty) position row is left behind. */
  function Traded(s: Snapshot, symbol: string, side: Side, quantity: real, price: real): (Snapshot, Option<Fault>) {
    var p := s.PositionOf(symbol);
    if side == BUY then
      (s.(positions := s.positions[symbol := Bought(p, quantity, price)]), None)
    else if p.quantity < quantity then
      (s.(positions := s.positions[symbol := p]), Some(Oversell))
    else
      (s.(positions := s.positions[symbol := Sold(p, quantity, price)],
          realizedPnl := s.realizedPnl + (price * quantity - Release(p, quantity))), None)
  }

  function MetaAmount(m: Meta): real {
    match m
    case CashMeta(amount) => amount
    case TradeMeta(_, _, quantity, _) => quantity
    case NoMeta => 0.0
  }

  /** What the entry type and metadata add once the postings are in. */
  function Settle(u: Snapshot, t: Transaction): (Snapshot, Option<Fault>) {
    match t.entryType
    case DEPOSIT => (u.(totalDeposits := u.totalDeposits + MetaAmount(t.meta)), None)
    case WITHDRAWAL => (u.(totalWithdrawals := u.totalWithdrawals + MetaAmount(t.meta)), None)
    case TRADE =>
      if t.meta.TradeMeta? then Traded(u, t.meta.symbol, t.meta.side, t.meta.quantity, t.meta.price)
      else (u, Some(BadMetadata))
    case _ => (u, None)
  }

  /** The snapshot after the transaction, also when it raises: the postings are not rolled back. */
  function Apply(s: Snapshot, t: Transaction): (Snapshot, Option<Fault>) {
    Settle(PostAll(s, Postings(t)), t)
  }

  function Replay(s: Snapshot, txns: seq<Transaction>): Result<Snapshot, Fault>
    decreases |txns|
  {
    if txns == [] then Ok(s)
    else
      var (u, fault) := Apply(s, txns[0]);
      if fault.Some? then Err(fault.value) else Replay(u, txns[1..])
  }

  function Excluding(txns: seq<Transaction>, excluded: set<EntryType>): seq<Transaction> {
    if txns == [] then []
    else if txns[0].entryType in excluded then Excluding(txns[1..], excluded)
    else [txns[0]] + Excluding(txns[1..], excluded)
  }

  function Initial(balances: map<string, real>): Snapshot {
    Snapshot(balances, map[], 0.0, 0.0, 0.0, 0.0)
  }

  // ---------------------------------------------------------------- the builder

  class ProjectionBuilder {
    var balances: map<string, real>
    var positions: map<string, Position>
    var realizedPnl: real
    var totalFees: real
    var totalDeposits: real
    var totalWithdrawals: real
    var equity: real

    ghost function View(): Snapshot
      reads this
    {
      Snapshot(balances, positions, realizedPnl, totalFees, totalDeposits, totalWithdrawals)
    }

    ghost predicate Valid()
      reads this
    {
      equity == View().Equity()
    }

    constructor (initial: map<string, real>)
      ensures Valid() && View() == Initial(initial)
    {
      balances, positions := initial, map[];
      realizedPnl, totalFees, totalDeposits, totalWithdrawals, equity := 0.0, 0.0, 0.0, 0.0, 0.0;
      new;
      RefreshEquity();
    }

    method RefreshEquity()
      modifies this`equity
      ensures Valid()
    {
      var total := 0.0;
      var cash := balances;
      while cash != map[]
        invariant total + SumValues(AMOUNT, cash) == SumValues(AMOUNT, balances)
        decreases |cash|
      {
        var k :| k in cash;
        SumRemove(AMOUNT, cash, k);
        total := total + cash[k];
        cash := cash - {k};
      }
      var open := positions;
      while open != map[]
        invariant total + SumValues(COST, open) == SumValues(AMOUNT, balances) + SumValues(COST, positions)
        decreases |open|
      {
        var k :| k in open;
        SumRemove(COST, open, k);
        total := total + open[k].costBasis;
        open := open - {k};
      }
      equity := total;
    }

    method SetBalance(currency: string, total: real)
      modifies this`balances, this`equity
      ensures Valid() && balances == old(balances)[currency := total]
    {
      balances := balances[currency := total];
      RefreshEquity();
    }

    method ApplyTrade(symbol: string, side: Side, quantity: real, price: real) returns (fault: Option<Fault>)
      requires Valid()
      modifies this`positions, this`realizedPnl, this`equity
      ensures Valid()
      ensures (View(), fault) == Traded(old(View()), symbol, side, quantity, price)
    {
      var p := if symbol in positions then positions[symbol] else EMPTY_POSITION;
      if side == BUY {
        positions := positions[symbol := Bought(p, quantity, price)];
      } else {
        if p.quantity < quantity {
          positions := positions[symbol := p];
          RefreshEquity();
          return Some(Oversell);
        }
        positions := positions[symbol := Sold(p, quantity, price)];
        realizedPnl := realizedPnl + (price * quantity - Release(p, quantity));
      }
      RefreshEquity();
      return None;
    }

    method PostEntry(p: Posting)
      requires Valid()
      modifies this`balances, this`totalFees, this`equity
      ensures Valid()
      ensures View() == Post(old(View()), p)
    {
      if p.account.Cash? || p.account.Margin? || p.account.MarginOf? {
        var current := if p.currency in balances then balances[p.currency] else 0.0;
        if p.direction == DEBIT {
          SetBalance(p.currency, current + p.amount);
        } else {
          SetBalance(p.currency, current - p.amount);
        }
      }
      if p.account == FeeExpense && p.direction == DEBIT {
        totalFees := totalFees + p.amount;
      }
    }

    method PostEntries(ps: seq<Posting>)
      requires Valid()
      modifies this`balances, this`totalFees, this`equity
      ensures Valid()
      ensures View() == PostAll(old(View()), ps)
    {
      for i := 0 to |ps|
        invariant Valid()
        invariant PostAll(View(), ps[i..]) == PostAll(old(View()), ps)
      {
        assert ps[i..][0] == ps[i] && ps[i..][1..] == ps[i + 1..];
        PostEntry(ps[i]);
      }
    }

    method ApplyTransaction(t: Transaction) returns (fault: Option<Fault>)
      requires Valid()
      modifies this
      ensures Valid()
      ensures (View(), fault) == Apply(old(View()), t)
    {
      PostEntries(Postings(t));
      fault := None;
      match t.entryType {
        case DEPOSIT => totalDeposits := totalDeposits + MetaAmount(t.meta);
        case WITHDRAWAL => totalWithdrawals := totalWithdrawals + MetaAmount(t.meta);
        case TRADE =>
          if !t.meta.TradeMeta? {
            return Some(BadMetadata);
          }
          fault := ApplyTrade(t.meta.symbol, t.meta.side, t.meta.quantity, t.meta.price);
          if fault.Some? {
            return;
          }
        case _ =>
      }
      RefreshEquity();
    }
  }

  lemma {:induction false} ReplayFirst(s: Snapshot, t: Transaction, rest: seq<Transaction>)
    ensures Replay(s, [t] + rest) == (var (u, fault) := Apply(s, t); if fault.Some? then Err(fault.value) else Replay(u, rest))
  {
    assert ([t] + rest)[1..] == rest;
  }

  lemma {:induction false} ExcludingStep(txns: seq<Transaction>, i: nat, excluded: set<EntryType>)
    requires i < |txns|
    ensures Excluding(txns[i..], excluded)
         == (var rest := Excluding(txns[i + 1..], excluded);
             if txns[i].entryType in excluded then rest else [txns[i]] + rest)
  {
    assert txns[i..][1..] == txns[i + 1..];
  }

  method ReplayProjections(initial: map<string, real>, txns: seq<Transaction>, excluded: set<EntryType>)
    returns (r: Result<Snapshot, Fault>, equity: real)
    ensures r == Replay(Initial(initial), Excluding(txns, excluded))
    ensures r.Ok? ==> equity == r.value.Equity()
  {
    var builder := new ProjectionBuilder(initial);
    assert txns[0..] == txns;
    ghost var left := Excluding(txns, excluded);
    for i := 0 to |txns|
      invariant builder.Valid() && fresh(builder)
      invariant left == Excluding(txns[i..], excluded)
      invariant Replay(builder.View(), left) == Replay(Initial(initial), Excluding(txns, excluded))
    {
      ExcludingStep(txns, i, excluded);
      if txns[i].entryType !in excluded {
        ReplayFirst(builder.View(), txns[i], Excluding(txns[i + 1..], excluded));
        var fault := builder.ApplyTransaction(txns[i]);
        if fault.Some? {
          return Err(fault.value), 0.0;
        }
      }
      left := Excluding(txns[i + 1..], excluded);
    }
    r := Ok(Snapshot(builder.balances, builder.positions, builder.realizedPnl, builder.totalFees,
                     builder.totalDeposits, builder.totalWithdrawals));
    equity := builder.equity;
  }

  lemma {:induction false} ReplayAppend(s: Snapshot, a: seq<Transaction>, b: seq<Transaction>)
    ensures Replay(s, a + b) == (var r := Replay(s, a); if r.Err? then r else Replay(r.value, b))
    decreases |a|
  {
    if a == [] {
      assert a + b == b;
    } else {
      assert (a + b)[1..] == a[1..] + b;
      ReplayAppend(Apply(s, a[0]).0, a[1..], b);
    }
  }

  // ---------------------------------------------------------------- entry order inside a transaction

  lemma {:induction false} PostsCommute(s: Snapshot, p: Posting, q: Posting)
    ensures Post(Post(s, p), q) == Post(Post(s, q), p)
  {
    assert Post(Post(s, p), q).balances == Post(Post(s, q), p).balances;
  }

  lemma {:induction false} PostFirst(s: Snapshot, ps: seq<Posting>, i: nat)
    requires i < |ps|
    ensures PostAll(s, ps) == PostAll(s, [ps[i]] + ps[..i] + ps[i + 1..])
    decreases |ps|
  {
    if i == 0 {
      assert [ps[0]] + ps[..0] + ps[1..] == ps;
    } else {
      var rest := ps[1..];
      PostFirst(Post(s, ps[0]), rest, i - 1);
      var moved := [rest[i - 1]] + rest[..i - 1] + rest[i..];
      assert moved[1..] == rest[..i - 1] + rest[i..];
      PostsCommute(s, ps[0], ps[i]);
      var front := [ps[i]] + ps[..i] + ps[i + 1..];
      assert front[1..] == ps[..i] + ps[i + 1..];
      assert front[1..][1..] == moved[1..];
    }
  }

  lemma {:induction false} SameRest<T>(a: seq<T>, b: seq<T>, i: nat)
    requires a != [] && i < |b| && a[0] == b[i] && multiset(a) == multiset(b)
    ensures multiset(a[1..]) == multiset(b[..i] + b[i + 1..])
  {
    assert a == [a[0]] + a[1..];
    assert b == b[..i] + [b[i]] + b[i + 1..];
    assert multiset(a[1..]) == multiset(a) - multiset{a[0]};
    assert multiset(b[..i] + b[i + 1..]) == multiset(b) - multiset{b[i]};
  }

  /** The result of posting a transaction does not depend on the order of its entries. */
  lemma {:induction false} PostingOrderIsIrrelevant(s: Snapshot, ps: seq<Posting>, qs: seq<Posting>)
    requires multiset(ps) == multiset(qs)
    ensures PostAll(s, ps) == PostAll(s, qs)
    decreases |ps|
  {
    if ps == [] {
      assert |multiset(ps)| == |ps| && |multiset(qs)| == |qs|;
    } else {
      assert ps[0] in multiset(qs);
      var i :| 0 <= i < |qs| && qs[i] == ps[0];
      PostFirst(s, qs, i);
      var others := qs[..i] + qs[i + 1..];
      SameRest(ps, qs, i);
      var front := [qs[i]] + qs[..i] + qs[i + 1..];
      assert front[1..] == others;
      PostingOrderIsIrrelevant(Post(s, ps[0]), ps[1..], others);
    }
  }

  lemma {:induction false} UnnumberedMultiset(a: seq<Entry>, b: seq<Entry>)
    requires multiset(a) == multiset(b)
    ensures multiset(Unnumbered(a)) == multiset(Unnumbered(b))
    decreases |a|
  {
    if a == [] {
      assert |multiset(a)| == |a| && |multiset(b)| == |b|;
    } else {
      assert a[0] in multiset(b);
      var i :| 0 <= i < |b| && b[i] == a[0];
      var others := b[..i] + b[i + 1..];
      SameRest(a, b, i);
      UnnumberedMultiset(a[1..], others);
      assert Unnumbered(a) == [a[0].posting] + Unnumbered(a[1..]);
      assert Unnumbered(b) == Unnumbered(b[..i]) + [b[i].posting] + Unnumbered(b[i + 1..]);
      assert Unnumbered(others) == Unnumbered(b[..i]) + Unnumbered(b[i + 1..]);
    }
  }

  /** Neither the stored order nor the sequence numbers of the entries matter, so the sort is harmless. */
  lemma {:induction false} EntryOrderIsIrrelevant(s: Snapshot, t: Transaction, entries: seq<Entry>)
    requires multiset(Unnumbered(entries)) == multiset(Unnumbered(t.entries))
    ensures Apply(s, t.(entries := entries)) == Apply(s, t)
  {
    UnnumberedMultiset(SortBySeq(entries), entries);
    UnnumberedMultiset(SortBySeq(t.entries), t.entries);
    PostingOrderIsIrrelevant(s, Postings(t.(entries := entries)), Postings(t));
  }
}
