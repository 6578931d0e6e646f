/** The append-only double-entry ledger: trade journals and their idempotent recording. */
module Journal {
  import opened Wrappers
  import opened Fills

  datatype EntrySide = DEBIT | CREDIT

  datatype Account =
    | Cash
    | Margin
    | MarginOf(symbol: string)
    | FeeExpense
    | PositionAsset(symbol: string)
    | RealizedPnl
    | OtherAccount(name: string)

  datatype EntryType =
    | TRADE | FEE | DEPOSIT | WITHDRAWAL | TRANSFER | FUNDING | INTEREST | REALIZED_PNL
    | MARGIN_CHANGE | FUTURES_MARGIN_POST | FUTURES_MARGIN_RELEASE | FUNDING_PAYMENT
    | FUNDING_RECEIPT | FUTURES_REALIZED_PNL | FUTURES_TRADING_FEE | LIQUIDATION_FEE
    | MARGIN_ADJUSTMENT

  datatype Posting = Posting(account: Account, direction: EntrySide, amount: real, currency: string)

  /** The part of the metadata that replay reads. */
  datatype Meta =
    | TradeMeta(symbol: string, side: Side, quantity: real, price: real)
    | CashMeta(amount: real)
    | NoMeta

  datatype Entry = Entry(seqNo: nat, posting: Posting)

  datatype Transaction = Transaction(
    entryType: EntryType,
    entries: seq<Entry>,
    orderId: Option<string>,
    fillId: Option<string>,
    eventId: Option<string>,
    meta: Meta)

  datatype LedgerError = JournalUnbalanced

  function Sum(postings: seq<Posting>, direction: EntrySide): real {
    if postings == [] then 0.0
    else (if postings[0].direction == direction then postings[0].amount else 0.0) + Sum(postings[1..], direction)
  }

  predicate JournalBalanced(postings: seq<Posting>) {
    Sum(postings, DEBIT) == Sum(postings, CREDIT)
  }

  // ---------------------------------------------------------------- trade journals

  function TradePostings(side: Side, symbol: string, quote: string, price: real, quantity: real, fee: real,
                         costReleased: Option<real>): seq<Posting>
  {
    var gross := price * quantity;
    if side == BUY then
      [ Posting(PositionAsset(symbol), DEBIT, gross, quote),
        Posting(FeeExpense, DEBIT, fee, quote),
        Posting(Cash, CREDIT, gross + fee, quote) ]
    else
      var released := costReleased.GetOr(0.0);
      var realized := gross - released;
      [ Posting(Cash, DEBIT, gross, quote), Posting(PositionAsset(symbol), CREDIT, released, quote) ]
      + (if realized > 0.0 then [Posting(RealizedPnl, CREDIT, realized, quote)]
         else if realized < 0.0 then [Posting(RealizedPnl, DEBIT, -realized, quote)]
         else [])
      + [ Posting(FeeExpense, DEBIT, fee, quote), Posting(Cash, CREDIT, fee, quote) ]
  }

  function BuildTradeEntries(side: Side, symbol: string, quote: string, price: real, quantity: real, fee: real,
                             costReleased: Option<real>): Result<(seq<Posting>, Meta), LedgerError>
  {
    var postings := TradePostings(side, symbol, quote, price, quantity, fee, costReleased);
    if JournalBalanced(postings) then Ok((postings, TradeMeta(symbol, side, quantity, price)))
    else Err(JournalUnbalanced)
  }

  lemma {:induction false} SumAppend(a: seq<Posting>, b: seq<Posting>, direction: EntrySide)
    ensures Sum(a + b, direction) == Sum(a, direction) + Sum(b, direction)
  {
    if a == [] {
      assert a + b == b;
    } else {
      assert (a + b)[1..] == a[1..] + b;
      SumAppend(a[1..], b, direction);
    }
  }

  lemma {:induction false} SumOne(p: Posting, direction: EntrySide)
    ensures Sum([p], direction) == if p.direction == direction then p.amount else 0.0
  {
    assert [p][1..] == [];
  }

  lemma {:induction false} SumTwo(p: Posting, q: Posting, direction: EntrySide)
    ensures Sum([p, q], direction) == Sum([p], direction) + Sum([q], direction)
  {
    assert [p, q] == [p] + [q];
    SumAppend([p], [q], direction);
  }

  /** Every generated journal balances, whatever cost a sell releases, so the builder never fails. */
  lemma {:induction false} TradeJournalsBalance(side: Side, symbol: string, quote: string, price: real, quantity: real, fee: real,
                             costReleased: Option<real>)
    ensures BuildTradeEntries(side, symbol, quote, price, quantity, fee, costReleased).Ok?
  {
    var ps := TradePostings(side, symbol, quote, price, quantity, fee, costReleased);
    forall direction: EntrySide
      ensures side == BUY ==> Sum(ps, direction) == price * quantity + fee
      ensures side == SELL && price * quantity >= costReleased.GetOr(0.0) ==> Sum(ps, direction) == price * quantity + fee
      ensures side == SELL && price * quantity <= costReleased.GetOr(0.0)
              ==> Sum(ps, direction) == costReleased.GetOr(0.0) + fee
    {
      if side == BUY {
        assert ps == [ps[0], ps[1]] + [ps[2]];
        SumAppend([ps[0], ps[1]], [ps[2]], direction);
        SumTwo(ps[0], ps[1], direction);
        SumOne(ps[0], direction);
        SumOne(ps[1], direction);
        SumOne(ps[2], direction);
      } else {
        var n := |ps|;
        var middle := ps[2..n - 2];
        assert ps == [ps[0], ps[1]] + middle + [ps[n - 2], ps[n - 1]];
        SumAppend([ps[0], ps[1]] + middle, [ps[n - 2], ps[n - 1]], direction);
        SumAppend([ps[0], ps[1]], middle, direction);
        SumTwo(ps[0], ps[1], direction);
        SumTwo(ps[n - 2], ps[n - 1], direction);
        SumOne(ps[0], direction);
        SumOne(ps[1], direction);
        SumOne(ps[n - 2], direction);
        SumOne(ps[n - 1], direction);
        if middle != [] {
          assert middle == [ps[2]];
          SumOne(ps[2], direction);
        }
      }
    }
  }

  /** Debits less credits of one account. */
  function NetOn(account: Account, postings: seq<Posting>): real {
    if postings == [] then 0.0
    else
      (if postings[0].account != account then 0.0
       else if postings[0].direction == DEBIT then postings[0].amount
       else -postings[0].amount) + NetOn(account, postings[1..])
  }

  lemma {:induction false} NetOnAppend(account: Account, a: seq<Posting>, b: seq<Posting>)
    ensures NetOn(account, a + b) == NetOn(account, a) + NetOn(account, b)
  {
    if a == [] {
      assert a + b == b;
    } else {
      assert (a + b)[1..] == a[1..] + b;
      NetOnAppend(account, a[1..], b);
    }
  }

  lemma {:induction false} NetOnOne(account: Account, p: Posting)
    ensures NetOn(account, [p]) == if p.account != account then 0.0 else if p.direction == DEBIT then p.amount else -p.amount
  {
    assert [p][1..] == [];
  }

  lemma {:induction false} NetOnTwo(account: Account, p: Posting, q: Posting)
    ensures NetOn(account, [p, q]) == NetOn(account, [p]) + NetOn(account, [q])
  {
    assert [p, q] == [p] + [q];
    NetOnAppend(account, [p], [q]);
  }

  /** What a trade does to each account: the asset takes in the notional of a buy and gives up the released cost of
      a sell, cash moves by the notional and the fee, a sell's profit is credited, nothing else moves. */
  lemma {:induction false} TradeMovesAccounts(side: Side, symbol: string, quote: string, price: real, quantity: real, fee: real,
                                              costReleased: Option<real>, account: Account)
    ensures var ps := TradePostings(side, symbol, quote, price, quantity, fee, costReleased);
            var gross, released := price * quantity, costReleased.GetOr(0.0);
            && (forall p :: p in ps ==> p.currency == quote)
            && NetOn(account, ps) ==
                 if account == Cash then (if side == BUY then -(gross + fee) else gross - fee)
                 else if account == FeeExpense then fee
                 else if account == PositionAsset(symbol) then (if side == BUY then gross else -released)
                 else if account == RealizedPnl && side == SELL then released - gross
                 else 0.0
  {
    var ps := TradePostings(side, symbol, quote, price, quantity, fee, costReleased);
    hide NetOn;
    if side == BUY {
      assert ps == [ps[0], ps[1]] + [ps[2]];
      NetOnAppend(account, [ps[0], ps[1]], [ps[2]]);
      NetOnOne(account, ps[2]);
    } else {
      var n := |ps|;
      NetOnFive(account, ps);
      NetOnOne(account, ps[n - 2]);
      NetOnOne(account, ps[n - 1]);
    }
    NetOnTwo(account, ps[0], ps[1]);
    NetOnOne(account, ps[0]);
    NetOnOne(account, ps[1]);
  }

  lemma {:induction false} NetOnFive(account: Account, ps: seq<Posting>)
    requires 4 <= |ps| <= 5
    ensures var n := |ps|;
            NetOn(account, ps) == NetOn(account, [ps[0], ps[1]]) + NetOn(account, [ps[n - 2]]) + NetOn(account, [ps[n - 1]])
              + if n == 4 || ps[2].account != account then 0.0 else if ps[2].direction == DEBIT then ps[2].amount else -ps[2].amount
  {
    var n := |ps|;
    var middle := ps[2..n - 2];
    assert ps == [ps[0], ps[1]] + middle + [ps[n - 2], ps[n - 1]];
    NetOnAppend(account, [ps[0], ps[1]] + middle, [ps[n - 2], ps[n - 1]]);
    NetOnAppend(account, [ps[0], ps[1]], middle);
    NetOnTwo(account, ps[n - 2], ps[n - 1]);
    if middle != [] {
      assert middle == [ps[2]];
      NetOnOne(account, ps[2]);
    }
  }

  // ---------------------------------------------------------------- recording

  /** An id counts only when it is present and not the empty string. */
  predicate Given(id: Option<string>) {
    id.Some? && id.value != ""
  }

  datatype Call = Call(
    entryType: EntryType,
    postings: seq<Posting>,
    orderId: Option<string>,
    fillId: Option<string>,
    eventId: Option<string>,
    meta: Meta)
  {
    predicate Valid() {
      postings != [] && JournalBalanced(postings)
    }

    predicate Identified() {
      Given(fillId) || Given(eventId)
    }

    function Stored(): Transaction {
      Transaction(entryType, Numbered(postings), orderId, fillId, eventId, meta)
    }
  }

  function Numbered(postings: seq<Posting>): seq<Entry> {
    seq(|postings|, i requires 0 <= i < |postings| => Entry(i + 1, postings[i]))
  }

  function Unnumbered(entries: seq<Entry>): seq<Posting> {
    seq(|entries|, i requires 0 <= i < |entries| => entries[i].posting)
  }

  /** Every id the call supplies agrees with the stored ids. */
  predicate Agrees(fillId: Option<string>, eventId: Option<string>, c: Call) {
    && (Given(c.fillId) ==> fillId == c.fillId)
    && (Given(c.eventId) ==> eventId == c.eventId)
  }

  /** The row carries every field of the call, its postings numbered from one in their order. */
  predicate Carries(row: Transaction, c: Call) {
    && row.entryType == c.entryType && row.meta == c.meta
    && row.orderId == c.orderId && row.fillId == c.fillId && row.eventId == c.eventId
    && |row.entries| == |c.postings|
    && forall i :: 0 <= i < |c.postings| ==> row.entries[i].seqNo == i + 1 && row.entries[i].posting == c.postings[i]
  }

  ghost predicate AlreadyStored(rows: seq<Transaction>, c: Call) {
    c.Identified() && exists i :: 0 <= i < |rows| && Agrees(rows[i].fillId, rows[i].eventId, c)
  }

  ghost function Recorded(rows: seq<Transaction>, c: Call): seq<Transaction> {
    if AlreadyStored(rows, c) || !c.Valid() then rows else rows + [c.Stored()]
  }

  ghost function RecordAll(calls: seq<Call>): seq<Transaction> {
    if calls == [] then [] else Recorded(RecordAll(calls[..|calls| - 1]), calls[|calls| - 1])
  }

  class LedgerService {
    var rows: seq<Transaction>

    constructor ()
      ensures rows == []
    {
      rows := [];
    }

    /** The first row that matches every supplied id. */
    method FindTransaction(c: Call) returns (found: Option<Transaction>)
      ensures found.Some? <==> AlreadyStored(rows, c)
      ensures found.Some? ==> exists i :: (0 <= i < |rows| && found.value == rows[i] && Agrees(rows[i].fillId, rows[i].eventId, c)
                                           && forall j :: 0 <= j < i ==> !Agrees(rows[j].fillId, rows[j].eventId, c))
      ensures found.Some? ==>
                && (Given(c.fillId) || Given(c.eventId))
                && (Given(c.fillId) ==> found.value.fillId == c.fillId)
                && (Given(c.eventId) ==> found.value.eventId == c.eventId)
      ensures found.None? && (Given(c.fillId) || Given(c.eventId)) ==>
                forall t :: t in rows ==> (Given(c.fillId) && t.fillId != c.fillId) || (Given(c.eventId) && t.eventId != c.eventId)
    {
      if !c.Identified() {
        return None;
      }
      for i := 0 to |rows|
        invariant forall j :: 0 <= j < i ==> !Agrees(rows[j].fillId, rows[j].eventId, c)
      {
        if Agrees(rows[i].fillId, rows[i].eventId, c) {
          return Some(rows[i]);
        }
      }
      return None;
    }

    method Record(c: Call) returns (r: Result<Transaction, LedgerError>)
      modifies this
      ensures rows == Recorded(old(rows), c)
      ensures r.Err? <==> !AlreadyStored(old(rows), c) && !c.Valid()
      ensures r.Err? ==> rows == old(rows)
      ensures r.Ok? && !AlreadyStored(old(rows), c) ==> rows == old(rows) + [r.value] && Carries(r.value, c)
      ensures r.Ok? && AlreadyStored(old(rows), c) ==>
                rows == old(rows) && r.value in rows && Agrees(r.value.fillId, r.value.eventId, c)
    {
      var existing := FindTransaction(c);
      if existing.Some? {
        return Ok(existing.value);
      }
      if c.postings == [] || !JournalBalanced(c.postings) {
        return Err(JournalUnbalanced);
      }
      rows := rows + [c.Stored()];
      return Ok(c.Stored());
    }
  }

  // ---------------------------------------------------------------- idempotence over whole streams

  /** Call `j` supplies ids, and an earlier valid call already carried all of them. */
  ghost predicate Redelivers(calls: seq<Call>, j: nat)
    requires j < |calls|
  {
    calls[j].Identified()
    && exists i :: 0 <= i < j && calls[i].Valid() && Agrees(calls[i].fillId, calls[i].eventId, calls[j])
  }

  /** The valid calls among the first `n` that deliver something for the first time. */
  ghost function FirstOccurrences(calls: seq<Call>, n: nat): seq<Transaction>
    requires n <= |calls|
  {
    if n == 0 then []
    else if calls[n - 1].Valid() && !Redelivers(calls, n - 1) then FirstOccurrences(calls, n - 1) + [calls[n - 1].Stored()]
    else FirstOccurrences(calls, n - 1)
  }

  ghost predicate StoredFrom(row: Transaction, calls: seq<Call>, n: nat)
    requires n <= |calls|
  {
    exists i :: 0 <= i < n && calls[i].Valid() && row == calls[i].Stored()
  }

  ghost predicate Carried(rows: seq<Transaction>, c: Call) {
    exists r :: 0 <= r < |rows| && Agrees(rows[r].fillId, rows[r].eventId, c)
  }

  /** Rows come from valid calls, and every valid call is covered by a row carrying its ids. */
  ghost predicate Covers(rows: seq<Transaction>, calls: seq<Call>, n: nat)
    requires n <= |calls|
  {
    && (forall r :: 0 <= r < |rows| ==> StoredFrom(rows[r], calls, n))
    && (forall i :: 0 <= i < n && calls[i].Valid() ==> Carried(rows, calls[i]))
  }

  lemma {:induction false} StoredIffRedelivered(rows: seq<Transaction>, calls: seq<Call>, n: nat)
    requires n < |calls| && Covers(rows, calls, n)
    ensures AlreadyStored(rows, calls[n]) <==> Redelivers(calls, n)
  {
    var c := calls[n];
    if AlreadyStored(rows, c) {
      var r :| 0 <= r < |rows| && Agrees(rows[r].fillId, rows[r].eventId, c);
      assert StoredFrom(rows[r], calls, n);
      var i :| 0 <= i < n && calls[i].Valid() && rows[r] == calls[i].Stored();
      assert Agrees(calls[i].fillId, calls[i].eventId, c);
    }
    if Redelivers(calls, n) {
      var i :| 0 <= i < n && calls[i].Valid() && Agrees(calls[i].fillId, calls[i].eventId, c);
      assert Carried(rows, calls[i]);
      var r :| 0 <= r < |rows| && Agrees(rows[r].fillId, rows[r].eventId, calls[i]);
      assert Agrees(rows[r].fillId, rows[r].eventId, c);
    }
  }

  lemma {:induction false} CoversStep(rows: seq<Transaction>, calls: seq<Call>, n: nat)
    requires n < |calls| && Covers(rows, calls, n)
    ensures Covers(Recorded(rows, calls[n]), calls, n + 1)
  {
    hide JournalBalanced;
    var rows', c := Recorded(rows, calls[n]), calls[n];
    forall r | 0 <= r < |rows'|
      ensures StoredFrom(rows'[r], calls, n + 1)
    {
      if r < |rows| {
        assert StoredFrom(rows[r], calls, n);
      }
    }
    forall i | 0 <= i < n + 1 && calls[i].Valid()
      ensures Carried(rows', calls[i])
    {
      if i < n {
        assert Carried(rows, calls[i]);
        var r :| 0 <= r < |rows| && Agrees(rows[r].fillId, rows[r].eventId, calls[i]);
        assert rows'[r] == rows[r];
      } else if !AlreadyStored(rows, c) {
        assert rows'[|rows|] == c.Stored();
      }
    }
  }

  lemma {:induction false} RunInvariant(calls: seq<Call>, n: nat)
    requires n <= |calls|
    ensures RecordAll(calls[..n]) == FirstOccurrences(calls, n)
    ensures Covers(RecordAll(calls[..n]), calls, n)
  {
    if n > 0 {
      RunInvariant(calls, n - 1);
      assert calls[..n][..n - 1] == calls[..n - 1];
      StoredIffRedelivered(RecordAll(calls[..n - 1]), calls, n - 1);
      CoversStep(RecordAll(calls[..n - 1]), calls, n - 1);
    }
  }

  /** After any stream of calls the ledger is exactly the first occurrences, in order. */
  lemma {:induction false} LedgerIsFirstOccurrences(calls: seq<Call>)
    ensures RecordAll(calls) == FirstOccurrences(calls, |calls|)
  {
    RunInvariant(calls, |calls|);
    assert calls[..|calls|] == calls;
  }

  lemma {:induction false} PastIsStored(calls: seq<Call>, c: Call)
    requires c in calls && c.Identified()
    ensures Recorded(RecordAll(calls), c) == RecordAll(calls)
  {
    hide JournalBalanced;
    RunInvariant(calls, |calls|);
    assert calls[..|calls|] == calls;
    var i :| 0 <= i < |calls| && calls[i] == c;
    if c.Valid() {
      assert Carried(RecordAll(calls), calls[i]);
    }
  }

  /** Replaying any identified calls of the past, in any order and number, changes nothing. */
  lemma {:induction false} RedeliveryChangesNothing(calls: seq<Call>, again: seq<Call>)
    requires forall c :: c in again ==> c in calls && c.Identified()
    ensures RecordAll(calls + again) == RecordAll(calls)
  {
    hide Recorded;
    if again == [] {
      assert calls + again == calls;
    } else {
      var n, c := |again| - 1, again[|again| - 1];
      RedeliveryChangesNothing(calls, again[..n]);
      assert (calls + again)[..|calls + again| - 1] == calls + again[..n];
      assert c in again;
      PastIsStored(calls, c);
    }
  }

  lemma {:induction false} StoredBalances(c: Call)
    requires c.Valid()
    ensures var t := c.Stored(); t.entries != [] && JournalBalanced(Unnumbered(t.entries))
  {
    assert Unnumbered(c.Stored().entries) == c.postings;
  }

  /** Debits equal credits in every stored transaction, after any stream of calls. */
  lemma {:induction false} StoredTransactionsBalance(calls: seq<Call>)
    ensures forall t :: t in RecordAll(calls) ==> t.entries != [] && JournalBalanced(Unnumbered(t.entries))
  {
    if calls != [] {
      var n := |calls| - 1;
      StoredTransactionsBalance(calls[..n]);
      if calls[n].Valid() {
        StoredBalances(calls[n]);
      }
    }
  }

  /** All debits, or all credits, of a ledger. */
  function LedgerSum(rows: seq<Transaction>, direction: EntrySide): real {
    if rows == [] then 0.0
    else LedgerSum(rows[..|rows| - 1], direction) + Sum(Unnumbered(rows[|rows| - 1].entries), direction)
  }

  lemma {:induction false} BalancedRowsBalance(rows: seq<Transaction>)
    requires forall t :: t in rows ==> JournalBalanced(Unnumbered(t.entries))
    ensures LedgerSum(rows, DEBIT) == LedgerSum(rows, CREDIT)
  {
    if rows != [] {
      BalancedRowsBalance(rows[..|rows| - 1]);
    }
  }

  /** Total debits equal total credits over the whole ledger, after any stream of calls. */
  lemma {:induction false} WholeLedgerBalances(calls: seq<Call>)
    ensures LedgerSum(RecordAll(calls), DEBIT) == LedgerSum(RecordAll(calls), CREDIT)
  {
    StoredTransactionsBalance(calls);
    BalancedRowsBalance(RecordAll(calls));
  }

  ghost predicate OncePerFill(rows: seq<Transaction>) {
    forall i, j :: 0 <= i < j < |rows| && Given(rows[i].fillId) ==> rows[i].fillId != rows[j].fillId
  }

  /** A fill id that comes again comes without an event id, or with one it already came with. */
  ghost predicate EventIdsRepeat(calls: seq<Call>) {
    forall j :: 0 <= j < |calls| && Repeats(calls, j) ==> Redelivers(calls, j)
  }

  ghost predicate Repeats(calls: seq<Call>, j: nat)
    requires j < |calls|
  {
    calls[j].Valid() && FillSeen(calls, j, calls[j].fillId)
  }

  ghost predicate FillSeen(calls: seq<Call>, n: nat, fillId: Option<string>)
    requires n <= |calls|
  {
    Given(fillId) && exists i :: 0 <= i < n && calls[i].Valid() && calls[i].fillId == fillId
  }

  ghost predicate FillStored(rows: seq<Transaction>, fillId: Option<string>) {
    Given(fillId) && exists r :: 0 <= r < |rows| && rows[r].fillId == fillId
  }

  lemma {:induction false} StoredIffSeen(rows: seq<Transaction>, calls: seq<Call>, n: nat, fillId: Option<string>)
    requires n <= |calls| && Covers(rows, calls, n)
    ensures FillStored(rows, fillId) <==> FillSeen(calls, n, fillId)
  {
    if FillStored(rows, fillId) {
      var r :| 0 <= r < |rows| && rows[r].fillId == fillId;
      assert StoredFrom(rows[r], calls, n);
    }
    if FillSeen(calls, n, fillId) {
      var i :| 0 <= i < n && calls[i].Valid() && calls[i].fillId == fillId;
      assert Carried(rows, calls[i]);
    }
  }

  lemma {:induction false} OncePerFillSnoc(rows: seq<Transaction>, t: Transaction)
    ensures OncePerFill(rows + [t]) <==> OncePerFill(rows) && !FillStored(rows, t.fillId)
  {
    var rows' := rows + [t];
    assert forall r :: 0 <= r < |rows| ==> rows'[r] == rows[r];
    assert rows'[|rows|] == t;
    if OncePerFill(rows') {
      assert forall i, j :: 0 <= i < j < |rows| ==> rows'[i] == rows[i] && rows'[j] == rows[j];
    }
  }

  lemma {:induction false} OncePerFillPrefix(calls: seq<Call>, n: nat)
    requires n <= |calls|
    ensures OncePerFill(FirstOccurrences(calls, n)) <==>
            forall j :: 0 <= j < n && Repeats(calls, j) ==> Redelivers(calls, j)
  {
    hide Covers;
    hide FillSeen;
    hide FillStored;
    hide JournalBalanced;
    if n > 0 {
      OncePerFillPrefix(calls, n - 1);
      RunInvariant(calls, n - 1);
      var rows := FirstOccurrences(calls, n - 1);
      StoredIffSeen(rows, calls, n - 1, calls[n - 1].fillId);
      OncePerFillSnoc(rows, calls[n - 1].Stored());
    }
  }

  /** A fill is settled at most once exactly for the streams whose repeated fills repeat an event id
      (or omit it). The lookup needs every supplied id to match, so a fresh event id defeats it. */
  lemma {:induction false} SettledOnceIffEventIdsRepeat(calls: seq<Call>)
    ensures OncePerFill(RecordAll(calls)) <==> EventIdsRepeat(calls)
  {
    LedgerIsFirstOccurrences(calls);
    OncePerFillPrefix(calls, |calls|);
  }

  /** Absent and empty ids identify nothing, so such a call is always appended; a call that repeats the ids of a stored
      row never is, and with one id in common a call is only recognised when it supplies no other. */
  lemma {:induction false} IdsDecide(rows: seq<Transaction>, c: Call, i: nat)
    requires i < |rows| && c.Valid()
    ensures c.fillId in {None, Some("")} && c.eventId in {None, Some("")} ==> Recorded(rows, c) == rows + [c.Stored()]
    ensures c.fillId !in {None, Some("")} && rows[i].fillId == c.fillId && c.eventId in {None, Some(""), rows[i].eventId} ==>
              Recorded(rows, c) == rows
    ensures c.eventId !in {None, Some("")} && rows[i].eventId == c.eventId && c.fillId in {None, Some(""), rows[i].fillId} ==>
              Recorded(rows, c) == rows
    ensures Recorded(rows, c) == rows && c.fillId !in {None, Some("")} ==> c.fillId in FillIds(rows)
    ensures Recorded(rows, c) == rows && c.eventId !in {None, Some("")} ==> c.eventId in EventIds(rows)
  {
    hide JournalBalanced;
    assert |rows + [c.Stored()]| == |rows| + 1;
    if AlreadyStored(rows, c) {
      var k :| 0 <= k < |rows| && Agrees(rows[k].fillId, rows[k].eventId, c);
      assert rows[k].fillId == FillIds(rows)[k] && rows[k].eventId == EventIds(rows)[k];
    }
    if c.Identified() && Agrees(rows[i].fillId, rows[i].eventId, c) {
      assert AlreadyStored(rows, c);
    }
  }

  function FillIds(rows: seq<Transaction>): seq<Option<string>> {
    seq(|rows|, i requires 0 <= i < |rows| => rows[i].fillId)
  }

  function EventIds(rows: seq<Transaction>): seq<Option<string>> {
    seq(|rows|, i requires 0 <= i < |rows| => rows[i].eventId)
  }

  lemma {:induction false} FreshIsNoRedelivery(calls: seq<Call>, n: nat)
    requires n < |calls| && Given(calls[n].eventId)
    requires forall i :: 0 <= i < n ==> calls[i].eventId != calls[n].eventId
    ensures !Redelivers(calls, n)
  {
  }

  /** The engine draws a new event id for each settlement: then nothing is ever recognised as a repeat. */
  lemma {:induction false} FreshEventIdsAlwaysAppend(calls: seq<Call>, n: nat)
    requires n <= |calls|
    requires forall i :: 0 <= i < |calls| ==> calls[i].Valid() && Given(calls[i].eventId)
    requires forall i, j :: 0 <= i < j < |calls| ==> calls[i].eventId != calls[j].eventId
    ensures FirstOccurrences(calls, n) == seq(n, i requires 0 <= i < n => calls[i].Stored())
  {
    hide JournalBalanced;
    if n > 0 {
      FreshEventIdsAlwaysAppend(calls, n - 1);
      FreshIsNoRedelivery(calls, n - 1);
    }
  }
}
