/** The learning table: recording every completed cycle once, from whatever facts the database holds. */
module EpisodeStore {
  import opened Wrappers
  import opened Fills
  import opened Cycles
  import opened Episodes
  import opened Agreement
  import opened Settlement

  /** The canonical facts of one run. `fills` is in timestamp order; a window is a symbol and the parsed
      time of a quarantine event. */
  datatype Facts = Facts(
    fills: seq<Fill>,
    quarantined: set<string>,
    windows: seq<(string, Option<int>)>,
    hits: LedgerHits,
    leverage: map<string, real>)

  /** The columns that are written again on every run. */
  datatype Derived = Derived(
    entryPrice: real, exitPrice: real, positionSize: real, holdingSeconds: int,
    grossPnl: real, fees: real, netPnl: real, verdict: Verdict,
    marketType: MarketType, direction: Direction, leverage: real)

  datatype Row = Row(symbol: string, strategyId: string, createdAt: int, derived: Derived)

  type Table = map<EpisodeKey, Row>

  datatype Upsert = Upsert(key: EpisodeKey, symbol: string, strategyId: string, derived: Derived)

  // ---------------------------------------------------------------- which cycles are recorded

  function Unquarantined(fills: seq<Fill>, quarantined: set<string>): seq<Fill> {
    if fills == [] then []
    else if fills[0].fillId in quarantined then Unquarantined(fills[1..], quarantined)
    else [fills[0]] + Unquarantined(fills[1..], quarantined)
  }

  function CleanFills(facts: Facts, symbol: string): seq<Fill> {
    Unquarantined(Only(symbol, facts.fills), facts.quarantined)
  }

  predicate InWindow(entry: Option<int>, exit: Option<int>, at: Option<int>) {
    entry.Some? && exit.Some? && at.Some? && entry.value <= at.value <= exit.value
  }

  predicate Tainted(facts: Facts, symbol: string, e: Episode) {
    || (exists id :: id in facts.quarantined && (id in e.key.entryFillIds || id in e.key.exitFillIds))
    || (exists w :: w in facts.windows && w.0 == symbol && InWindow(e.entryTimestamp, e.exitTimestamp, w.1))
  }

  function LeverageFor(facts: Facts, symbol: string, market: MarketType): Option<real> {
    if market == SPOT then Some(1.0)
    else if symbol in facts.leverage then Some(facts.leverage[symbol]) else None
  }

  function Effective(leverage: Option<real>): real {
    if leverage.Some? && leverage.value > 0.0 then leverage.value else 1.0
  }

  function UpsertOf(facts: Facts, symbol: string, e: Episode): Upsert {
    Upsert(e.key, e.key.symbol, e.strategyId,
           Derived(e.entryPrice, e.exitPrice, e.positionSize, e.holdingSeconds, e.grossPnl, e.fees, e.netPnl, e.verdict,
                   e.key.marketType, e.direction, Effective(LeverageFor(facts, symbol, e.key.marketType))))
  }

  function CycleUpsert(facts: Facts, symbol: string, c: CycleValue): seq<Upsert>
    requires c.Complete()
  {
    var e := CycleEpisode(c, facts.hits);
    if Tainted(facts, symbol, e) then [] else [UpsertOf(facts, symbol, e)]
  }

  /** The rows to write for these cycles, tainted ones left out. */
  function UpsertsOf(facts: Facts, symbol: string, cycles: seq<CycleValue>): seq<Upsert>
    requires AllComplete(cycles)
  {
    if cycles == [] then []
    else
      UpsertsOf(facts, symbol, cycles[..|cycles| - 1]) + CycleUpsert(facts, symbol, cycles[|cycles| - 1])
  }

  lemma {:induction false} UpsertsStep(facts: Facts, symbol: string, cycles: seq<CycleValue>, i: nat)
    requires i < |cycles| && AllComplete(cycles)
    ensures UpsertsOf(facts, symbol, cycles[..i + 1])
         == UpsertsOf(facts, symbol, cycles[..i]) + CycleUpsert(facts, symbol, cycles[i])
  {
    hide CycleUpsert;
    assert cycles[..i + 1][..i] == cycles[..i];
  }

  lemma {:induction false} ScanIsComplete(symbol: string, s: Scan, fills: seq<Fill>)
    requires AllComplete(s.closed)
    ensures AllComplete(ScanFrom(symbol, s, fills).closed)
    decreases fills
  {
    if fills != [] {
      ScanIsComplete(symbol, ScanStep(symbol, s, fills[0]), fills[1..]);
    }
  }

  function SymbolCycles(facts: Facts, symbol: string): (cycles: seq<CycleValue>)
    ensures AllComplete(cycles)
  {
    ScanIsComplete(symbol, START, CleanFills(facts, symbol));
    BuiltCycles(symbol, CleanFills(facts, symbol))
  }

  function Upserts(facts: Facts, symbols: seq<string>): seq<Upsert> {
    if symbols == [] then []
    else
      var n := |symbols| - 1;
      Upserts(facts, symbols[..n]) + UpsertsOf(facts, symbols[n], SymbolCycles(facts, symbols[n]))
  }

  // ---------------------------------------------------------------- the table

  function Persisted(table: Table, u: Upsert, now: int): Table {
    table[u.key := if u.key in table then table[u.key].(derived := u.derived)
                   else Row(u.symbol, u.strategyId, now, u.derived)]
  }

  function PersistedAll(table: Table, us: seq<Upsert>, now: int): Table {
    if us == [] then table else Persisted(PersistedAll(table, us[..|us| - 1], now), us[|us| - 1], now)
  }

  lemma {:induction false} PersistAppend(table: Table, a: seq<Upsert>, b: seq<Upsert>, now: int)
    ensures PersistedAll(table, a + b, now) == PersistedAll(PersistedAll(table, a, now), b, now)
  {
    if b == [] {
      assert a + b == a;
    } else {
      var n := |b| - 1;
      assert (a + b)[..|a + b| - 1] == a + b[..n];
      PersistAppend(table, a, b[..n], now);
    }
  }

  /** Everything of a row but the columns that are written again. */
  predicate SameIdentity(a: Row, b: Row) {
    a.symbol == b.symbol && a.strategyId == b.strategyId && a.createdAt == b.createdAt
  }

  /** No episode is gone, and each is the one it was. */
  ghost predicate Identified(before: Table, after: Table) {
    before.Keys <= after.Keys && forall k :: k in before ==> SameIdentity(before[k], after[k])
  }

  /** Whatever facts a run has, it removes no episode and changes nothing of one but the derived columns. */
  lemma {:induction false} RunsKeepIdentities(table: Table, us: seq<Upsert>, now: int)
    ensures Identified(table, PersistedAll(table, us, now))
  {
    if us != [] {
      RunsKeepIdentities(table, us[..|us| - 1], now);
    }
  }

  class EpisodeTable {
    var table: Table

    constructor ()
      ensures table == map[]
    {
      table := map[];
    }

    /** Inserts a new row, or rewrites the derived columns of the row already there. */
    method Persist(u: Upsert, now: int) returns (inserted: bool)
      modifies this
      ensures table == Persisted(old(table), u, now)
      ensures inserted == (u.key !in old(table))
      ensures |table| == |old(table)| + if inserted then 1 else 0
    {
      inserted := u.key !in table;
      if inserted {
        table := table[u.key := Row(u.symbol, u.strategyId, now, u.derived)];
      } else {
        table := table[u.key := table[u.key].(derived := u.derived)];
      }
    }

    method RecordCycle(facts: Facts, symbol: string, c: CycleValue, now: int) returns (inserted: nat, existed: nat)
      requires c.Complete()
      modifies this
      ensures table == PersistedAll(old(table), CycleUpsert(facts, symbol, c), now)
      ensures inserted + existed == |CycleUpsert(facts, symbol, c)| && |table| == |old(table)| + inserted
    {
      var e := CycleEpisode(c, facts.hits);
      if Tainted(facts, symbol, e) {
        return 0, 0;
      }
      var u := UpsertOf(facts, symbol, e);
      assert [u][..0] == [];
      var isNew := Persist(u, now);
      inserted, existed := if isNew then 1 else 0, if isNew then 0 else 1;
    }

    method RecordSymbol(facts: Facts, symbol: string, now: int) returns (inserted: nat, existed: nat)
      modifies this
      ensures table == PersistedAll(old(table), UpsertsOf(facts, symbol, SymbolCycles(facts, symbol)), now)
      ensures inserted + existed == |UpsertsOf(facts, symbol, SymbolCycles(facts, symbol))|
      ensures |table| == |old(table)| + inserted
    {
      hide CycleUpsert;
      inserted, existed := 0, 0;
      var cycles := BuildCycles(symbol, CleanFills(facts, symbol));
      ghost var values := SymbolCycles(facts, symbol);
      for i := 0 to |cycles|
        invariant Values(cycles) == values
        invariant table == PersistedAll(old(table), UpsertsOf(facts, symbol, values[..i]), now)
        invariant inserted + existed == |UpsertsOf(facts, symbol, values[..i])|
        invariant |table| == |old(table)| + inserted
      {
        var c := cycles[i];
        var value := CycleValue(c.symbol, c.marketType, c.direction, c.entryFills, c.exitFills, c.openQty);
        assert value == values[i];
        UpsertsStep(facts, symbol, values, i);
        PersistAppend(old(table), UpsertsOf(facts, symbol, values[..i]), CycleUpsert(facts, symbol, value), now);
        var a, b := RecordCycle(facts, symbol, value, now);
        inserted, existed := inserted + a, existed + b;
      }
      assert values[..|values|] == values;
    }

    /** The backfill: every completed cycle of the given symbols, in order. */
    method RecordAllCycles(facts: Facts, symbols: seq<string>, now: int) returns (inserted: nat, existed: nat)
      modifies this
      ensures table == PersistedAll(old(table), Upserts(facts, symbols), now)
      ensures inserted + existed == |Upserts(facts, symbols)|
      ensures |table| == |old(table)| + inserted
    {
      inserted, existed := 0, 0;
      for i := 0 to |symbols|
        invariant table == PersistedAll(old(table), Upserts(facts, symbols[..i]), now)
        invariant inserted + existed == |Upserts(facts, symbols[..i])|
        invariant |table| == |old(table)| + inserted
      {
        assert symbols[..i + 1][..i] == symbols[..i];
        PersistAppend(old(table), Upserts(facts, symbols[..i]),
                      UpsertsOf(facts, symbols[i], SymbolCycles(facts, symbols[i])), now);
        var a, b := RecordSymbol(facts, symbols[i], now);
        inserted, existed := inserted + a, existed + b;
      }
      assert symbols[..|symbols|] == symbols;
    }
  }

  // ---------------------------------------------------------------- one key per cycle

  ghost predicate UniqueIds(fills: seq<Fill>) {
    forall i, j :: 0 <= i < j < |fills| ==> fills[i].fillId != fills[j].fillId
  }

  ghost predicate HasId(fills: seq<Fill>, id: string) {
    exists f :: f in fills && f.fillId == id
  }

  lemma {:induction false} OnlyIsUnique(symbol: string, fills: seq<Fill>)
    requires UniqueIds(fills)
    ensures UniqueIds(Only(symbol, fills))
  {
    if fills != [] {
      OnlyIsUnique(symbol, fills[1..]);
      forall f | f in Only(symbol, fills[1..])
        ensures f.fillId != fills[0].fillId
      {
        assert f in fills[1..];
      }
    }
  }

  lemma {:induction false} UnquarantinedIsUnique(fills: seq<Fill>, quarantined: set<string>)
    requires UniqueIds(fills)
    ensures UniqueIds(Unquarantined(fills, quarantined))
    ensures forall f :: f in Unquarantined(fills, quarantined) ==> f in fills && f.fillId !in quarantined
  {
    if fills != [] {
      UnquarantinedIsUnique(fills[1..], quarantined);
      forall f | f in Unquarantined(fills[1..], quarantined)
        ensures f.fillId != fills[0].fillId
      {
        assert f in fills[1..];
      }
    }
  }

  function FirstId(c: CycleValue): string
    requires c.Complete()
  {
    c.entryFills[0].fillId
  }

  lemma {:induction false} UniqueTail(head: seq<Fill>, rest: seq<Fill>)
    requires UniqueIds(head + rest)
    ensures UniqueIds(rest)
    ensures head != [] ==> forall f :: f in rest ==> f.fillId != head[0].fillId
  {
    var all := head + rest;
    forall i, j | 0 <= i < j < |rest|
      ensures rest[i].fillId != rest[j].fillId
    {
      assert all[|head| + i] == rest[i] && all[|head| + j] == rest[j];
    }
    forall f | head != [] && f in rest
      ensures f.fillId != head[0].fillId
    {
      var k :| 0 <= k < |rest| && rest[k] == f;
      assert all[0] == head[0] && all[|head| + k] == f;
    }
  }

  lemma {:induction false} CycleFirstId(symbol: string, seg: seq<Fill>)
    requires seg != [] && CycleOf(symbol, seg).Complete()
    ensures FirstId(CycleOf(symbol, seg)) == seg[0].fillId
  {
    FirstFillIsEntry(seg, |seg|);
  }

  ghost predicate IdsFrom(cycles: seq<CycleValue>, fills: seq<Fill>)
    requires AllComplete(cycles)
  {
    forall i :: 0 <= i < |cycles| ==> HasId(fills, FirstId(cycles[i]))
  }

  lemma {:induction false} IdsFromMore(cycles: seq<CycleValue>, head: seq<Fill>, rest: seq<Fill>)
    requires AllComplete(cycles) && IdsFrom(cycles, rest) && UniqueIds(head + rest)
    ensures IdsFrom(cycles, head + rest)
    ensures head != [] ==> forall i :: 0 <= i < |cycles| ==> FirstId(cycles[i]) != head[0].fillId
  {
    UniqueTail(head, rest);
    forall i | 0 <= i < |cycles|
      ensures HasId(head + rest, FirstId(cycles[i]))
      ensures head != [] ==> FirstId(cycles[i]) != head[0].fillId
    {
      assert HasId(rest, FirstId(cycles[i]));
      var f :| f in rest && f.fillId == FirstId(cycles[i]);
      assert f in head + rest;
    }
  }

  ghost predicate CyclesDiffer(cycles: seq<CycleValue>)
    requires AllComplete(cycles)
  {
    forall i, j :: 0 <= i < j < |cycles| ==> FirstId(cycles[i]) != FirstId(cycles[j])
  }

  lemma {:induction false} ConsDiffers(c: CycleValue, cycles: seq<CycleValue>, fills: seq<Fill>, first: Fill)
    requires c.Complete() && AllComplete(cycles) && IdsFrom(cycles, fills) && CyclesDiffer(cycles)
    requires FirstId(c) == first.fillId && first in fills
    requires forall i :: 0 <= i < |cycles| ==> FirstId(cycles[i]) != first.fillId
    ensures AllComplete([c] + cycles) && IdsFrom([c] + cycles, fills) && CyclesDiffer([c] + cycles)
  {
  }

  lemma {:induction false} FirstIdsDiffer(symbol: string, blocks: seq<Block>)
    requires UniqueIds(Flatten(blocks))
    ensures var cycles := CyclesOf(symbol, blocks);
            AllComplete(cycles) && IdsFrom(cycles, Flatten(blocks)) && CyclesDiffer(cycles)
  {
    hide CycleOf;
    hide HasId;
    if blocks != [] {
      var head := if blocks[0].Held? then blocks[0].fills else [blocks[0].fill];
      var rest := Flatten(blocks[1..]);
      assert Flatten(blocks) == head + rest;
      UniqueTail(head, rest);
      FirstIdsDiffer(symbol, blocks[1..]);
      IdsFromMore(CyclesOf(symbol, blocks[1..]), head, rest);
      if blocks[0].Held? && head != [] && CycleOf(symbol, head).Complete() {
        CycleFirstId(symbol, head);
        ConsDiffers(CycleOf(symbol, head), CyclesOf(symbol, blocks[1..]), head + rest, head[0]);
      }
    }
  }

  ghost predicate DistinctKeys(us: seq<Upsert>) {
    forall i, j :: 0 <= i < j < |us| ==> us[i].key != us[j].key
  }

  lemma {:induction false} SymbolCyclesDiffer(facts: Facts, symbol: string)
    requires UniqueIds(facts.fills)
    ensures CyclesDiffer(SymbolCycles(facts, symbol))
  {
    var fills := CleanFills(facts, symbol);
    OnlyIsUnique(symbol, facts.fills);
    UnquarantinedIsUnique(Only(symbol, facts.fills), facts.quarantined);
    ReplayIsSegmentation(symbol, fills);
    BlocksPartitionTheFills(fills);
    FirstIdsDiffer(symbol, Blocks(fills));
  }

  /** The upsert comes from one of the cycles. */
  ghost predicate ComesFrom(u: Upsert, cycles: seq<CycleValue>)
    requires AllComplete(cycles)
  {
    exists i :: 0 <= i < |cycles| && u.key == KeyOf(cycles[i])
  }

  lemma {:induction false} UpsertKey(facts: Facts, symbol: string, c: CycleValue)
    requires c.Complete()
    ensures var us := CycleUpsert(facts, symbol, c);
            |us| <= 1 && forall j :: 0 <= j < |us| ==> us[j].key == KeyOf(c)
  {
  }

  lemma {:induction false} KeyShowsFirstId(c: CycleValue)
    requires c.Complete()
    ensures KeyOf(c).entryFillIds != [] && KeyOf(c).entryFillIds[0] == FirstId(c) && KeyOf(c).symbol == c.symbol
  {
  }

  lemma {:induction false} UpsertsOfCycles(facts: Facts, symbol: string, cycles: seq<CycleValue>)
    requires AllComplete(cycles) && CyclesDiffer(cycles)
    requires forall i :: 0 <= i < |cycles| ==> cycles[i].symbol == symbol
    ensures var us := UpsertsOf(facts, symbol, cycles);
            && DistinctKeys(us)
            && (forall j :: 0 <= j < |us| ==> us[j].key.symbol == symbol && ComesFrom(us[j], cycles))
  {
    hide CycleUpsert;
    hide KeyOf;
    if cycles != [] {
      var n := |cycles| - 1;
      UpsertsOfCycles(facts, symbol, cycles[..n]);
      UpsertKey(facts, symbol, cycles[n]);
      KeyShowsFirstId(cycles[n]);
      var us := UpsertsOf(facts, symbol, cycles[..n]);
      forall j | 0 <= j < |us|
        ensures us[j].key.symbol == symbol && ComesFrom(us[j], cycles) && us[j].key != KeyOf(cycles[n])
      {
        assert ComesFrom(us[j], cycles[..n]);
        var i :| 0 <= i < n && us[j].key == KeyOf(cycles[..n][i]);
        KeyShowsFirstId(cycles[i]);
      }
      var added := CycleUpsert(facts, symbol, cycles[n]);
      forall j | 0 <= j < |added|
        ensures added[j].key.symbol == symbol && ComesFrom(added[j], cycles)
      {
        assert added[j].key == KeyOf(cycles[n]);
      }
    }
  }

  lemma {:induction false} ScanKeepsSymbol(symbol: string, s: Scan, fills: seq<Fill>)
    requires forall c :: c in s.Finish() ==> c.symbol == symbol
    requires s.current.Some? ==> s.current.value.symbol == symbol
    ensures forall c :: c in ScanFrom(symbol, s, fills).Finish() ==> c.symbol == symbol
    decreases fills
  {
    if fills != [] {
      ScanKeepsSymbol(symbol, ScanStep(symbol, s, fills[0]), fills[1..]);
    }
  }

  /** Fill ids are unique in the fills table, so every recorded cycle has its own key. */
  lemma {:induction false} KeysAreDistinct(facts: Facts, symbols: seq<string>)
    requires UniqueIds(facts.fills) && Distinct(symbols)
    ensures DistinctKeys(Upserts(facts, symbols))
    ensures forall u :: u in Upserts(facts, symbols) ==> u.key.symbol in symbols
  {
    if symbols != [] {
      var n := |symbols| - 1;
      KeysAreDistinct(facts, symbols[..n]);
      SymbolCyclesDiffer(facts, symbols[n]);
      ScanKeepsSymbol(symbols[n], START, CleanFills(facts, symbols[n]));
      UpsertsOfCycles(facts, symbols[n], SymbolCycles(facts, symbols[n]));
      assert symbols[n] !in symbols[..n];
    }
  }

  // ---------------------------------------------------------------- re-running

  ghost function KeySet(us: seq<Upsert>): set<EpisodeKey> {
    set u | u in us :: u.key
  }

  lemma {:induction false} KeySetSnoc(us: seq<Upsert>, u: Upsert)
    ensures KeySet(us + [u]) == KeySet(us) + {u.key}
  {
  }

  /** The row of an upsert's key after it is written once over `table`. */
  function RowAfter(table: Table, u: Upsert, now: int): Row {
    if u.key in table then table[u.key].(derived := u.derived) else Row(u.symbol, u.strategyId, now, u.derived)
  }

  lemma {:induction false} NoKeys()
    ensures KeySet([]) == {}
  {
  }

  lemma {:induction false} NewKey(us: seq<Upsert>, u: Upsert)
    requires forall i :: 0 <= i < |us| ==> us[i].key != u.key
    ensures u.key !in KeySet(us)
  {
  }

  /** What the table holds after writing upserts with distinct keys, whatever their order. */
  lemma {:induction false} PersistedTable(table: Table, us: seq<Upsert>, now: int)
    requires DistinctKeys(us)
    ensures var after := PersistedAll(table, us, now);
            && after.Keys == table.Keys + KeySet(us)
            && (forall i :: 0 <= i < |us| ==> us[i].key in after && after[us[i].key] == RowAfter(table, us[i], now))
            && (forall k :: k in table && k !in KeySet(us) ==> after[k] == table[k])
  {
    hide KeySet;
    if us == [] {
      NoKeys();
    } else {
      var n := |us| - 1;
      PersistedTable(table, us[..n], now);
      assert us == us[..n] + [us[n]];
      KeySetSnoc(us[..n], us[n]);
      forall i | 0 <= i < n
        ensures us[i].key != us[n].key && us[..n][i] == us[i]
      {
      }
      NewKey(us[..n], us[n]);
    }
  }

  /** Running the backfill again on unchanged facts inserts nothing and leaves the table as it was. */
  lemma {:induction false} RerunChangesNothing(table: Table, facts: Facts, symbols: seq<string>, now: int, later: int)
    requires UniqueIds(facts.fills) && Distinct(symbols)
    ensures var after := PersistedAll(table, Upserts(facts, symbols), now);
            PersistedAll(after, Upserts(facts, symbols), later) == after
  {
    KeysAreDistinct(facts, symbols);
    WritingAgain(table, Upserts(facts, symbols), now, later);
  }

  lemma {:induction false} WritingAgain(table: Table, us: seq<Upsert>, now: int, later: int)
    requires DistinctKeys(us)
    ensures var after := PersistedAll(table, us, now); PersistedAll(after, us, later) == after
  {
    var after := PersistedAll(table, us, now);
    var again := PersistedAll(after, us, later);
    PersistedTable(table, us, now);
    PersistedTable(after, us, later);
    assert again.Keys == after.Keys;
    forall k | k in again
      ensures again[k] == after[k]
    {
      if k in KeySet(us) {
        var i :| 0 <= i < |us| && us[i].key == k;
      }
    }
  }

  // ---------------------------------------------------------------- later fills

  lemma {:induction false} UnquarantinedAppend(a: seq<Fill>, b: seq<Fill>, quarantined: set<string>)
    ensures Unquarantined(a + b, quarantined) == Unquarantined(a, quarantined) + Unquarantined(b, quarantined)
  {
    if a == [] {
      assert a + b == b;
    } else {
      assert (a + b)[1..] == a[1..] + b;
      UnquarantinedAppend(a[1..], b, quarantined);
    }
  }

  function Later(facts: Facts, more: seq<Fill>): Facts {
    facts.(fills := facts.fills + more)
  }

  lemma {:induction false} OldCyclesStay(facts: Facts, more: seq<Fill>, symbol: string)
    ensures SymbolCycles(facts, symbol) <= SymbolCycles(Later(facts, more), symbol)
  {
    OnlyAppend(symbol, facts.fills, more);
    UnquarantinedAppend(Only(symbol, facts.fills), Only(symbol, more), facts.quarantined);
    CyclesArePrefixStable(symbol, CleanFills(facts, symbol), Unquarantined(Only(symbol, more), facts.quarantined));
  }

  /** The cycles of a symbol that only the later fills completed. */
  function NewCycles(facts: Facts, more: seq<Fill>, symbol: string): (cycles: seq<CycleValue>)
    ensures AllComplete(cycles)
  {
    OldCyclesStay(facts, more, symbol);
    SymbolCycles(Later(facts, more), symbol)[|SymbolCycles(facts, symbol)|..]
  }

  function NewUpserts(facts: Facts, more: seq<Fill>, symbols: seq<string>): seq<Upsert> {
    if symbols == [] then []
    else
      var n := |symbols| - 1;
      NewUpserts(facts, more, symbols[..n])
      + UpsertsOf(Later(facts, more), symbols[n], NewCycles(facts, more, symbols[n]))
  }

  lemma {:induction false} UpsertsOfAppend(facts: Facts, symbol: string, a: seq<CycleValue>, b: seq<CycleValue>)
    requires AllComplete(a) && AllComplete(b)
    ensures UpsertsOf(facts, symbol, a + b) == UpsertsOf(facts, symbol, a) + UpsertsOf(facts, symbol, b)
  {
    hide CycleUpsert;
    if b == [] {
      assert a + b == a;
    } else {
      var n := |b| - 1;
      assert (a + b)[..|a + b| - 1] == a + b[..n];
      UpsertsOfAppend(facts, symbol, a, b[..n]);
    }
  }

  lemma {:induction false} UpsertsIgnoreFills(facts: Facts, more: seq<Fill>, symbol: string, cycles: seq<CycleValue>)
    requires AllComplete(cycles)
    ensures UpsertsOf(Later(facts, more), symbol, cycles) == UpsertsOf(facts, symbol, cycles)
  {
    if cycles != [] {
      hide LeverageFor;
      hide Effective;
      UpsertsIgnoreFills(facts, more, symbol, cycles[..|cycles| - 1]);
    }
  }

  lemma {:induction false} SymbolLaterUpserts(facts: Facts, more: seq<Fill>, symbol: string)
    ensures UpsertsOf(Later(facts, more), symbol, SymbolCycles(Later(facts, more), symbol))
         == UpsertsOf(facts, symbol, SymbolCycles(facts, symbol)) + UpsertsOf(Later(facts, more), symbol, NewCycles(facts, more, symbol))
  {
    hide UpsertsOf;
    OldCyclesStay(facts, more, symbol);
    var kept, added := SymbolCycles(facts, symbol), NewCycles(facts, more, symbol);
    assert SymbolCycles(Later(facts, more), symbol) == kept + added;
    UpsertsOfAppend(Later(facts, more), symbol, kept, added);
    UpsertsIgnoreFills(facts, more, symbol, kept);
  }

  /** The later run writes the old rows and the new ones, and nothing else. */
  lemma {:induction false} LaterUpserts(facts: Facts, more: seq<Fill>, symbols: seq<string>)
    ensures multiset(Upserts(Later(facts, more), symbols))
         == multiset(Upserts(facts, symbols)) + multiset(NewUpserts(facts, more, symbols))
  {
    hide UpsertsOf;
    hide SymbolCycles;
    hide NewCycles;
    hide Later;
    if symbols != [] {
      LaterUpserts(facts, more, symbols[..|symbols| - 1]);
      SymbolLaterUpserts(facts, more, symbols[|symbols| - 1]);
    }
  }

  lemma {:induction false} TwiceCounted(us: seq<Upsert>, i: nat, j: nat)
    requires i < j < |us| && us[i] == us[j]
    ensures multiset(us)[us[i]] >= 2
  {
    assert us == us[..j] + [us[j]] + us[j + 1..];
    assert us[i] in us[..j];
  }

  lemma {:induction false} DisjointParts(all: seq<Upsert>, a: seq<Upsert>, b: seq<Upsert>)
    requires DistinctKeys(all) && multiset(all) == multiset(a) + multiset(b)
    ensures KeySet(a) !! KeySet(b) && KeySet(all) == KeySet(a) + KeySet(b)
    ensures DistinctKeys(b) && |KeySet(b)| == |b|
    ensures forall u :: u in all <==> u in a || u in b
  {
    forall u
      ensures u in all <==> u in a || u in b
      ensures multiset(a)[u] + multiset(b)[u] <= 1
    {
      assert u in multiset(all) <==> u in multiset(a) || u in multiset(b);
      AtMostOnce(all, u);
    }
    forall i, j | 0 <= i < j < |b|
      ensures b[i].key != b[j].key
    {
      if b[i] == b[j] {
        TwiceCounted(b, i, j);
        assert false;
      } else {
        KeysInjective(all, b[i], b[j]);
      }
    }
    forall u, v | u in a && v in b
      ensures u.key != v.key
    {
      assert u in multiset(a) && v in multiset(b);
      if u != v {
        KeysInjective(all, u, v);
      }
    }
    KeyCount(b);
  }

  lemma {:induction false} KeysInjective(us: seq<Upsert>, u: Upsert, v: Upsert)
    requires DistinctKeys(us) && u in us && v in us && u != v
    ensures u.key != v.key
  {
    var i :| 0 <= i < |us| && us[i] == u;
    var j :| 0 <= j < |us| && us[j] == v;
  }

  lemma {:induction false} AtMostOnce(us: seq<Upsert>, u: Upsert)
    requires DistinctKeys(us)
    ensures multiset(us)[u] <= 1
  {
    if us != [] {
      var n := |us| - 1;
      AtMostOnce(us[..n], u);
      assert us == us[..n] + [us[n]];
      if us[n] == u {
        assert u !in us[..n];
      }
    }
  }

  lemma {:induction false} KeyCount(us: seq<Upsert>)
    requires DistinctKeys(us)
    ensures |KeySet(us)| == |us|
  {
    if us != [] {
      var n := |us| - 1;
      KeyCount(us[..n]);
      assert us == us[..n] + [us[n]];
      assert KeySet(us) == KeySet(us[..n]) + {us[n].key};
    }
  }

  lemma {:induction false} PrefixIsUnique(a: seq<Fill>, b: seq<Fill>)
    requires UniqueIds(a + b)
    ensures UniqueIds(a)
  {
    forall i, j | 0 <= i < j < |a|
      ensures a[i].fillId != a[j].fillId
    {
      assert (a + b)[i] == a[i] && (a + b)[j] == a[j];
    }
  }

  // ---------------------------------------------------------------- a perpetual ledger that moved on

  /** The same facts with another perpetual ledger behind them. */
  function WithLedger(facts: Facts, hits: LedgerHits, leverage: map<string, real>): Facts {
    facts.(hits := hits, leverage := leverage)
  }

  ghost predicate SameKeys(a: seq<Upsert>, b: seq<Upsert>) {
    |a| == |b| && forall i :: 0 <= i < |a| ==> a[i].key == b[i].key
  }

  lemma {:induction false} CycleKeysIgnoreLedger(facts: Facts, hits: LedgerHits, leverage: map<string, real>, symbol: string, c: CycleValue)
    requires c.Complete()
    ensures SameKeys(CycleUpsert(WithLedger(facts, hits, leverage), symbol, c), CycleUpsert(facts, symbol, c))
  {
    hide GrossPnl;
    hide LeverageFor;
  }

  lemma {:induction false} KeysIgnoreLedger(facts: Facts, hits: LedgerHits, leverage: map<string, real>, symbol: string,
                                            cycles: seq<CycleValue>)
    requires AllComplete(cycles)
    ensures SameKeys(UpsertsOf(WithLedger(facts, hits, leverage), symbol, cycles), UpsertsOf(facts, symbol, cycles))
  {
    hide CycleUpsert;
    hide WithLedger;
    if cycles != [] {
      var n := |cycles| - 1;
      KeysIgnoreLedger(facts, hits, leverage, symbol, cycles[..n]);
      CycleKeysIgnoreLedger(facts, hits, leverage, symbol, cycles[n]);
    }
  }

  lemma {:induction false} CyclesIgnoreLedger(facts: Facts, hits: LedgerHits, leverage: map<string, real>, symbol: string)
    ensures SymbolCycles(WithLedger(facts, hits, leverage), symbol) == SymbolCycles(facts, symbol)
  {
  }

  /** Which episodes a run records does not depend on the perpetual ledger, only what it says of them. */
  lemma {:induction false} RunKeysIgnoreLedger(facts: Facts, hits: LedgerHits, leverage: map<string, real>, symbols: seq<string>)
    ensures SameKeys(Upserts(WithLedger(facts, hits, leverage), symbols), Upserts(facts, symbols))
  {
    hide UpsertsOf;
    hide WithLedger;
    if symbols != [] {
      var n := |symbols| - 1;
      RunKeysIgnoreLedger(facts, hits, leverage, symbols[..n]);
      CyclesIgnoreLedger(facts, hits, leverage, symbols[n]);
      KeysIgnoreLedger(facts, hits, leverage, symbols[n], SymbolCycles(facts, symbols[n]));
    }
  }

  lemma {:induction false} SameKeySets(a: seq<Upsert>, b: seq<Upsert>)
    requires SameKeys(a, b)
    ensures KeySet(a) == KeySet(b)
  {
    forall i | 0 <= i < |a|
      ensures a[i].key in KeySet(b) && b[i].key in KeySet(a)
    {
      assert a[i] in a && b[i] in b;
    }
    assert forall k :: k in KeySet(a) <==> exists i :: 0 <= i < |a| && a[i].key == k;
    assert forall k :: k in KeySet(b) <==> exists i :: 0 <= i < |b| && b[i].key == k;
  }

  /** The keys after two runs: the first wrote `us`, the second the same keys (`again`) and the `added` ones. */
  lemma {:induction false} WrittenKeys(table: Table, us: seq<Upsert>, again: seq<Upsert>, added: seq<Upsert>, all: seq<Upsert>,
                                       now: int, later: int)
    requires DistinctKeys(us) && DistinctKeys(all) && SameKeys(again, us)
    requires multiset(all) == multiset(again) + multiset(added)
    ensures var before := PersistedAll(table, us, now); var after := PersistedAll(before, all, later);
            && before.Keys == table.Keys + KeySet(us) && after.Keys == before.Keys + KeySet(added)
            && |KeySet(added)| == |added| && KeySet(added) !! KeySet(us) && KeySet(all) == KeySet(us) + KeySet(added)
            && forall u :: u in again || u in added ==> u in all
  {
    hide DistinctKeys;
    hide SameKeys;
    hide KeySet;
    hide PersistedAll;
    DisjointParts(all, again, added);
    SameKeySets(again, us);
    PersistedTable(table, us, now);
    PersistedTable(PersistedAll(table, us, now), all, later);
  }

  /** The row of every upsert of a run. */
  lemma {:induction false} WrittenRow(table: Table, us: seq<Upsert>, u: Upsert, now: int)
    requires DistinctKeys(us) && u in us
    ensures var after := PersistedAll(table, us, now); u.key in after && after[u.key] == RowAfter(table, u, now)
  {
    PersistedTable(table, us, now);
    var i :| 0 <= i < |us| && us[i] == u;
  }

  lemma {:induction false} UnwrittenRow(table: Table, us: seq<Upsert>, k: EpisodeKey, now: int)
    requires DistinctKeys(us) && k in table && k !in KeySet(us)
    ensures var after := PersistedAll(table, us, now); k in after && after[k] == table[k]
  {
    PersistedTable(table, us, now);
  }

  /** Writing an upsert twice, with others in between the runs, leaves the row of the first time. */
  lemma {:induction false} RewrittenRow(table: Table, us: seq<Upsert>, all: seq<Upsert>, k: EpisodeKey, now: int, later: int)
    requires DistinctKeys(us) && DistinctKeys(all) && k in KeySet(us) && forall u :: u in us ==> u in all
    ensures var before := PersistedAll(table, us, now); var after := PersistedAll(before, all, later);
            k in before && k in after && after[k] == before[k]
  {
    hide DistinctKeys;
    hide PersistedAll;
    var u :| u in us && u.key == k;
    WrittenRow(table, us, u, now);
    WrittenRow(PersistedAll(table, us, now), all, u, later);
  }

  ghost predicate UpToDate(after: Table, us: seq<Upsert>) {
    forall u :: u in us ==> u.key in after && after[u.key].derived == u.derived
  }

  ghost predicate CreatedAt(after: Table, keys: set<EpisodeKey>, at: int) {
    forall k :: k in keys ==> k in after && after[k].createdAt == at
  }

  ghost predicate SameRows(before: Table, after: Table, except: set<EpisodeKey>) {
    forall k :: k in before && k !in except ==> k in after && after[k] == before[k]
  }

  lemma {:induction false} RunIsUpToDate(table: Table, us: seq<Upsert>, now: int)
    requires DistinctKeys(us)
    ensures UpToDate(PersistedAll(table, us, now), us)
  {
    hide DistinctKeys;
    hide PersistedAll;
    forall u | u in us
      ensures var after := PersistedAll(table, us, now); u.key in after && after[u.key].derived == u.derived
    {
      WrittenRow(table, us, u, now);
    }
  }

  lemma {:induction false} NewRowsAreNew(table: Table, us: seq<Upsert>, keys: set<EpisodeKey>, now: int)
    requires DistinctKeys(us) && keys <= KeySet(us) && keys !! table.Keys
    ensures CreatedAt(PersistedAll(table, us, now), keys, now)
  {
    hide DistinctKeys;
    hide PersistedAll;
    forall k | k in keys
      ensures var after := PersistedAll(table, us, now); k in after && after[k].createdAt == now
    {
      var u :| u in us && u.key == k;
      WrittenRow(table, us, u, now);
    }
  }

  lemma {:induction false} OldRowsStay(table: Table, us: seq<Upsert>, added: set<EpisodeKey>, all: seq<Upsert>, now: int, later: int)
    requires DistinctKeys(us) && DistinctKeys(all) && KeySet(all) == KeySet(us) + added && forall u :: u in us ==> u in all
    ensures var before := PersistedAll(table, us, now); SameRows(before, PersistedAll(before, all, later), added)
  {
    hide DistinctKeys;
    hide PersistedAll;
    hide KeySet;
    var before := PersistedAll(table, us, now);
    var after := PersistedAll(before, all, later);
    forall k | k in before && k !in added
      ensures k in after && after[k] == before[k]
    {
      if k in KeySet(us) {
        RewrittenRow(table, us, all, k, now, later);
      } else {
        UnwrittenRow(before, all, k, later);
      }
    }
  }

  /** The rows after two runs. */
  lemma {:induction false} WritingMore(table: Table, us: seq<Upsert>, again: seq<Upsert>, added: seq<Upsert>, all: seq<Upsert>,
                                       now: int, later: int)
    requires DistinctKeys(us) && DistinctKeys(all) && SameKeys(again, us)
    requires multiset(all) == multiset(again) + multiset(added)
    ensures var before := PersistedAll(table, us, now); var after := PersistedAll(before, all, later);
            && Identified(before, after) && UpToDate(after, all)
            && after.Keys - before.Keys == KeySet(added) - table.Keys && |KeySet(added)| == |added|
            && CreatedAt(after, KeySet(added) - table.Keys, later)
            && (again == us ==> SameRows(before, after, KeySet(added)))
  {
    hide DistinctKeys;
    hide PersistedAll;
    hide KeySet;
    hide SameKeys;
    hide Identified;
    hide UpToDate;
    hide CreatedAt;
    hide SameRows;
    var before := PersistedAll(table, us, now);
    WrittenKeys(table, us, again, added, all, now, later);
    RunsKeepIdentities(before, all, later);
    RunIsUpToDate(before, all, later);
    NewRowsAreNew(before, all, KeySet(added) - table.Keys, later);
    if again == us {
      OldRowsStay(table, us, KeySet(added), all, now, later);
    }
  }

  /** After later fills, over a table with any history and a perpetual ledger that has moved on, a re-run keeps
      every id with all that identifies it, inserts exactly the untainted cycles that the later fills completed
      and that the table did not hold, each once, and brings every recorded episode up to date. If the perpetual
      ledger has not moved, every other row is as it was. */
  lemma {:induction false} LaterFillsOnlyAdd(table: Table, facts: Facts, more: seq<Fill>, hits: LedgerHits, leverage: map<string, real>,
                                             symbols: seq<string>, now: int, later: int)
    requires UniqueIds(facts.fills + more) && Distinct(symbols)
    ensures var moved := WithLedger(facts, hits, leverage);
            var all, added := Upserts(Later(moved, more), symbols), NewUpserts(moved, more, symbols);
            var before := PersistedAll(table, Upserts(facts, symbols), now);
            var after := PersistedAll(before, all, later);
            && Identified(before, after) && UpToDate(after, all)
            && after.Keys - before.Keys == KeySet(added) - table.Keys && |KeySet(added)| == |added|
            && CreatedAt(after, KeySet(added) - table.Keys, later)
            && (moved == facts ==> SameRows(before, after, KeySet(added)))
  {
    hide Upserts;
    hide NewUpserts;
    hide PersistedAll;
    hide DistinctKeys;
    hide SameKeys;
    var moved := WithLedger(facts, hits, leverage);
    var us, again := Upserts(facts, symbols), Upserts(moved, symbols);
    var added, all := NewUpserts(moved, more, symbols), Upserts(Later(moved, more), symbols);
    PrefixIsUnique(facts.fills, more);
    KeysAreDistinct(facts, symbols);
    KeysAreDistinct(Later(moved, more), symbols);
    RunKeysIgnoreLedger(facts, hits, leverage, symbols);
    LaterUpserts(moved, more, symbols);
    WritingMore(table, us, again, added, all, now, later);
  }

  // ---------------------------------------------------------------- quarantine

  ghost predicate Untouched(u: Upsert, quarantined: set<string>) {
    forall id :: id in quarantined ==> id !in u.key.entryFillIds && id !in u.key.exitFillIds
  }

  lemma {:induction false} UpsertsOfUntouched(facts: Facts, symbol: string, cycles: seq<CycleValue>)
    requires AllComplete(cycles)
    ensures forall u :: u in UpsertsOf(facts, symbol, cycles) ==> Untouched(u, facts.quarantined)
  {
    if cycles != [] {
      UpsertsOfUntouched(facts, symbol, cycles[..|cycles| - 1]);
    }
  }

  /** No run writes an episode that holds a fill quarantined at that run. */
  lemma {:induction false} QuarantinedFillsNeverEnter(facts: Facts, symbols: seq<string>)
    ensures forall u :: u in Upserts(facts, symbols) ==> Untouched(u, facts.quarantined)
  {
    if symbols != [] {
      var n := |symbols| - 1;
      QuarantinedFillsNeverEnter(facts, symbols[..n]);
      UpsertsOfUntouched(facts, symbols[n], SymbolCycles(facts, symbols[n]));
    }
  }
}
