/** What the learning table says after a run, read off the fills: which cycles are in it, and with which columns. */
module Recorded {
  import opened Fills
  import opened Cycles
  import opened Episodes
  import opened Agreement
  import opened Settlement
  import opened EpisodeStore

  // ---------------------------------------------------------------- which fills are replayed

  /** A run replays the fills of the symbol that are not quarantined, in order: an added fill comes last or not at all. */
  lemma {:induction false} CleanFillsSnoc(facts: Facts, symbol: string, f: Fill)
    ensures var kept := f.symbol == symbol && f.fillId !in facts.quarantined;
            CleanFills(Later(facts, [f]), symbol) == CleanFills(facts, symbol) + if kept then [f] else []
  {
    OnlyAppend(symbol, facts.fills, [f]);
    UnquarantinedAppend(Only(symbol, facts.fills), Only(symbol, [f]), facts.quarantined);
    assert Only(symbol, []) == [] && [f][1..] == [];
    assert Unquarantined([], facts.quarantined) == [];
  }

  // ---------------------------------------------------------------- which cycles are recorded

  predicate HoldsFill(c: CycleValue, id: string) {
    (exists f :: f in c.entryFills && f.fillId == id) || (exists f :: f in c.exitFills && f.fillId == id)
  }

  /** From its first entry to its last exit no moment of the symbol is quarantined, and neither is a fill of the cycle. */
  predicate Clean(facts: Facts, symbol: string, c: CycleValue)
    requires c.Complete()
  {
    && (forall id :: id in facts.quarantined ==> !HoldsFill(c, id))
    && (forall w :: w in facts.windows && w.0 == symbol ==>
          !(c.entryFills[0].timestamp.Some? && c.exitFills[|c.exitFills| - 1].timestamp.Some? && w.1.Some?
            && c.entryFills[0].timestamp.value <= w.1.value <= c.exitFills[|c.exitFills| - 1].timestamp.value))
  }

  /** The leverage of spot is one, that of a perpetual the latest the ledger opened it with, one if it knows none. */
  predicate LeverageOf(leverage: real, facts: Facts, symbol: string, market: MarketType) {
    && (market == SPOT ==> leverage == 1.0)
    && (market == PERPETUAL && symbol in facts.leverage && facts.leverage[symbol] > 0.0 ==> leverage == facts.leverage[symbol])
    && (market == PERPETUAL && (symbol in facts.leverage ==> facts.leverage[symbol] <= 0.0) ==> leverage == 1.0)
  }

  /** `d` holds the columns of an episode that tells of the cycle. */
  ghost predicate Holds(d: Derived, facts: Facts, symbol: string, c: CycleValue)
    requires c.Complete()
  {
    && LeverageOf(d.leverage, facts, symbol, c.marketType)
    && exists e: Episode :: Tells(e, c, facts.hits)
         && d == Derived(e.entryPrice, e.exitPrice, e.positionSize, e.holdingSeconds, e.grossPnl, e.fees, e.netPnl, e.verdict,
                         c.marketType, e.direction, d.leverage)
  }

  /** The upsert that records the cycle. */
  ghost predicate RecordOf(u: Upsert, facts: Facts, symbol: string, c: CycleValue)
    requires c.Complete()
  {
    && u.key == KeyOf(c) && u.symbol == c.symbol && u.strategyId == c.entryFills[0].strategyId
    && Holds(u.derived, facts, symbol, c)
  }

  lemma {:induction false} IdsOf(fills: seq<Fill>, id: string)
    ensures id in FillIds(fills) <==> exists f :: f in fills && f.fillId == id
  {
    if id in FillIds(fills) {
      var i :| 0 <= i < |fills| && FillIds(fills)[i] == id;
      assert fills[i] in fills;
    }
    if f :| f in fills && f.fillId == id {
      var i :| 0 <= i < |fills| && fills[i] == f;
      assert FillIds(fills)[i] == id;
    }
  }

  lemma {:induction false} CleanIffUntainted(facts: Facts, symbol: string, c: CycleValue)
    requires c.Complete()
    ensures Clean(facts, symbol, c) <==> !Tainted(facts, symbol, CycleEpisode(c, facts.hits))
  {
    hide GrossPnl;
    hide FillIds;
    forall id
      ensures HoldsFill(c, id) <==> id in FillIds(c.entryFills) || id in FillIds(c.exitFills)
    {
      IdsOf(c.entryFills, id);
      IdsOf(c.exitFills, id);
    }
  }

  lemma {:induction false} UpsertIsRecord(facts: Facts, symbol: string, c: CycleValue)
    requires c.Complete()
    ensures RecordOf(UpsertOf(facts, symbol, CycleEpisode(c, facts.hits)), facts, symbol, c)
  {
    hide Tells;
    hide GrossPnl;
    ColumnsOfCycle(c, facts.hits);
    var e := CycleEpisode(c, facts.hits);
    var d := UpsertOf(facts, symbol, e).derived;
    assert e.direction == c.direction && e.key.marketType == c.marketType;
    assert LeverageOf(d.leverage, facts, symbol, c.marketType);
  }

  /** A complete cycle is recorded by one upsert when it is clean, and by none otherwise. */
  lemma {:induction false} CycleUpsertIff(facts: Facts, symbol: string, c: CycleValue)
    requires c.Complete()
    ensures var us := CycleUpsert(facts, symbol, c);
            if Clean(facts, symbol, c) then |us| == 1 && RecordOf(us[0], facts, symbol, c) else us == []
  {
    hide RecordOf;
    hide Clean;
    hide Tainted;
    hide UpsertOf;
    hide CycleEpisode;
    CleanIffUntainted(facts, symbol, c);
    UpsertIsRecord(facts, symbol, c);
  }

  /** `u` records a clean cycle of the symbol. */
  ghost predicate RecordsOne(u: Upsert, facts: Facts, symbol: string, cycles: seq<CycleValue>)
    requires AllComplete(cycles)
  {
    exists i :: 0 <= i < |cycles| && Clean(facts, symbol, cycles[i]) && RecordOf(u, facts, symbol, cycles[i])
  }

  ghost predicate IsRecorded(c: CycleValue, facts: Facts, symbol: string, us: seq<Upsert>)
    requires c.Complete()
  {
    exists u :: u in us && RecordOf(u, facts, symbol, c)
  }

  lemma {:induction false} RecordsMore(u: Upsert, facts: Facts, symbol: string, a: seq<CycleValue>, b: seq<CycleValue>)
    requires AllComplete(b) && a <= b && RecordsOne(u, facts, symbol, a)
    ensures RecordsOne(u, facts, symbol, b)
  {
    hide Clean;
    hide RecordOf;
    var i :| 0 <= i < |a| && Clean(facts, symbol, a[i]) && RecordOf(u, facts, symbol, a[i]);
    assert b[i] == a[i];
  }

  lemma {:induction false} RecordsOfSymbol(facts: Facts, symbol: string, cycles: seq<CycleValue>)
    requires AllComplete(cycles)
    ensures forall u :: u in UpsertsOf(facts, symbol, cycles) ==> RecordsOne(u, facts, symbol, cycles)
    ensures forall i :: 0 <= i < |cycles| && Clean(facts, symbol, cycles[i]) ==>
              IsRecorded(cycles[i], facts, symbol, UpsertsOf(facts, symbol, cycles))
  {
    hide Clean;
    hide RecordOf;
    hide RecordsOne;
    hide IsRecorded;
    hide CycleUpsert;
    if cycles != [] {
      var n := |cycles| - 1;
      var before, all, added := UpsertsOf(facts, symbol, cycles[..n]), UpsertsOf(facts, symbol, cycles), CycleUpsert(facts, symbol, cycles[n]);
      RecordsOfSymbol(facts, symbol, cycles[..n]);
      CycleUpsertIff(facts, symbol, cycles[n]);
      assert all == before + added;
      forall u | u in all
        ensures RecordsOne(u, facts, symbol, cycles)
      {
        if u in before {
          RecordsMore(u, facts, symbol, cycles[..n], cycles);
        } else {
          LastRecords(u, facts, symbol, cycles);
        }
      }
      forall i | 0 <= i < |cycles| && Clean(facts, symbol, cycles[i])
        ensures IsRecorded(cycles[i], facts, symbol, all)
      {
        if i < n {
          assert cycles[..n][i] == cycles[i];
          RecordedInMore(cycles[i], facts, symbol, before, all);
        } else {
          RecordedBy(added[0], cycles[n], facts, symbol, all);
        }
      }
    }
  }

  lemma {:induction false} LastRecords(u: Upsert, facts: Facts, symbol: string, cycles: seq<CycleValue>)
    requires cycles != [] && AllComplete(cycles)
    requires Clean(facts, symbol, cycles[|cycles| - 1]) && RecordOf(u, facts, symbol, cycles[|cycles| - 1])
    ensures RecordsOne(u, facts, symbol, cycles)
  {
  }

  lemma {:induction false} RecordedBy(u: Upsert, c: CycleValue, facts: Facts, symbol: string, us: seq<Upsert>)
    requires c.Complete() && u in us && RecordOf(u, facts, symbol, c)
    ensures IsRecorded(c, facts, symbol, us)
  {
  }

  lemma {:induction false} RecordedInMore(c: CycleValue, facts: Facts, symbol: string, a: seq<Upsert>, b: seq<Upsert>)
    requires c.Complete() && IsRecorded(c, facts, symbol, a) && forall u :: u in a ==> u in b
    ensures IsRecorded(c, facts, symbol, b)
  {
    hide RecordOf;
    var u :| u in a && RecordOf(u, facts, symbol, c);
    assert u in b;
  }

  /** The upsert records a clean cycle of one of the symbols. */
  ghost predicate RecordsAny(u: Upsert, facts: Facts, symbols: seq<string>) {
    exists k :: 0 <= k < |symbols| && RecordsOne(u, facts, symbols[k], SymbolCycles(facts, symbols[k]))
  }

  /** A run writes one row for every clean cycle of the symbols, and no other row. */
  lemma {:induction false} RunRecordsTheCleanCycles(facts: Facts, symbols: seq<string>)
    ensures forall u :: u in Upserts(facts, symbols) ==> RecordsAny(u, facts, symbols)
    ensures forall symbol, c :: symbol in symbols && c in SymbolCycles(facts, symbol) && Clean(facts, symbol, c) ==>
              IsRecorded(c, facts, symbol, Upserts(facts, symbols))
  {
    hide Clean;
    hide RecordOf;
    hide RecordsOne;
    hide IsRecorded;
    hide SymbolCycles;
    hide UpsertsOf;
    if symbols != [] {
      var n := |symbols| - 1;
      var last := symbols[n];
      RunRecordsTheCleanCycles(facts, symbols[..n]);
      RecordsOfSymbol(facts, last, SymbolCycles(facts, last));
      var before, all := Upserts(facts, symbols[..n]), Upserts(facts, symbols);
      forall u | u in all
        ensures RecordsAny(u, facts, symbols)
      {
        if u in before {
          var k :| 0 <= k < n && RecordsOne(u, facts, symbols[..n][k], SymbolCycles(facts, symbols[..n][k]));
          assert symbols[k] == symbols[..n][k];
        }
      }
      forall symbol, c | symbol in symbols && c in SymbolCycles(facts, symbol) && Clean(facts, symbol, c)
        ensures IsRecorded(c, facts, symbol, all)
      {
        if symbol == last {
          RecordedInMore(c, facts, symbol, UpsertsOf(facts, last, SymbolCycles(facts, last)), all);
        } else {
          assert symbol in symbols[..n];
          RecordedInMore(c, facts, symbol, before, all);
        }
      }
    }
  }

  // ---------------------------------------------------------------- what the table says

  /** The row of a recorded cycle: the columns the run wrote, and for a cycle the table did not hold before,
      the symbol, strategy and time of the run. */
  ghost predicate RowTells(before: Table, after: Table, facts: Facts, symbol: string, c: CycleValue, now: int)
    requires c.Complete()
  {
    && KeyOf(c) in after && Holds(after[KeyOf(c)].derived, facts, symbol, c)
    && (KeyOf(c) !in before ==>
          && after[KeyOf(c)].symbol == c.symbol && after[KeyOf(c)].createdAt == now
          && after[KeyOf(c)].strategyId == c.entryFills[0].strategyId)
  }

  /** Nothing was written for the cycle. */
  ghost predicate RowStays(before: Table, after: Table, c: CycleValue) {
    (KeyOf(c) in after <==> KeyOf(c) in before) && (KeyOf(c) in before ==> after[KeyOf(c)] == before[KeyOf(c)])
  }

  lemma {:induction false} CycleIsNamed(facts: Facts, symbol: string, c: CycleValue)
    requires c in SymbolCycles(facts, symbol)
    ensures c.symbol == symbol
  {
    ScanKeepsSymbol(symbol, START, CleanFills(facts, symbol));
  }

  lemma {:induction false} KeyNamesTheCycle(facts: Facts, s: string, c: CycleValue, t: string, d: CycleValue)
    requires UniqueIds(facts.fills) && c in SymbolCycles(facts, s) && d in SymbolCycles(facts, t) && KeyOf(c) == KeyOf(d)
    ensures s == t && c == d
  {
    hide SymbolCycles;
    hide KeyOf;
    CycleIsNamed(facts, s, c);
    CycleIsNamed(facts, t, d);
    KeyShowsFirstId(c);
    KeyShowsFirstId(d);
    SymbolCyclesDiffer(facts, s);
  }

  lemma {:induction false} TaintedIsNotWritten(facts: Facts, symbols: seq<string>, symbol: string, c: CycleValue)
    requires UniqueIds(facts.fills) && symbol in symbols && c in SymbolCycles(facts, symbol) && !Clean(facts, symbol, c)
    ensures KeyOf(c) !in KeySet(Upserts(facts, symbols))
  {
    hide Clean;
    hide SymbolCycles;
    hide Holds;
    hide KeyOf;
    RunRecordsTheCleanCycles(facts, symbols);
    if u :| u in Upserts(facts, symbols) && u.key == KeyOf(c) {
      assert RecordsAny(u, facts, symbols);
      var k :| 0 <= k < |symbols| && RecordsOne(u, facts, symbols[k], SymbolCycles(facts, symbols[k]));
      var cycles := SymbolCycles(facts, symbols[k]);
      var i :| 0 <= i < |cycles| && Clean(facts, symbols[k], cycles[i]) && RecordOf(u, facts, symbols[k], cycles[i]);
      KeyNamesTheCycle(facts, symbol, c, symbols[k], cycles[i]);
      assert false;
    }
  }

  lemma {:induction false} CleanRow(table: Table, facts: Facts, symbols: seq<string>, symbol: string, c: CycleValue, now: int)
    requires UniqueIds(facts.fills) && Distinct(symbols)
    requires symbol in symbols && c in SymbolCycles(facts, symbol) && Clean(facts, symbol, c)
    ensures RowTells(table, PersistedAll(table, Upserts(facts, symbols), now), facts, symbol, c, now)
  {
    hide Clean;
    hide SymbolCycles;
    hide Holds;
    hide KeyOf;
    hide PersistedAll;
    hide Upserts;
    hide DistinctKeys;
    KeysAreDistinct(facts, symbols);
    RunRecordsTheCleanCycles(facts, symbols);
    assert IsRecorded(c, facts, symbol, Upserts(facts, symbols));
    var u :| u in Upserts(facts, symbols) && RecordOf(u, facts, symbol, c);
    WrittenRow(table, Upserts(facts, symbols), u, now);
  }

  lemma {:induction false} TaintedRow(table: Table, facts: Facts, symbols: seq<string>, symbol: string, c: CycleValue, now: int)
    requires UniqueIds(facts.fills) && Distinct(symbols)
    requires symbol in symbols && c in SymbolCycles(facts, symbol) && !Clean(facts, symbol, c)
    ensures RowStays(table, PersistedAll(table, Upserts(facts, symbols), now), c)
  {
    hide Clean;
    hide SymbolCycles;
    hide KeyOf;
    hide PersistedAll;
    hide Upserts;
    hide DistinctKeys;
    hide KeySet;
    KeysAreDistinct(facts, symbols);
    TaintedIsNotWritten(facts, symbols, symbol, c);
    PersistedTable(table, Upserts(facts, symbols), now);
  }

  /** After a backfill over any table, every clean cycle of the symbols has its row, with the columns its fills and
      the perpetual ledger imply, and for every other cycle the table says what it said before. */
  lemma {:induction false} TableTellsTheCleanCycles(table: Table, facts: Facts, symbols: seq<string>, now: int)
    requires UniqueIds(facts.fills) && Distinct(symbols)
    ensures var after := PersistedAll(table, Upserts(facts, symbols), now);
            forall symbol, c :: symbol in symbols && c in SymbolCycles(facts, symbol) ==>
              if Clean(facts, symbol, c) then RowTells(table, after, facts, symbol, c, now) else RowStays(table, after, c)
  {
    hide Clean;
    hide RowTells;
    hide RowStays;
    hide PersistedAll;
    hide Upserts;
    hide SymbolCycles;
    forall symbol, c | symbol in symbols && c in SymbolCycles(facts, symbol)
      ensures var after := PersistedAll(table, Upserts(facts, symbols), now);
              if Clean(facts, symbol, c) then RowTells(table, after, facts, symbol, c, now) else RowStays(table, after, c)
    {
      if Clean(facts, symbol, c) {
        CleanRow(table, facts, symbols, symbol, c, now);
      } else {
        TaintedRow(table, facts, symbols, symbol, c, now);
      }
    }
  }

  /** The row of a proper flat stretch whose exits the perpetual ledger does not know: its net PnL is the cash of
      its fills less their fees, and its verdict the sign of that. */
  lemma {:induction false} RowEarnsTheCash(d: Derived, facts: Facts, symbol: string, seg: seq<Fill>)
    requires Stretch(seg) && Positive(seg) && NetQuantity(seg) == 0.0 && Proper(seg)
    requires var c := CycleOf(symbol, seg); c.Complete() && NoneKnown(c.exitFills, facts.hits) && Holds(d, facts, symbol, c)
    ensures d.netPnl == NetCash(seg) - Total(FEES, seg) && VerdictSays(d.verdict, d.netPnl)
  {
    hide CycleOf;
    hide IsAverage;
    hide NoneKnown;
    hide VerdictSays;
    var c := CycleOf(symbol, seg);
    var e: Episode :| Tells(e, c, facts.hits)
      && d == Derived(e.entryPrice, e.exitPrice, e.positionSize, e.holdingSeconds, e.grossPnl, e.fees, e.netPnl, e.verdict,
                      c.marketType, e.direction, d.leverage);
    ColumnsOfCycle(c, facts.hits);
    SamePnl(e, CycleEpisode(c, facts.hits), c, facts.hits);
    VerdictFollowsTheCash(symbol, seg, facts.hits);
  }

  lemma {:induction false} SamePrice(a: real, b: real, fills: seq<Fill>)
    requires IsAverage(a, fills) && IsAverage(b, fills)
    ensures a == b
  {
    var q := Total(QUANTITY, fills);
    if q != 0.0 {
      assert a == a * q / q && b == b * q / q;
    }
  }

  /** The columns of a cycle are determined by its fills. */
  lemma {:induction false} SamePnl(a: Episode, b: Episode, c: CycleValue, hits: LedgerHits)
    requires c.Complete() && Tells(a, c, hits) && Tells(b, c, hits) && NoneKnown(c.exitFills, hits)
    ensures a.netPnl == b.netPnl && a.grossPnl == b.grossPnl
  {
    hide IsAverage;
    hide VerdictSays;
    SamePrice(a.entryPrice, b.entryPrice, c.entryFills);
    SamePrice(a.exitPrice, b.exitPrice, c.exitFills);
  }

  lemma {:induction false} FlatAreStretches(blocks: seq<Block>, j: nat)
    requires Segmented(blocks) && Positive(Flatten(blocks)) && j < |FlatStretches(blocks)|
    ensures var seg := FlatStretches(blocks)[j]; Stretch(seg) && Positive(seg) && NetQuantity(seg) == 0.0
  {
    var head := if blocks[0].Held? then blocks[0].fills else [blocks[0].fill];
    var rest := Flatten(blocks[1..]);
    assert Flatten(blocks) == head + rest;
    assert forall i :: 0 <= i < |head| ==> Flatten(blocks)[i] == head[i];
    assert forall i :: 0 <= i < |rest| ==> Flatten(blocks)[|head| + i] == rest[i];
    if blocks[0].Held? && NetQuantity(blocks[0].fills) == 0.0 {
      if j > 0 {
        FlatAreStretches(blocks[1..], j - 1);
      }
    } else {
      FlatAreStretches(blocks[1..], j);
    }
  }

  /** After a backfill the table reports, for every flat stretch of a symbol that is proper, clean and unknown to the
      perpetual ledger, exactly the cash of its fills less their fees, and the verdict that goes with it. */
  lemma {:induction false} TableEarnsTheCash(table: Table, facts: Facts, symbols: seq<string>, symbol: string, j: nat, now: int)
    requires UniqueIds(facts.fills) && Distinct(symbols) && symbol in symbols && Positive(CleanFills(facts, symbol))
    requires var flat, cycles := FlatStretches(Blocks(CleanFills(facts, symbol))), SymbolCycles(facts, symbol);
             && j < |flat| && j < |cycles| && Proper(flat[j]) && Clean(facts, symbol, cycles[j])
             && NoneKnown(cycles[j].exitFills, facts.hits)
    ensures var seg := FlatStretches(Blocks(CleanFills(facts, symbol)))[j];
            var key := KeyOf(SymbolCycles(facts, symbol)[j]);
            var after := PersistedAll(table, Upserts(facts, symbols), now);
            && key in after && after[key].derived.netPnl == NetCash(seg) - Total(FEES, seg)
            && VerdictSays(after[key].derived.verdict, NetCash(seg) - Total(FEES, seg))
  {
    hide Clean;
    hide Holds;
    hide PersistedAll;
    hide Upserts;
    hide KeyOf;
    hide CleanFills;
    hide CycleOf;
    hide VerdictSays;
    hide NoneKnown;
    hide Proper;
    hide Stretch;
    hide Leg;
    var fills := CleanFills(facts, symbol);
    var c := SymbolCycles(facts, symbol)[j];
    BlocksPartitionTheFills(fills);
    CyclesAreTheFlatStretches(symbol, fills);
    FlatAreStretches(Blocks(fills), j);
    CleanRow(table, facts, symbols, symbol, c, now);
    RowEarnsTheCash(PersistedAll(table, Upserts(facts, symbols), now)[KeyOf(c)].derived, facts, symbol, FlatStretches(Blocks(fills))[j]);
  }
}
