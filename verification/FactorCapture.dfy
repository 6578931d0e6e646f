/** Capturing the factors group by group, and turning the results into a snapshot that accounts for all of them. */
module FactorCapture {
  import opened Wrappers
  import opened FactorProfiles

  datatype FactorResult = FactorResult(name: string, value: Option<real>, confidence: Option<real>, channelStatus: string)

  /** What one group's calculator did: the results it appended, and the exception if it raised midway. */
  datatype GroupRun = GroupRun(results: seq<FactorResult>, raised: Option<string>)

  /** An insertion-ordered dictionary of factor id to error detail. */
  type Errors = seq<(string, string)>

  const FACTOR_GROUPS: seq<seq<string>> := [
    ["return", "momentum", "trend", "breakout", "mean_reversion"],
    ["volume_change", "volume_anomaly", "volume_divergence"],
    ["atr", "realized_volatility", "volatility_regime"],
    ["orderbook_imbalance", "buy_sell_imbalance", "cvd", "aggressive_trading_ratio"],
    ["funding_rate", "funding_change", "open_interest", "oi_divergence", "liquidation_pressure"]]

  function Concat(groups: seq<seq<string>>): seq<string> {
    if groups == [] then [] else Concat(groups[..|groups| - 1]) + groups[|groups| - 1]
  }

  function Names(results: seq<FactorResult>): (r: seq<string>)
    ensures |r| == |results|
  {
    seq(|results|, i requires 0 <= i < |results| => results[i].name)
  }

  function Ids(errors: Errors): (r: seq<string>)
    ensures |r| == |errors|
  {
    seq(|errors|, i requires 0 <= i < |errors| => errors[i].0)
  }

  // ---------------------------------------------------------------- capture

  function GroupErrors(group: seq<string>, detail: string): Errors {
    seq(|group|, i requires 0 <= i < |group| => (group[i], detail))
  }

  function AllResults(runs: seq<GroupRun>): seq<FactorResult> {
    if runs == [] then [] else AllResults(runs[..|runs| - 1]) + runs[|runs| - 1].results
  }

  function AllErrors(groups: seq<seq<string>>, runs: seq<GroupRun>): Errors
    requires |groups| == |runs|
  {
    if runs == [] then []
    else
      var n := |runs| - 1;
      AllErrors(groups[..n], runs[..n]) + if runs[n].raised.Some? then GroupErrors(groups[n], runs[n].raised.value) else []
  }

  class FactorCaptureEngine {
    var lastCalculationErrors: Errors

    constructor ()
      ensures lastCalculationErrors == []
    {
      lastCalculationErrors := [];
    }

    /** Runs the groups in order; a group that raises is charged to all of its factors, keeping what it appended. */
    method Capture(groups: seq<seq<string>>, runs: seq<GroupRun>) returns (results: seq<FactorResult>)
      requires |groups| == |runs|
      modifies this
      ensures results == AllResults(runs) && lastCalculationErrors == AllErrors(groups, runs)
    {
      results := [];
      var errors: Errors := [];
      for i := 0 to |runs|
        invariant results == AllResults(runs[..i]) && errors == AllErrors(groups[..i], runs[..i])
      {
        assert runs[..i + 1][..i] == runs[..i] && groups[..i + 1][..i] == groups[..i];
        results := results + runs[i].results;
        if runs[i].raised.Some? {
          errors := errors + GroupErrors(groups[i], runs[i].raised.value);
        } else {
          assert errors + [] == errors;
        }
      }
      assert runs[..|runs|] == runs && groups[..|groups|] == groups;
      lastCalculationErrors := errors;
    }
  }

  // ---------------------------------------------------------------- health of one result

  datatype Health = Health(state: string, detail: string)

  function Assess(r: FactorResult): (h: Health)
    ensures h.state in USABLE_STATES || h.state in UNUSABLE_STATES
  {
    if r.channelStatus == "NO_BOOK" || r.channelStatus == "NO_TRADES" then Health(MISSING_DATA, r.channelStatus)
    else if r.value.None? then Health(CALCULATION_FAILED, "NULL_VALUE")
    else if r.confidence.None? then Health(MISSING_DATA, "CONFIDENCE_MISSING")
    else if r.confidence.value <= 0.0 then
      Health(MISSING_DATA, "LEGACY_CONFIDENCE_0" + if r.channelStatus != "" then ":" + r.channelStatus else "")
    else if r.value.value == 0.0 then Health(VALID_ZERO, "")
    else Health(OK_STATE, "")
  }

  predicate IsUsable(r: FactorResult) {
    Assess(r).state in USABLE_STATES
  }

  // ---------------------------------------------------------------- the snapshot

  /** A failed factor with the state that is printed for it. */
  datatype Failure = Failure(name: string, state: string, detail: Option<string>)

  function Printed(f: Failure): string {
    f.name + ":" + f.state + if f.detail.Some? then ":" + f.detail.value else ""
  }

  function FailedNames(fs: seq<Failure>): (r: seq<string>)
    ensures |r| == |fs|
  {
    seq(|fs|, i requires 0 <= i < |fs| => fs[i].name)
  }

  function Warnings(fs: seq<Failure>): (r: seq<string>)
    ensures |r| == |fs|
  {
    seq(|fs|, i requires 0 <= i < |fs| => Printed(fs[i]))
  }

  function UsableEntries(results: seq<FactorResult>): seq<Entry> {
    if results == [] then []
    else
      var r := results[|results| - 1];
      UsableEntries(results[..|results| - 1]) + if IsUsable(r) then [Entry(r.name, Assess(r).state)] else []
  }

  function ResultFailures(results: seq<FactorResult>): seq<Failure> {
    if results == [] then []
    else
      var r := results[|results| - 1];
      var h := Assess(r);
      ResultFailures(results[..|results| - 1])
      + if IsUsable(r) then [] else [Failure(r.name, h.state, if h.detail == "" then None else Some(h.detail))]
  }

  function MissingFailures(expected: seq<string>, produced: seq<string>, errors: Errors): seq<Failure> {
    if expected == [] then []
    else
      var id := expected[|expected| - 1];
      MissingFailures(expected[..|expected| - 1], produced, errors)
      + if id in produced || id in Ids(errors) then [] else [Failure(id, INSUFFICIENT_HISTORY, None)]
  }

  function ErrorFailures(errors: Errors, produced: seq<string>): seq<Failure> {
    if errors == [] then []
    else
      var e := errors[|errors| - 1];
      ErrorFailures(errors[..|errors| - 1], produced)
      + if e.0 in produced then [] else [Failure(e.0, CALCULATION_FAILED, Some(e.1))]
  }

  function Failures(expected: seq<string>, results: seq<FactorResult>, errors: Errors): seq<Failure> {
    ResultFailures(results) + MissingFailures(expected, Names(results), errors) + ErrorFailures(errors, Names(results))
  }

  function SnapshotOf(expected: seq<string>, results: seq<FactorResult>, errors: Errors): Snapshot {
    var fs := Failures(expected, results, errors);
    Snapshot(UsableEntries(results), FailedNames(fs), Warnings(fs))
  }

  lemma {:induction false} FailureSnoc(fs: seq<Failure>, f: Failure)
    ensures FailedNames(fs + [f]) == FailedNames(fs) + [f.name]
    ensures Warnings(fs + [f]) == Warnings(fs) + [Printed(f)]
  {
  }

  lemma {:induction false} FailureJoin(a: seq<Failure>, b: seq<Failure>, c: seq<Failure>)
    ensures FailedNames(a + b + c) == FailedNames(a) + FailedNames(b) + FailedNames(c)
    ensures Warnings(a + b + c) == Warnings(a) + Warnings(b) + Warnings(c)
  {
  }

  /** The results kept for later lookups; a later result for the same factor wins. */
  function LastResults(results: seq<FactorResult>): map<string, FactorResult> {
    if results == [] then map[]
    else LastResults(results[..|results| - 1])[results[|results| - 1].name := results[|results| - 1]]
  }

  /** What a snapshot says when the capture itself raised: every expected factor failed, for the same reason. */
  function TotalFailures(expected: seq<string>, detail: string): (r: seq<Failure>)
    ensures |r| == |expected|
  {
    seq(|expected|, i requires 0 <= i < |expected| => Failure(expected[i], CALCULATION_FAILED, Some(detail)))
  }

  class FactorToolGateway {
    const engine: FactorCaptureEngine
    /** The factors of the active factor set, which need not be all the expected ones. */
    const included: seq<string>
    var lastResults: map<string, FactorResult>

    constructor (engine: FactorCaptureEngine, included: seq<string>)
      ensures this.engine == engine && this.included == included && lastResults == map[]
    {
      this.engine, this.included, lastResults := engine, included, map[];
    }

    /** Results become entries, or failures with a warning. */
    static method ReportResults(results: seq<FactorResult>)
      returns (entries: seq<Entry>, failed: seq<string>, warnings: seq<string>)
      ensures entries == UsableEntries(results)
      ensures failed == FailedNames(ResultFailures(results)) && warnings == Warnings(ResultFailures(results))
    {
      entries, failed, warnings := [], [], [];
      for i := 0 to |results|
        invariant entries == UsableEntries(results[..i])
        invariant failed == FailedNames(ResultFailures(results[..i]))
        invariant warnings == Warnings(ResultFailures(results[..i]))
      {
        var r, h := results[i], Assess(results[i]);
        assert results[..i + 1][..i] == results[..i];
        ghost var before := ResultFailures(results[..i]);
        if h.state in USABLE_STATES {
          assert before + [] == before;
          entries := entries + [Entry(r.name, h.state)];
        } else {
          assert entries + [] == entries;
          var f := Failure(r.name, h.state, if h.detail == "" then None else Some(h.detail));
          FailureSnoc(before, f);
          failed, warnings := failed + [f.name], warnings + [Printed(f)];
        }
      }
      assert results[..|results|] == results;
    }

    /** Expected factors that nothing produced and no error explains. */
    static method ReportMissing(expected: seq<string>, produced: seq<string>, errors: Errors)
      returns (failed: seq<string>, warnings: seq<string>)
      ensures failed == FailedNames(MissingFailures(expected, produced, errors))
      ensures warnings == Warnings(MissingFailures(expected, produced, errors))
    {
      failed, warnings := [], [];
      for i := 0 to |expected|
        invariant failed == FailedNames(MissingFailures(expected[..i], produced, errors))
        invariant warnings == Warnings(MissingFailures(expected[..i], produced, errors))
      {
        assert expected[..i + 1][..i] == expected[..i];
        ghost var before := MissingFailures(expected[..i], produced, errors);
        if expected[i] in produced || expected[i] in Ids(errors) {
          assert before + [] == before;
        } else {
          var f := Failure(expected[i], INSUFFICIENT_HISTORY, None);
          FailureSnoc(before, f);
          failed, warnings := failed + [f.name], warnings + [Printed(f)];
        }
      }
      assert expected[..|expected|] == expected;
    }

    /** Factors of a group that raised before producing them. */
    static method ReportErrors(errors: Errors, produced: seq<string>)
      returns (failed: seq<string>, warnings: seq<string>)
      ensures failed == FailedNames(ErrorFailures(errors, produced))
      ensures warnings == Warnings(ErrorFailures(errors, produced))
    {
      failed, warnings := [], [];
      for i := 0 to |errors|
        invariant failed == FailedNames(ErrorFailures(errors[..i], produced))
        invariant warnings == Warnings(ErrorFailures(errors[..i], produced))
      {
        assert errors[..i + 1][..i] == errors[..i];
        ghost var before := ErrorFailures(errors[..i], produced);
        if errors[i].0 in produced {
          assert before + [] == before;
        } else {
          var f := Failure(errors[i].0, CALCULATION_FAILED, Some(errors[i].1));
          FailureSnoc(before, f);
          failed, warnings := failed + [f.name], warnings + [Printed(f)];
        }
      }
      assert errors[..|errors|] == errors;
    }

    /** The gateway's pass over what the capture engine returned, or over the exception it raised. Without any
        candles the engine is not asked, and every included factor is missing. */
    method CalculateSnapshot(expected: seq<string>, haveCandles: bool, captured: Result<seq<FactorResult>, string>)
      returns (s: Snapshot)
      modifies this
      ensures !haveCandles ==> s == Snapshot([], included, [INSUFFICIENT_HISTORY]) && lastResults == old(lastResults)
      ensures haveCandles && captured.Ok? ==>
        s == SnapshotOf(expected, captured.value, engine.lastCalculationErrors) && lastResults == LastResults(captured.value)
      ensures haveCandles && captured.Err? ==>
        var fs := TotalFailures(expected, captured.error);
        s == Snapshot([], FailedNames(fs), Warnings(fs)) && lastResults == map[]
    {
      if !haveCandles {
        return Snapshot([], included, [INSUFFICIENT_HISTORY]);
      }
      if captured.Err? {
        lastResults := map[];
        var fs := TotalFailures(expected, captured.error);
        return Snapshot([], FailedNames(fs), Warnings(fs));
      }
      var results, errors := captured.value, engine.lastCalculationErrors;
      var produced := Names(results);
      var entries, failed, warnings := ReportResults(results);
      var failedMissing, warnMissing := ReportMissing(expected, produced, errors);
      var failedErrors, warnErrors := ReportErrors(errors, produced);
      FailureJoin(ResultFailures(results), MissingFailures(expected, produced, errors), ErrorFailures(errors, produced));
      lastResults := map[];
      for i := 0 to |results|
        invariant lastResults == LastResults(results[..i])
      {
        assert results[..i + 1][..i] == results[..i];
        lastResults := lastResults[results[i].name := results[i]];
      }
      assert results[..|results|] == results;
      return Snapshot(entries, failed + failedMissing + failedErrors, warnings + warnMissing + warnErrors);
    }
  }

  // ---------------------------------------------------------------- every factor exactly once

  function Count(xs: seq<string>, x: string): nat {
    if xs == [] then 0 else Count(xs[..|xs| - 1], x) + if xs[|xs| - 1] == x then 1 else 0
  }

  lemma {:induction false} CountAppend(xs: seq<string>, ys: seq<string>, x: string)
    ensures Count(xs + ys, x) == Count(xs, x) + Count(ys, x)
  {
    if ys == [] {
      assert xs + ys == xs;
    } else {
      assert (xs + ys)[..|xs + ys| - 1] == xs + ys[..|ys| - 1];
      CountAppend(xs, ys[..|ys| - 1], x);
    }
  }

  lemma {:induction false} CountSnoc(xs: seq<string>, y: string, x: string)
    ensures Count(xs + [y], x) == Count(xs, x) + if y == x then 1 else 0
  {
    assert (xs + [y])[..|xs|] == xs;
  }

  lemma {:induction false} CountDistinct(xs: seq<string>, x: string)
    requires NoRepeats(xs)
    ensures Count(xs, x) == if x in xs then 1 else 0
  {
    if xs != [] {
      CountDistinct(xs[..|xs| - 1], x);
      assert xs == xs[..|xs| - 1] + [xs[|xs| - 1]];
    }
  }

  function EntryNames(entries: seq<Entry>): (r: seq<string>)
    ensures |r| == |entries|
  {
    seq(|entries|, i requires 0 <= i < |entries| => entries[i].name)
  }

  /** Each result is either an entry or a failure. */
  lemma {:induction false} ResultsSplit(results: seq<FactorResult>, x: string)
    ensures Count(EntryNames(UsableEntries(results)), x) + Count(FailedNames(ResultFailures(results)), x)
         == Count(Names(results), x)
  {
    if results != [] {
      var n, r := |results| - 1, results[|results| - 1];
      ResultsSplit(results[..n], x);
      assert Names(results) == Names(results[..n]) + [r.name];
      CountSnoc(Names(results[..n]), r.name, x);
      if IsUsable(r) {
        assert ResultFailures(results) == ResultFailures(results[..n]);
        assert EntryNames(UsableEntries(results)) == EntryNames(UsableEntries(results[..n])) + [r.name];
        CountSnoc(EntryNames(UsableEntries(results[..n])), r.name, x);
      } else {
        assert UsableEntries(results) == UsableEntries(results[..n]);
        assert FailedNames(ResultFailures(results)) == FailedNames(ResultFailures(results[..n])) + [r.name];
        CountSnoc(FailedNames(ResultFailures(results[..n])), r.name, x);
      }
    }
  }

  lemma {:induction false} MissingCount(expected: seq<string>, produced: seq<string>, errors: Errors, x: string)
    ensures Count(FailedNames(MissingFailures(expected, produced, errors)), x)
         == if x in produced || x in Ids(errors) then 0 else Count(expected, x)
  {
    if expected != [] {
      var n, id := |expected| - 1, expected[|expected| - 1];
      MissingCount(expected[..n], produced, errors, x);
      var before := MissingFailures(expected[..n], produced, errors);
      if id in produced || id in Ids(errors) {
        assert before + [] == before;
      } else {
        FailureSnoc(before, Failure(id, INSUFFICIENT_HISTORY, None));
        CountSnoc(FailedNames(before), id, x);
      }
    }
  }

  lemma {:induction false} ErrorCount(errors: Errors, produced: seq<string>, x: string)
    ensures Count(FailedNames(ErrorFailures(errors, produced)), x) == if x in produced then 0 else Count(Ids(errors), x)
  {
    if errors != [] {
      var n, e := |errors| - 1, errors[|errors| - 1];
      ErrorCount(errors[..n], produced, x);
      assert Ids(errors) == Ids(errors[..n]) + [e.0];
      CountSnoc(Ids(errors[..n]), e.0, x);
      var before := ErrorFailures(errors[..n], produced);
      if e.0 in produced {
        assert before + [] == before;
      } else {
        FailureSnoc(before, Failure(e.0, CALCULATION_FAILED, Some(e.1)));
        CountSnoc(FailedNames(before), e.0, x);
      }
    }
  }

  /** The calculators name only factors of their own group, each at most once. */
  ghost predicate InGroup(group: seq<string>, run: GroupRun) {
    && NoRepeats(Names(run.results))
    && forall name :: name in Names(run.results) ==> name in group
  }

  ghost predicate WellGrouped(groups: seq<seq<string>>, runs: seq<GroupRun>) {
    && |groups| == |runs| && NoRepeats(Concat(groups))
    && forall i :: 0 <= i < |runs| ==> InGroup(groups[i], runs[i])
  }

  ghost predicate Disjoint(a: seq<string>, b: seq<string>) {
    forall x :: x in a ==> x !in b
  }

  lemma {:induction false} ConcatParts(groups: seq<seq<string>>)
    requires groups != [] && NoRepeats(Concat(groups))
    ensures var n := |groups| - 1;
            && NoRepeats(Concat(groups[..n])) && NoRepeats(groups[n])
            && Disjoint(Concat(groups[..n]), groups[n])
            && forall x :: x in Concat(groups) <==> x in Concat(groups[..n]) || x in groups[n]
  {
    var n := |groups| - 1;
    var a, b := Concat(groups[..n]), groups[n];
    assert Concat(groups) == a + b;
    forall i, j | 0 <= i < j < |a| ensures a[i] != a[j] { assert (a + b)[i] == a[i] && (a + b)[j] == a[j]; }
    forall i, j | 0 <= i < j < |b| ensures b[i] != b[j] { assert (a + b)[|a| + i] == b[i] && (a + b)[|a| + j] == b[j]; }
    forall i, j | 0 <= i < |a| && 0 <= j < |b| ensures a[i] != b[j] { assert (a + b)[i] == a[i] && (a + b)[|a| + j] == b[j]; }
  }

  lemma {:induction false} JoinNoRepeats(a: seq<string>, b: seq<string>)
    requires NoRepeats(a) && NoRepeats(b) && Disjoint(a, b)
    ensures NoRepeats(a + b)
  {
    forall i, j | 0 <= i < j < |a + b|
      ensures (a + b)[i] != (a + b)[j]
    {
      if i < |a| <= j {
        assert a[i] in a && b[j - |a|] in b;
      }
    }
  }

  lemma {:induction false} CapturedNames(groups: seq<seq<string>>, runs: seq<GroupRun>)
    requires WellGrouped(groups, runs)
    ensures NoRepeats(Names(AllResults(runs))) && forall x :: x in Names(AllResults(runs)) ==> x in Concat(groups)
    ensures NoRepeats(Ids(AllErrors(groups, runs))) && forall x :: x in Ids(AllErrors(groups, runs)) ==> x in Concat(groups)
  {
    if runs != [] {
      var n := |runs| - 1;
      ConcatParts(groups);
      assert forall i :: 0 <= i < n ==> InGroup(groups[..n][i], runs[..n][i]);
      CapturedNames(groups[..n], runs[..n]);
      assert InGroup(groups[n], runs[n]);
      assert Names(AllResults(runs)) == Names(AllResults(runs[..n])) + Names(runs[n].results);
      JoinNoRepeats(Names(AllResults(runs[..n])), Names(runs[n].results));
      var before := AllErrors(groups[..n], runs[..n]);
      if runs[n].raised.Some? {
        var more := GroupErrors(groups[n], runs[n].raised.value);
        assert Ids(more) == groups[n];
        assert Ids(before + more) == Ids(before) + groups[n];
        JoinNoRepeats(Ids(before), groups[n]);
      } else {
        assert before + [] == before;
      }
    }
  }

  lemma {:induction false} GroupedOnce(groups: seq<seq<string>>, runs: seq<GroupRun>)
    requires WellGrouped(groups, runs)
    ensures NoRepeats(Concat(groups))
  {
  }

  /** When candles exist and capture returns, every expected factor is reported exactly once, as an entry or
      as failed, and nothing else is, even when calculators raise midway. */
  lemma {:induction false} EveryFactorExactlyOnce(groups: seq<seq<string>>, runs: seq<GroupRun>, x: string)
    requires WellGrouped(groups, runs)
    ensures var s := SnapshotOf(Concat(groups), AllResults(runs), AllErrors(groups, runs));
            Count(EntryNames(s.entries), x) + Count(s.failed, x) == if x in Concat(groups) then 1 else 0
  {
    hide Concat;
    hide AllResults;
    hide AllErrors;
    hide UsableEntries;
    hide ResultFailures;
    hide MissingFailures;
    hide ErrorFailures;
    hide NoRepeats;
    var expected, results, errors := Concat(groups), AllResults(runs), AllErrors(groups, runs);
    CapturedNames(groups, runs);
    GroupedOnce(groups, runs);
    var a, b, c := ResultFailures(results), MissingFailures(expected, Names(results), errors), ErrorFailures(errors, Names(results));
    FailureJoin(a, b, c);
    CountAppend(FailedNames(a) + FailedNames(b), FailedNames(c), x);
    CountAppend(FailedNames(a), FailedNames(b), x);
    ResultsSplit(results, x);
    MissingCount(expected, Names(results), errors, x);
    ErrorCount(errors, Names(results), x);
    CountDistinct(Names(results), x);
    CountDistinct(expected, x);
    CountDistinct(Ids(errors), x);
  }

  // ---------------------------------------------------------------- the state of every factor

  /** A value with a positive confidence, from a channel that had data. */
  predicate Measured(r: FactorResult) {
    r.channelStatus != "NO_BOOK" && r.channelStatus != "NO_TRADES" && r.value.Some? && r.confidence.Some? && r.confidence.value > 0.0
  }

  /** A result is usable exactly when it was measured, a measured zero being told apart; else it is missing, or
      failed when the channel had data and the calculator still gave no value. */
  lemma {:induction false} StateMeans(r: FactorResult)
    ensures IsUsable(r) <==> Measured(r)
    ensures Assess(r).state == VALID_ZERO <==> Measured(r) && r.value == Some(0.0)
    ensures Assess(r).state == CALCULATION_FAILED <==>
              r.value.None? && r.channelStatus != "NO_BOOK" && r.channelStatus != "NO_TRADES"
    ensures Assess(r).state in {OK_STATE, VALID_ZERO, CALCULATION_FAILED, MISSING_DATA}
    ensures Measured(r) <==> Assess(r).detail == ""
  {
  }

  /** How a result is reported. */
  ghost predicate Reported(r: FactorResult, entries: seq<Entry>, fs: seq<Failure>) {
    if Measured(r) then Entry(r.name, if r.value == Some(0.0) then VALID_ZERO else OK_STATE) in entries
    else Failure(r.name, Assess(r).state, Some(Assess(r).detail)) in fs
  }

  lemma {:induction false} ResultsReported(results: seq<FactorResult>)
    ensures forall r :: r in results ==> Reported(r, UsableEntries(results), ResultFailures(results))
  {
    hide Assess;
    if results != [] {
      var n := |results| - 1;
      ResultsReported(results[..n]);
      StateMeans(results[n]);
      assert results == results[..n] + [results[n]];
    }
  }

  lemma {:induction false} MissingReported(expected: seq<string>, produced: seq<string>, errors: Errors, id: string)
    requires id in expected && id !in produced && id !in Ids(errors)
    ensures Failure(id, INSUFFICIENT_HISTORY, None) in MissingFailures(expected, produced, errors)
  {
    var n := |expected| - 1;
    if expected[n] != id {
      assert id in expected[..n];
      MissingReported(expected[..n], produced, errors, id);
    }
  }

  lemma {:induction false} ErrorReported(errors: Errors, produced: seq<string>, e: (string, string))
    requires e in errors && e.0 !in produced
    ensures Failure(e.0, CALCULATION_FAILED, Some(e.1)) in ErrorFailures(errors, produced)
  {
    var n := |errors| - 1;
    if errors[n] != e {
      assert e in errors[..n];
      ErrorReported(errors[..n], produced, e);
    }
  }

  lemma {:induction false} InConcat(groups: seq<seq<string>>, i: nat, id: string)
    requires i < |groups| && id in groups[i]
    ensures id in Concat(groups)
  {
    if i < |groups| - 1 {
      InConcat(groups[..|groups| - 1], i, id);
    }
  }

  /** A factor is charged with the exception of its own group, and with none if that group did not raise. */
  lemma {:induction false} ErrorsOfGroup(groups: seq<seq<string>>, runs: seq<GroupRun>, i: nat, id: string)
    requires |groups| == |runs| && NoRepeats(Concat(groups)) && i < |groups| && id in groups[i]
    ensures runs[i].raised.Some? ==> (id, runs[i].raised.value) in AllErrors(groups, runs)
    ensures runs[i].raised.None? ==> id !in Ids(AllErrors(groups, runs))
  {
    var n := |runs| - 1;
    var before := AllErrors(groups[..n], runs[..n]);
    ConcatParts(groups);
    ErrorIds(groups[..n], runs[..n], id);
    var added := if runs[n].raised.Some? then GroupErrors(groups[n], runs[n].raised.value) else [];
    assert Ids(before + added) == Ids(before) + Ids(added);
    if runs[n].raised.Some? {
      assert Ids(added) == groups[n];
    }
    if i < n {
      InConcat(groups[..n], i, id);
      ErrorsOfGroup(groups[..n], runs[..n], i, id);
    } else if runs[n].raised.Some? {
      var k :| 0 <= k < |groups[n]| && groups[n][k] == id;
      assert added[k] == (id, runs[n].raised.value);
    }
  }

  lemma {:induction false} ErrorIds(groups: seq<seq<string>>, runs: seq<GroupRun>, id: string)
    requires |groups| == |runs|
    ensures id in Ids(AllErrors(groups, runs)) ==> id in Concat(groups)
  {
    if runs != [] {
      var n := |runs| - 1;
      ErrorIds(groups[..n], runs[..n], id);
      var before := AllErrors(groups[..n], runs[..n]);
      if runs[n].raised.Some? {
        var added := GroupErrors(groups[n], runs[n].raised.value);
        assert Ids(added) == groups[n];
        assert Ids(before + added) == Ids(before) + groups[n];
      } else {
        assert before + [] == before;
      }
    }
  }

  /** What every expected factor is reported as: what was measured of it, or why it was not; if it was not produced,
      as failed with the exception when its group raised, and for want of history when it did not. */
  lemma {:induction false} EveryFactorHasItsState(groups: seq<seq<string>>, runs: seq<GroupRun>, i: nat, id: string)
    requires WellGrouped(groups, runs) && i < |groups| && id in groups[i]
    ensures var results := AllResults(runs);
            var s := SnapshotOf(Concat(groups), results, AllErrors(groups, runs));
            var fs := Failures(Concat(groups), results, AllErrors(groups, runs));
            && (forall r :: r in results && r.name == id ==> Reported(r, s.entries, fs))
            && (id !in Names(results) && runs[i].raised.Some? ==> Failure(id, CALCULATION_FAILED, Some(runs[i].raised.value)) in fs)
            && (id !in Names(results) && runs[i].raised.None? ==> Failure(id, INSUFFICIENT_HISTORY, None) in fs)
  {
    hide Assess;
    hide AllErrors;
    hide AllResults;
    hide Concat;
    var expected, results, errors := Concat(groups), AllResults(runs), AllErrors(groups, runs);
    ResultsReported(results);
    GroupedOnce(groups, runs);
    InConcat(groups, i, id);
    ErrorsOfGroup(groups, runs, i, id);
    if id !in Names(results) {
      if runs[i].raised.Some? {
        ErrorReported(errors, Names(results), (id, runs[i].raised.value));
      } else {
        MissingReported(expected, Names(results), errors, id);
      }
    }
  }

  // ---------------------------------------------------------------- warnings read back

  /** Two warnings share a `name:` prefix only when they are about the same factor. */
  lemma {:induction false} PrefixNamesTheFactor(id: string, f: Failure)
    requires ':' !in id && ':' !in f.name
    ensures id + ":" <= Printed(f) <==> id == f.name
  {
    var rest := Printed(f)[|f.name|..];
    assert Printed(f) == f.name + rest && rest[0] == ':';
    StopsAtColon(f.name, rest);
    if id + ":" <= Printed(f) {
      var other := Printed(f)[|id|..];
      assert Printed(f) == id + other;
      assert (id + ":")[|id|] == ':' == Printed(f)[|id|];
      StopsAtColon(id, other);
    }
  }

  lemma {:induction false} StatesHaveNoColon()
    ensures forall s :: s in UNUSABLE_STATES ==> ':' !in s
  {
  }

  lemma {:induction false} WarningReadsBack(f: Failure)
    requires ':' !in f.name && f.state in UNUSABLE_STATES
    ensures UpToColon(Printed(f)[|f.name| + 1..]) == f.state
  {
    StatesHaveNoColon();
    var rest := if f.detail.Some? then ":" + f.detail.value else "";
    assert Printed(f)[|f.name| + 1..] == f.state + rest;
    StopsAtColon(f.state, rest);
  }

  /** The parser returns, for every failed factor, exactly the state that was printed for it. */
  lemma {:induction false} ParsingReturnsTheState(fs: seq<Failure>, i: nat)
    requires i < |fs| && NoRepeats(FailedNames(fs))
    requires forall k :: 0 <= k < |fs| ==> ':' !in fs[k].name && fs[k].state in UNUSABLE_STATES
    ensures StateFromWarnings(fs[i].name, Warnings(fs)) == fs[i].state
  {
    hide Printed;
    hide UpToColon;
    PrefixNamesTheFactor(fs[i].name, fs[0]);
    assert Warnings(fs)[1..] == Warnings(fs[1..]);
    if i == 0 {
      WarningReadsBack(fs[0]);
    } else {
      assert FailedNames(fs)[0] != FailedNames(fs)[i];
      assert NoRepeats(FailedNames(fs[1..])) by { assert FailedNames(fs[1..]) == FailedNames(fs)[1..]; }
      ParsingReturnsTheState(fs[1..], i - 1);
    }
  }

  lemma {:induction false} CountIsMembership(xs: seq<string>, x: string)
    ensures x in xs <==> Count(xs, x) > 0
  {
    if xs != [] {
      CountIsMembership(xs[..|xs| - 1], x);
      assert xs == xs[..|xs| - 1] + [xs[|xs| - 1]];
    }
  }

  lemma {:induction false} CountTwice(xs: seq<string>, i: nat, j: nat)
    requires i < j < |xs| && xs[i] == xs[j]
    ensures Count(xs, xs[i]) >= 2
  {
    var n := |xs| - 1;
    if j == n {
      assert xs[i] in xs[..n];
      CountIsMembership(xs[..n], xs[i]);
    } else {
      CountTwice(xs[..n], i, j);
    }
  }

  lemma {:induction false} FailuresAreUnusable(expected: seq<string>, results: seq<FactorResult>, errors: Errors)
    ensures forall f :: f in Failures(expected, results, errors) ==> f.state in UNUSABLE_STATES
  {
    ResultFailuresUnusable(results);
    MissingFailuresUnusable(expected, Names(results), errors);
    ErrorFailuresUnusable(errors, Names(results));
  }

  lemma {:induction false} ResultFailuresUnusable(results: seq<FactorResult>)
    ensures forall f :: f in ResultFailures(results) ==> f.state in UNUSABLE_STATES
  {
    if results != [] {
      ResultFailuresUnusable(results[..|results| - 1]);
    }
  }

  lemma {:induction false} MissingFailuresUnusable(expected: seq<string>, produced: seq<string>, errors: Errors)
    ensures forall f :: f in MissingFailures(expected, produced, errors) ==> f.state in UNUSABLE_STATES
  {
    if expected != [] {
      MissingFailuresUnusable(expected[..|expected| - 1], produced, errors);
    }
  }

  lemma {:induction false} ErrorFailuresUnusable(errors: Errors, produced: seq<string>)
    ensures forall f :: f in ErrorFailures(errors, produced) ==> f.state in UNUSABLE_STATES
  {
    if errors != [] {
      ErrorFailuresUnusable(errors[..|errors| - 1], produced);
    }
  }

  /** Warnings and failed factors match one to one, and the profile parser recovers from the printed warnings
      the very state the gateway decided, for every failed factor of every snapshot. */
  lemma {:induction false} EveryWarningReadsBack(groups: seq<seq<string>>, runs: seq<GroupRun>, i: nat)
    requires WellGrouped(groups, runs) && forall x :: x in Concat(groups) ==> ':' !in x
    requires i < |Failures(Concat(groups), AllResults(runs), AllErrors(groups, runs))|
    ensures var fs := Failures(Concat(groups), AllResults(runs), AllErrors(groups, runs));
            var s := SnapshotOf(Concat(groups), AllResults(runs), AllErrors(groups, runs));
            && |s.failed| == |s.warnings| == |fs| && s.failed[i] == fs[i].name && s.warnings[i] == Printed(fs[i])
            && StateFromWarnings(s.failed[i], s.warnings) == fs[i].state
  {
    var expected := Concat(groups);
    var fs := Failures(expected, AllResults(runs), AllErrors(groups, runs));
    var failed := FailedNames(fs);
    forall k | 0 <= k < |failed|
      ensures failed[k] in expected
    {
      EveryFactorExactlyOnce(groups, runs, failed[k]);
      CountIsMembership(failed, failed[k]);
    }
    forall k, l | 0 <= k < l < |failed|
      ensures failed[k] != failed[l]
    {
      EveryFactorExactlyOnce(groups, runs, failed[k]);
      if failed[k] == failed[l] {
        CountTwice(failed, k, l);
      }
    }
    FailuresAreUnusable(expected, AllResults(runs), AllErrors(groups, runs));
    forall k | 0 <= k < |fs|
      ensures ':' !in fs[k].name && fs[k].state in UNUSABLE_STATES
    {
      assert fs[k] in fs && failed[k] == fs[k].name;
    }
    ParsingReturnsTheState(fs, i);
  }

  /** The same holds when the capture itself raised: every expected factor once, as failed, with the printed state. */
  lemma {:induction false} TotalFailureReadsBack(expected: seq<string>, detail: string, i: nat)
    requires i < |expected| && NoRepeats(expected) && forall x :: x in expected ==> ':' !in x
    ensures var fs := TotalFailures(expected, detail);
            && FailedNames(fs) == expected && StateFromWarnings(expected[i], Warnings(fs)) == CALCULATION_FAILED
            && Warnings(fs)[i] == expected[i] + ":" + CALCULATION_FAILED + ":" + detail
  {
    var fs := TotalFailures(expected, detail);
    assert FailedNames(fs) == expected;
    forall k | 0 <= k < |fs|
      ensures ':' !in fs[k].name
    {
      assert expected[k] in expected;
    }
    ParsingReturnsTheState(fs, i);
    assert Printed(fs[i]) == expected[i] + ":" + CALCULATION_FAILED + (":" + detail);
  }

  /** A later lookup finds the last result of a factor, and only factors that had one. */
  lemma {:induction false} LastResultsRead(results: seq<FactorResult>, i: nat, x: string)
    requires i < |results| && forall j :: i < j < |results| ==> results[j].name != results[i].name
    ensures results[i].name in LastResults(results) && LastResults(results)[results[i].name] == results[i]
    ensures x in LastResults(results) ==> x in Names(results)
  {
    var n := |results| - 1;
    if i < n {
      LastResultsRead(results[..n], i, x);
    }
    KnownNames(results, x);
  }

  lemma {:induction false} KnownNames(results: seq<FactorResult>, x: string)
    ensures x in LastResults(results) ==> x in Names(results)
  {
    if results != [] {
      var n := |results| - 1;
      KnownNames(results[..n], x);
      assert Names(results) == Names(results[..n]) + [results[n].name];
    }
  }

  /** The length of a factor name and its middle letter: enough to tell the factors apart. */
  function Fingerprint(x: string): int {
    if x == "" then 0 else 256 * |x| + x[|x| / 2] as int
  }

  ghost predicate NoColon(x: string) {
    forall i :: 0 <= i < |x| ==> x[i] != ':'
  }

  ghost predicate Carries(x: string, code: int) {
    Fingerprint(x) == code && NoColon(x)
  }

  const FINGERPRINTS: seq<int> := [1653, 2158, 1381, 2155, 3702, 3423, 3681, 4457, 884, 4982,
    4468, 4959, 4713, 886, 6258, 3175, 3679, 3438, 3429, 5230]

  lemma {:induction false} FingerprintsAreDistinct()
    ensures forall i, j :: 0 <= i < j < |FINGERPRINTS| ==> FINGERPRINTS[i] != FINGERPRINTS[j]
  {
  }

  lemma {:induction false} PriceFactors()
    ensures var g := FACTOR_GROUPS[0];
            && |g| == 5
            && Carries(g[0], 1653) && Carries(g[1], 2158) && Carries(g[2], 1381) && Carries(g[3], 2155) && Carries(g[4], 3702)
  {
  }

  lemma {:induction false} VolumeFactors()
    ensures var g := FACTOR_GROUPS[1];
            && |g| == 3
            && Carries(g[0], 3423) && Carries(g[1], 3681) && Carries(g[2], 4457)
  {
  }

  lemma {:induction false} VolatilityFactors()
    ensures var g := FACTOR_GROUPS[2];
            && |g| == 3
            && Carries(g[0], 884) && Carries(g[1], 4982) && Carries(g[2], 4468)
  {
  }

  lemma {:induction false} OrderflowFactors()
    ensures var g := FACTOR_GROUPS[3];
            && |g| == 4
            && Carries(g[0], 4959) && Carries(g[1], 4713) && Carries(g[2], 886) && Carries(g[3], 6258)
  {
  }

  lemma {:induction false} DerivativesFactors()
    ensures var g := FACTOR_GROUPS[4];
            && |g| == 5
            && Carries(g[0], 3175) && Carries(g[1], 3679) && Carries(g[2], 3438) && Carries(g[3], 3429) && Carries(g[4], 5230)
  {
  }

  lemma {:induction false} ExpectedFactors()
    ensures var g := FACTOR_GROUPS; Concat(g) == g[0] + g[1] + g[2] + g[3] + g[4]
  {
    var g := FACTOR_GROUPS;
    assert g[..4][..3] == g[..3] && g[..3][..2] == g[..2] && g[..2][..1] == g[..1] && g[..1][..0] == [];
    assert Concat(g[..1]) == [] + g[0] == g[0];
    assert Concat(g[..2]) == g[0] + g[1];
    assert Concat(g[..3]) == g[0] + g[1] + g[2];
    assert Concat(g[..4]) == g[0] + g[1] + g[2] + g[3];
  }

  /** The hypotheses hold of the factor groups as they are: no factor twice, no colon in a name. */
  lemma {:induction false} FactorGroupsAreDistinct()
    ensures NoRepeats(Concat(FACTOR_GROUPS)) && |Concat(FACTOR_GROUPS)| == 20
    ensures forall x :: x in Concat(FACTOR_GROUPS) ==> ':' !in x
  {
    hide Fingerprint;
    hide Concat;
    var all := Concat(FACTOR_GROUPS);
    ExpectedFactors();
    PriceFactors();
    VolumeFactors();
    VolatilityFactors();
    OrderflowFactors();
    DerivativesFactors();
    FingerprintsAreDistinct();
    assert forall i :: 0 <= i < 20 ==> Carries(all[i], FINGERPRINTS[i]);
  }
}
