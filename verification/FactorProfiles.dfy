/** Factor profiles, and the two independent ways their readiness is decided. */
module FactorProfiles {

  const OK_STATE := "OK"
  const VALID_ZERO := "VALID_ZERO"
  const MISSING_DATA := "MISSING_DATA"
  const INSUFFICIENT_HISTORY := "INSUFFICIENT_HISTORY"
  const STALE_INPUT := "STALE_INPUT"
  const CALCULATION_FAILED := "CALCULATION_FAILED"
  const DISABLED := "DISABLED"

  const USABLE_STATES: seq<string> := [OK_STATE, VALID_ZERO]
  const UNUSABLE_STATES: seq<string> := [MISSING_DATA, INSUFFICIENT_HISTORY, STALE_INPUT, CALCULATION_FAILED, DISABLED]

  datatype Entry = Entry(name: string, status: string)

  datatype Snapshot = Snapshot(entries: seq<Entry>, failed: seq<string>, warnings: seq<string>)

  datatype Readiness = READY | DEGRADED | BLOCKED

  datatype Profile = Profile(required: seq<string>, optional: seq<string>)

  // ---------------------------------------------------------------- reading a warning back

  /** The text up to the first colon. */
  function UpToColon(text: string): (r: string)
    ensures ':' !in r
    ensures r <= text && (|r| < |text| ==> text[|r|] == ':')
  {
    if text == "" || text[0] == ':' then "" else [text[0]] + UpToColon(text[1..])
  }

  /** The state recorded for a factor by the first warning that is about it. */
  function StateFromWarnings(id: string, warnings: seq<string>): (state: string)
    ensures state in UNUSABLE_STATES
  {
    if warnings == [] then INSUFFICIENT_HISTORY
    else if id + ":" <= warnings[0] then
      var state := UpToColon(warnings[0][|id| + 1..]);
      if state in UNUSABLE_STATES then state else CALCULATION_FAILED
    else StateFromWarnings(id, warnings[1..])
  }

  /** The first warning that starts with the factor's name and a colon decides: with the text up to the next colon if that
      is an unusable state, and as a failed calculation otherwise. Without any, history is insufficient. */
  lemma {:induction false} WarningsDecide(id: string, warnings: seq<string>, i: nat, state: string, rest: string)
    requires i <= |warnings| && forall j :: 0 <= j < i ==> !(id + ":" <= warnings[j])
    ensures i == |warnings| ==> StateFromWarnings(id, warnings) == INSUFFICIENT_HISTORY
    ensures i < |warnings| && warnings[i] == id + ":" + state + rest && ':' !in state && (rest == "" || rest[0] == ':') ==>
              StateFromWarnings(id, warnings) == if state in UNUSABLE_STATES then state else CALCULATION_FAILED
  {
    if i > 0 {
      WarningsDecide(id, warnings[1..], i - 1, state, rest);
    } else if warnings != [] && warnings[0] == id + ":" + state + rest && ':' !in state && (rest == "" || rest[0] == ':') {
      assert warnings[0] == (id + ":") + (state + rest);
      assert warnings[0][|id| + 1..] == state + rest;
      StopsAtColon(state, rest);
    }
  }

  lemma {:induction false} StopsAtColon(text: string, rest: string)
    requires ':' !in text && (rest == "" || rest[0] == ':')
    ensures UpToColon(text + rest) == text
  {
    if text == "" {
      assert text + rest == rest;
    } else {
      assert (text + rest)[1..] == text[1..] + rest;
      StopsAtColon(text[1..], rest);
    }
  }

  // ---------------------------------------------------------------- assessment by lists

  type Statuses = map<string, string>

  predicate UsableIn(statuses: Statuses, factor: string) {
    factor in statuses && statuses[factor] in USABLE_STATES
  }

  datatype Assessment = Assessment(readiness: Readiness, blockedBy: seq<string>, degradedBy: seq<string>, missing: seq<string>)

  function Unusable(factors: seq<string>, statuses: Statuses): seq<string> {
    if factors == [] then []
    else
      var n := |factors| - 1;
      Unusable(factors[..n], statuses) + if UsableIn(statuses, factors[n]) then [] else [factors[n]]
  }

  function Absent(factors: seq<string>, statuses: Statuses): seq<string> {
    if factors == [] then []
    else
      var n := |factors| - 1;
      Absent(factors[..n], statuses) + if factors[n] in statuses then [] else [factors[n]]
  }

  /** The classification of one factor list: `bad` collects the unusable factors, `missing` the unreported. */
  method Classify(factors: seq<string>, statuses: Statuses) returns (bad: seq<string>, missing: seq<string>)
    ensures bad == Unusable(factors, statuses) && missing == Absent(factors, statuses)
  {
    bad, missing := [], [];
    for i := 0 to |factors|
      invariant bad == Unusable(factors[..i], statuses) && missing == Absent(factors[..i], statuses)
    {
      var factor := factors[i];
      assert factors[..i + 1][..i] == factors[..i];
      var known := factor in statuses && (statuses[factor] in USABLE_STATES || statuses[factor] in UNUSABLE_STATES);
      if !known {
        bad := bad + [factor];
        if factor !in statuses {
          missing := missing + [factor];
        }
      } else if statuses[factor] !in USABLE_STATES {
        bad := bad + [factor];
      }
    }
    assert factors[..|factors|] == factors;
  }

  function Assessed(profile: Profile, statuses: Statuses): Assessment {
    var blocked, degraded := Unusable(profile.required, statuses), Unusable(profile.optional, statuses);
    Assessment(if blocked != [] then BLOCKED else if degraded != [] then DEGRADED else READY,
               blocked, degraded, Absent(profile.required, statuses) + Absent(profile.optional, statuses))
  }

  method AssessProfile(profile: Profile, statuses: Statuses) returns (a: Assessment)
    ensures a == Assessed(profile, statuses)
  {
    var blocked, missing := Classify(profile.required, statuses);
    var degraded, more := Classify(profile.optional, statuses);
    var readiness := if blocked != [] then BLOCKED else if degraded != [] then DEGRADED else READY;
    return Assessment(readiness, blocked, degraded, missing + more);
  }

  /** The statuses the entries carry; a later entry for the same factor wins. */
  function EntryStatuses(entries: seq<Entry>): Statuses {
    if entries == [] then map[]
    else EntryStatuses(entries[..|entries| - 1])[entries[|entries| - 1].name := entries[|entries| - 1].status]
  }

  function WithFailed(statuses: Statuses, failed: seq<string>, warnings: seq<string>): Statuses {
    if failed == [] then statuses
    else
      var before, id := WithFailed(statuses, failed[..|failed| - 1], warnings), failed[|failed| - 1];
      if id in before then before else before[id := StateFromWarnings(id, warnings)]
  }

  function SnapshotStatuses(s: Snapshot): Statuses {
    WithFailed(EntryStatuses(s.entries), s.failed, s.warnings)
  }

  method AssessProfileFromSnapshot(s: Snapshot, profile: Profile) returns (a: Assessment)
    ensures a == Assessed(profile, SnapshotStatuses(s))
  {
    var statuses := EntryStatuses(s.entries);
    for i := 0 to |s.failed|
      invariant statuses == WithFailed(EntryStatuses(s.entries), s.failed[..i], s.warnings)
    {
      assert s.failed[..i + 1][..i] == s.failed[..i];
      if s.failed[i] !in statuses {
        statuses := statuses[s.failed[i] := StateFromWarnings(s.failed[i], s.warnings)];
      }
    }
    assert s.failed[..|s.failed|] == s.failed;
    a := AssessProfile(profile, statuses);
  }

  ghost predicate AllUsable(factors: seq<string>, statuses: Statuses) {
    forall i :: 0 <= i < |factors| ==> UsableIn(statuses, factors[i])
  }

  lemma {:induction false} UnusableIff(factors: seq<string>, statuses: Statuses)
    ensures Unusable(factors, statuses) == [] <==> AllUsable(factors, statuses)
  {
    if factors != [] {
      UnusableIff(factors[..|factors| - 1], statuses);
    }
  }

  lemma {:induction false} FailedStaysUnusable(statuses: Statuses, failed: seq<string>, warnings: seq<string>, factor: string)
    ensures UsableIn(WithFailed(statuses, failed, warnings), factor) <==> UsableIn(statuses, factor)
    ensures factor in statuses ==> factor in WithFailed(statuses, failed, warnings)
  {
    if failed != [] {
      FailedStaysUnusable(statuses, failed[..|failed| - 1], warnings, factor);
      StatesAreDisjoint();
    }
  }

  /** No state is both usable and unusable. */
  lemma {:induction false} StatesAreDisjoint()
    ensures forall s :: s in UNUSABLE_STATES ==> s !in USABLE_STATES
  {
    assert |OK_STATE| == 2 && |VALID_ZERO| == 10 && VALID_ZERO[0] == 'V';
    assert |MISSING_DATA| == 12 && |INSUFFICIENT_HISTORY| == 20 && |STALE_INPUT| == 11 && |CALCULATION_FAILED| == 18;
    assert |DISABLED| == 8;
  }

  /** What the failed list adds never makes a factor usable. */
  lemma {:induction false} UsableElsewhere(s: Snapshot, factor: string)
    ensures UsableIn(SnapshotStatuses(s), factor) <==> UsableIn(EntryStatuses(s.entries), factor)
  {
    FailedStaysUnusable(EntryStatuses(s.entries), s.failed, s.warnings, factor);
  }

  lemma {:induction false} SameUsable(s: Snapshot, factors: seq<string>)
    ensures AllUsable(factors, SnapshotStatuses(s)) <==> AllUsable(factors, EntryStatuses(s.entries))
  {
    forall i | 0 <= i < |factors|
      ensures UsableIn(SnapshotStatuses(s), factors[i]) <==> UsableIn(EntryStatuses(s.entries), factors[i])
    {
      UsableElsewhere(s, factors[i]);
    }
  }

  /** A profile is ready, degraded or blocked exactly by which of its factors the entries report usable. */
  lemma {:induction false} ReadinessMeaning(profile: Profile, s: Snapshot)
    ensures var r := Assessed(profile, SnapshotStatuses(s)).readiness; var factors := EntryStatuses(s.entries);
            && (r == BLOCKED <==> !AllUsable(profile.required, factors))
            && (r == READY <==> AllUsable(profile.required, factors) && AllUsable(profile.optional, factors))
  {
    SameUsable(s, profile.required);
    SameUsable(s, profile.optional);
    UnusableIff(profile.required, SnapshotStatuses(s));
    UnusableIff(profile.optional, SnapshotStatuses(s));
  }

  lemma {:induction false} ListedIff(factors: seq<string>, statuses: Statuses, x: string)
    ensures x in Unusable(factors, statuses) <==> x in factors && !UsableIn(statuses, x)
    ensures x in Absent(factors, statuses) <==> x in factors && x !in statuses
  {
    if factors != [] {
      var n := |factors| - 1;
      ListedIff(factors[..n], statuses, x);
      assert factors == factors[..n] + [factors[n]];
    }
  }

  /** The last entry about a factor. */
  ghost predicate LastEntry(entries: seq<Entry>, i: nat) {
    i < |entries| && forall j :: i < j < |entries| ==> entries[j].name != entries[i].name
  }

  ghost predicate Named(entries: seq<Entry>, x: string) {
    exists i :: 0 <= i < |entries| && entries[i].name == x
  }

  lemma {:induction false} NamedSnoc(entries: seq<Entry>, e: Entry, x: string)
    ensures Named(entries + [e], x) <==> Named(entries, x) || e.name == x
  {
    var all := entries + [e];
    if Named(entries, x) {
      var i :| 0 <= i < |entries| && entries[i].name == x;
      assert all[i].name == x;
    }
    assert all[|entries|] == e;
  }

  lemma {:induction false} NamedIffRead(entries: seq<Entry>, x: string)
    ensures x in EntryStatuses(entries) <==> Named(entries, x)
  {
    hide Named;
    if entries == [] {
      NobodyNamed(x);
    } else {
      var n := |entries| - 1;
      assert entries == entries[..n] + [entries[n]];
      NamedIffRead(entries[..n], x);
      NamedSnoc(entries[..n], entries[n], x);
    }
  }

  lemma {:induction false} NobodyNamed(x: string)
    ensures !Named([], x)
  {
  }

  lemma {:induction false} LastEntryCounts(entries: seq<Entry>, i: nat)
    requires i < |entries| && LastEntry(entries, i)
    ensures entries[i].name in EntryStatuses(entries) && EntryStatuses(entries)[entries[i].name] == entries[i].status
  {
    var n := |entries| - 1;
    if i < n {
      assert entries[n].name != entries[i].name;
      assert LastEntry(entries[..n], i);
      LastEntryCounts(entries[..n], i);
    }
  }

  lemma {:induction false} FailedRead(statuses: Statuses, failed: seq<string>, warnings: seq<string>, x: string)
    ensures var all := WithFailed(statuses, failed, warnings);
            && (x in all <==> x in statuses || x in failed)
            && (x in statuses ==> all[x] == statuses[x])
            && (x in failed && x !in statuses ==> all[x] == StateFromWarnings(x, warnings))
  {
    hide StateFromWarnings;
    if failed != [] {
      var n := |failed| - 1;
      FailedRead(statuses, failed[..n], warnings, x);
      assert failed == failed[..n] + [failed[n]];
    }
  }

  /** Whether the last entry about the factor says that it is usable. */
  ghost predicate LastSaysUsable(s: Snapshot, x: string) {
    exists i :: 0 <= i < |s.entries| && LastEntry(s.entries, i) && s.entries[i].name == x && s.entries[i].status in USABLE_STATES
  }

  lemma {:induction false} HasLast(entries: seq<Entry>, i: nat) returns (last: nat)
    requires i < |entries|
    ensures LastEntry(entries, last) && last < |entries| && entries[last].name == entries[i].name
    decreases |entries| - i
  {
    if j :| i < j < |entries| && entries[j].name == entries[i].name {
      last := HasLast(entries, j);
    } else {
      last := i;
    }
  }

  lemma {:induction false} UsableIffLastSays(s: Snapshot, x: string)
    ensures UsableIn(SnapshotStatuses(s), x) <==> LastSaysUsable(s, x)
  {
    UsableElsewhere(s, x);
    NamedIffRead(s.entries, x);
    if x in EntryStatuses(s.entries) {
      var i :| 0 <= i < |s.entries| && s.entries[i].name == x;
      var last := HasLast(s.entries, i);
      LastEntryCounts(s.entries, last);
    }
    if LastSaysUsable(s, x) {
      var i :| 0 <= i < |s.entries| && LastEntry(s.entries, i) && s.entries[i].name == x && s.entries[i].status in USABLE_STATES;
      LastEntryCounts(s.entries, i);
    }
  }

  /** The lists of an assessment, from the snapshot alone: blocked by the required and degraded by the optional factors
      that the last entry about them does not report usable, and missing what neither an entry nor the failed list names. */
  lemma {:induction false} AssessmentLists(profile: Profile, s: Snapshot, x: string)
    ensures var a := Assessed(profile, SnapshotStatuses(s));
            && (x in a.blockedBy <==> x in profile.required && !LastSaysUsable(s, x))
            && (x in a.degradedBy <==> x in profile.optional && !LastSaysUsable(s, x))
            && (x in a.missing <==> (x in profile.required || x in profile.optional) && x !in s.failed
                                    && forall i :: 0 <= i < |s.entries| ==> s.entries[i].name != x)
  {
    hide LastSaysUsable;
    hide UsableIn;
    UsableIffLastSays(s, x);
    NamedIffRead(s.entries, x);
    FailedRead(EntryStatuses(s.entries), s.failed, s.warnings, x);
    ListedIff(profile.required, SnapshotStatuses(s), x);
    ListedIff(profile.optional, SnapshotStatuses(s), x);
  }

  // ---------------------------------------------------------------- assessment by early exit

  /** The search for a factor whose status is missing or not usable, stopping at the first. */
  method FindsUnusable(factors: seq<string>, statuses: Statuses) returns (found: bool)
    ensures found <==> !AllUsable(factors, statuses)
  {
    for i := 0 to |factors|
      invariant forall k :: 0 <= k < i ==> UsableIn(statuses, factors[k])
    {
      var status := if factors[i] in statuses then statuses[factors[i]] else MISSING_DATA;
      if status !in USABLE_STATES {
        return true;
      }
    }
    return false;
  }

  /** The entry gate looks at the entries alone: an unusable required factor blocks, else an unusable
      optional one degrades. It decides exactly as the assessment by lists. */
  method Evaluate(profile: Profile, s: Snapshot) returns (r: Readiness)
    ensures r == Assessed(profile, SnapshotStatuses(s)).readiness
  {
    ReadinessMeaning(profile, s);
    var factors := EntryStatuses(s.entries);
    var blocked := FindsUnusable(profile.required, factors);
    if blocked {
      return BLOCKED;
    }
    var degraded := FindsUnusable(profile.optional, factors);
    return if degraded then DEGRADED else READY;
  }

  // ---------------------------------------------------------------- the FULL profile

  /** `dict.fromkeys`: first occurrences, in order. */
  function Dedup(xs: seq<string>): (r: seq<string>)
    ensures forall x :: x in r <==> x in xs
    ensures NoRepeats(r)
  {
    if xs == [] then []
    else
      var before, x := Dedup(xs[..|xs| - 1]), xs[|xs| - 1];
      if x in before then before else before + [x]
  }

  predicate NoRepeats(xs: seq<string>) {
    forall i, j :: 0 <= i < j < |xs| ==> xs[i] != xs[j]
  }

  function Without(xs: seq<string>, ys: seq<string>): (r: seq<string>)
    ensures forall x :: x in r <==> x in xs && x !in ys
    ensures NoRepeats(xs) ==> NoRepeats(r)
  {
    if xs == [] then []
    else
      var before, x := Without(xs[..|xs| - 1], ys), xs[|xs| - 1];
      if x in ys then before else before + [x]
  }

  function AllRequired(family: seq<Profile>): (r: seq<string>)
    ensures forall x :: x in r <==> exists p :: p in family && x in p.required
  {
    if family == [] then [] else family[0].required + AllRequired(family[1..])
  }

  function AllOptional(family: seq<Profile>): (r: seq<string>)
    ensures forall x :: x in r <==> exists p :: p in family && x in p.optional
  {
    if family == [] then [] else family[0].optional + AllOptional(family[1..])
  }

  /** The union profile: everything any member requires, and every other known factor as optional. */
  function FullProfile(family: seq<Profile>, expected: seq<string>): Profile {
    var required := Dedup(AllRequired(family));
    var optional := Dedup(Without(AllOptional(family), required));
    Profile(required, optional + Without(Without(expected, required), optional))
  }

  /** What the profile constructor insists on. */
  predicate WellFormed(p: Profile) {
    && NoRepeats(p.required) && NoRepeats(p.optional)
    && forall x :: x in p.required ==> x !in p.optional
  }

  /** The union of any family is an acceptable profile. */
  lemma {:induction false} FullIsWellFormed(family: seq<Profile>, expected: seq<string>)
    requires NoRepeats(expected)
    ensures WellFormed(FullProfile(family, expected))
  {
    var required := Dedup(AllRequired(family));
    var optional := Dedup(Without(AllOptional(family), required));
    var others := Without(Without(expected, required), optional);
    forall i, j | 0 <= i < j < |optional + others|
      ensures (optional + others)[i] != (optional + others)[j]
    {
      if i < |optional| <= j {
        assert others[j - |optional|] in others && optional[i] in optional;
      }
    }
  }

  lemma {:induction false} AllUsableIn(factors: seq<string>, statuses: Statuses)
    ensures AllUsable(factors, statuses) <==> forall x :: x in factors ==> UsableIn(statuses, x)
  {
  }

  predicate NotBlocked(profile: Profile, s: Snapshot) {
    Assessed(profile, SnapshotStatuses(s)).readiness != BLOCKED
  }

  predicate Ready(profile: Profile, s: Snapshot) {
    Assessed(profile, SnapshotStatuses(s)).readiness == READY
  }

  /** For any family: FULL is unblocked exactly when every member is, and ready exactly when every member is
      and every remaining known factor is usable. */
  lemma {:induction false} FullIsTheConjunction(family: seq<Profile>, expected: seq<string>, s: Snapshot)
    ensures var full := FullProfile(family, expected);
            && (NotBlocked(full, s) <==> forall i :: 0 <= i < |family| ==> NotBlocked(family[i], s))
            && (Ready(full, s) <==>
                  && (forall i :: 0 <= i < |family| ==> Ready(family[i], s))
                  && (forall x :: x in expected ==> x in full.required || UsableIn(EntryStatuses(s.entries), x)))
  {
    var full, factors := FullProfile(family, expected), EntryStatuses(s.entries);
    ReadinessMeaning(full, s);
    AllUsableIn(full.required, factors);
    AllUsableIn(full.optional, factors);
    forall i | 0 <= i < |family|
      ensures NotBlocked(family[i], s) <==> forall x :: x in family[i].required ==> UsableIn(factors, x)
      ensures Ready(family[i], s) <==> NotBlocked(family[i], s) && forall x :: x in family[i].optional ==> UsableIn(factors, x)
      ensures forall x :: x in family[i].required ==> x in full.required
      ensures forall x :: x in family[i].optional ==> x in full.required || x in full.optional
    {
      ReadinessMeaning(family[i], s);
      AllUsableIn(family[i].required, factors);
      AllUsableIn(family[i].optional, factors);
      assert family[i] in family;
    }
    forall x | x in full.required
      ensures exists i :: 0 <= i < |family| && x in family[i].required
    {
      var p :| p in family && x in p.required;
    }
    forall x | x in full.optional && x !in expected
      ensures exists i :: 0 <= i < |family| && x in family[i].optional
    {
      var p :| p in family && x in p.optional;
    }
  }
}
