/** The LLM gateway's per-provider circuit breaker under concurrent invocations.

    An invocation gives up control only where it awaits: while a transport call is out, and while it sleeps
    before a retry. Between awaits it runs undisturbed, so an interleaving is a sequence of the steps below. */
module CircuitBreaker {
  import opened Wrappers

  datatype ErrorCode =
    | UNKNOWN_ROUTE | NOT_CONFIGURED | DISABLED_PROVIDER | CIRCUIT_OPEN | INVALID_RESPONSE
    | PROVIDER_UNAVAILABLE | TransportError(name: string)

  datatype Circuit = Circuit(failures: nat, openedAt: Option<real>)

  const CLOSED := Circuit(0, None)

  datatype Provider = Provider(enabled: bool, hasKey: bool, maxRetries: nat)
  datatype Route = Route(provider: string, enabled: bool)
  datatype Settings = Settings(threshold: nat, resetSeconds: real)

  /** What the transport reports; `valid` is the verdict of the response model on a good answer. */
  datatype Answer = Answer(ok: bool, retryable: bool, error: Option<ErrorCode>, valid: bool)

  /** An admitted invocation: the attempt it is at, and whether it sleeps before the next one. */
  datatype Flight = Flight(provider: string, maxRetries: nat, attempt: nat, sleeping: bool)

  datatype Usage = Usage(invocation: nat, error: Option<ErrorCode>)

  /** A transport call, with the breaker as it stood when the call went out. */
  datatype TransportCall = TransportCall(invocation: nat, attempt: nat, provider: string, at: real, open: bool)

  datatype Outcome =
    | Failed(provider: string, at: real)
    | Succeeded(provider: string, at: real)
    | TimedReset(provider: string, at: real)

  datatype State = State(
    providers: map<string, Provider>,
    routes: map<string, Route>,
    circuits: map<string, Circuit>,
    flights: map<nat, Flight>,
    usage: seq<Usage>,
    nextId: nat,
    calls: seq<TransportCall>,
    answers: map<(nat, nat), Answer>,
    limits: map<nat, nat>,
    log: seq<Outcome>)
  {
    function CircuitOf(p: string): Circuit {
      if p in circuits then circuits[p] else CLOSED
    }
  }

  const INITIAL := State(map[], map[], map[], map[], [], 0, [], map[], map[], [])

  // ---------------------------------------------------------------- the steps as functions

  predicate IsOpen(cfg: Settings, c: Circuit, now: real) {
    c.openedAt.Some? && now - c.openedAt.value < cfg.resetSeconds
  }

  predicate Expired(cfg: Settings, c: Circuit, now: real) {
    c.openedAt.Some? && now - c.openedAt.value >= cfg.resetSeconds
  }

  /** The breaker check at admission, with its timed reset. */
  function Checked(cfg: Settings, s: State, p: string, now: real): State {
    var expired := Expired(cfg, s.CircuitOf(p), now);
    s.(circuits := s.circuits[p := if expired then CLOSED else s.CircuitOf(p)],
       log := s.log + (if expired then [TimedReset(p, now)] else []))
  }

  function RecordFailure(cfg: Settings, s: State, p: string, now: real): State {
    var c := s.CircuitOf(p);
    var failures := c.failures + 1;
    s.(circuits := s.circuits[p := Circuit(failures, if failures >= cfg.threshold then Some(now) else c.openedAt)],
       log := s.log + [Failed(p, now)])
  }

  function RecordSuccess(s: State, p: string, now: real): State {
    s.(circuits := s.circuits[p := CLOSED], log := s.log + [Succeeded(p, now)])
  }

  function Report(s: State, id: nat, error: Option<ErrorCode>): State {
    s.(usage := s.usage + [Usage(id, error)])
  }

  function CallOut(cfg: Settings, s: State, id: nat, f: Flight, now: real): State {
    s.(flights := s.flights[id := f],
       calls := s.calls + [TransportCall(id, f.attempt, f.provider, now, IsOpen(cfg, s.CircuitOf(f.provider), now))])
  }

  /** The refusals that come before the breaker is asked, or the provider to ask. */
  function Admission(s: State, route: string): (r: Result<string, ErrorCode>)
    ensures r.Ok? ==> r.value in s.providers
  {
    if route !in s.routes || !s.routes[route].enabled then Err(UNKNOWN_ROUTE)
    else
      var p := s.routes[route].provider;
      if p !in s.providers then Err(NOT_CONFIGURED)
      else if !s.providers[p].enabled then Err(DISABLED_PROVIDER)
      else if !s.providers[p].hasKey then Err(NOT_CONFIGURED)
      else Ok(p)
  }

  /** The admitted route asks the breaker, and the first transport call goes out unless it is open. */
  function BegunOn(cfg: Settings, s: State, id: nat, p: string, retries: nat, now: real): State {
    var u := Checked(cfg, s, p, now);
    if u.CircuitOf(p).openedAt.Some? then Report(u, id, Some(CIRCUIT_OPEN))
    else CallOut(cfg, u.(limits := u.limits[id := retries]), id, Flight(p, retries, 0, false), now)
  }

  /** A new invocation takes an id and either reports an error or sends out its first transport call. */
  function Begun(cfg: Settings, s: State, route: string, now: real): State {
    var id, t := s.nextId, s.(nextId := s.nextId + 1);
    match Admission(s, route)
    case Err(e) => Report(t, id, Some(e))
    case Ok(p) => BegunOn(cfg, t, id, p, s.providers[p].maxRetries, now)
  }

  /** The transport call of an invocation returned: sleep and retry, or record the outcome and report. */
  function Answered(cfg: Settings, s: State, id: nat, a: Answer, now: real): State
    requires id in s.flights
  {
    var f := s.flights[id];
    var t := s.(answers := s.answers[(id, f.attempt) := a]);
    if !a.ok && a.retryable && f.attempt < f.maxRetries then t.(flights := t.flights[id := f.(sleeping := true)])
    else
      var u := t.(flights := t.flights - {id});
      if !a.ok then Report(RecordFailure(cfg, u, f.provider, now), id, Some(a.error.GetOr(PROVIDER_UNAVAILABLE)))
      else if !a.valid then Report(RecordFailure(cfg, u, f.provider, now), id, Some(INVALID_RESPONSE))
      else Report(RecordSuccess(u, f.provider, now), id, None)
  }

  function Resumed(cfg: Settings, s: State, id: nat, now: real): State
    requires id in s.flights
  {
    var f := s.flights[id];
    CallOut(cfg, s, id, f.(attempt := f.attempt + 1, sleeping := false), now)
  }

  // ---------------------------------------------------------------- the gateway

  class LLMGateway {
    const cfg: Settings
    var providers: map<string, Provider>
    var routes: map<string, Route>
    var circuits: map<string, Circuit>
    var flights: map<nat, Flight>
    var usage: seq<Usage>
    var nextId: nat
    ghost var calls: seq<TransportCall>
    ghost var answers: map<(nat, nat), Answer>
    ghost var limits: map<nat, nat>
    ghost var log: seq<Outcome>

    ghost function View(): State
      reads this
    {
      State(providers, routes, circuits, flights, usage, nextId, calls, answers, limits, log)
    }

    constructor (cfg: Settings)
      ensures this.cfg == cfg && View() == INITIAL
    {
      this.cfg := cfg;
      providers, routes, circuits, flights, usage, nextId := map[], map[], map[], map[], [], 0;
      calls, answers, limits, log := [], map[], map[], [];
    }

    /** Configuration changes leave circuits and running invocations alone. */
    method Reload(providers: map<string, Provider>, routes: map<string, Route>)
      modifies this
      ensures View() == old(View()).(providers := providers, routes := routes)
    {
      this.providers, this.routes := providers, routes;
    }

    method CircuitOpen(p: string, now: real) returns (open: bool)
      modifies this
      ensures View() == Checked(cfg, old(View()), p, now)
      ensures open <==> View().CircuitOf(p).openedAt.Some?
    {
      if p !in circuits {
        circuits := circuits[p := CLOSED];
      }
      var state := circuits[p];
      if state.openedAt.None? {
        circuits := circuits[p := state];
        return false;
      }
      if now - state.openedAt.value >= cfg.resetSeconds {
        circuits := circuits[p := CLOSED];
        log := log + [TimedReset(p, now)];
        return false;
      }
      return true;
    }

    method RecordProviderFailure(p: string, now: real)
      modifies this
      ensures View() == RecordFailure(cfg, old(View()), p, now)
    {
      var state := if p in circuits then circuits[p] else CLOSED;
      state := state.(failures := state.failures + 1);
      if state.failures >= cfg.threshold {
        state := state.(openedAt := Some(now));
      }
      circuits := circuits[p := state];
      log := log + [Failed(p, now)];
    }

    method RecordUsage(id: nat, error: Option<ErrorCode>)
      modifies this`usage
      ensures View() == Report(old(View()), id, error)
    {
      usage := usage + [Usage(id, error)];
    }

    /** Hands the request to the transport; the breaker is only looked at for the record. */
    method SendOut(id: nat, f: Flight, now: real)
      modifies this`flights, this`calls
      ensures View() == CallOut(cfg, old(View()), id, f, now)
    {
      flights := flights[id := f];
      calls := calls + [TransportCall(id, f.attempt, f.provider, now, IsOpen(cfg, View().CircuitOf(f.provider), now))];
    }

    method CheckAdmission(route: string) returns (r: Result<string, ErrorCode>)
      ensures r == Admission(View(), route)
    {
      if route !in routes || !routes[route].enabled {
        return Err(UNKNOWN_ROUTE);
      }
      var p := routes[route].provider;
      if p !in providers {
        return Err(NOT_CONFIGURED);
      }
      if !providers[p].enabled {
        return Err(DISABLED_PROVIDER);
      }
      if !providers[p].hasKey {
        return Err(NOT_CONFIGURED);
      }
      return Ok(p);
    }

    /** `invoke` up to its first transport call. */
    method Begin(route: string, now: real)
      modifies this
      ensures View() == Begun(cfg, old(View()), route, now)
    {
      var id := nextId;
      var admission := CheckAdmission(route);
      nextId := nextId + 1;
      if admission.Err? {
        RecordUsage(id, Some(admission.error));
        return;
      }
      var p := admission.value;
      var open := CircuitOpen(p, now);
      if open {
        RecordUsage(id, Some(CIRCUIT_OPEN));
        return;
      }
      limits := limits[id := providers[p].maxRetries];
      SendOut(id, Flight(p, providers[p].maxRetries, 0, false), now);
    }

    /** `invoke` from the return of a transport call to its sleep or its end. */
    method Receive(id: nat, a: Answer, now: real)
      requires id in flights && !flights[id].sleeping
      modifies this
      ensures View() == Answered(cfg, old(View()), id, a, now)
    {
      var f := flights[id];
      answers := answers[(id, f.attempt) := a];
      if !a.ok && a.retryable && f.attempt < f.maxRetries {
        flights := flights[id := f.(sleeping := true)];
        return;
      }
      flights := flights - {id};
      if !a.ok {
        RecordProviderFailure(f.provider, now);
        RecordUsage(id, Some(a.error.GetOr(PROVIDER_UNAVAILABLE)));
      } else if !a.valid {
        RecordProviderFailure(f.provider, now);
        RecordUsage(id, Some(INVALID_RESPONSE));
      } else {
        circuits := circuits[f.provider := CLOSED];
        log := log + [Succeeded(f.provider, now)];
        RecordUsage(id, None);
      }
    }

    /** The sleep is over: the next attempt goes out, without asking the breaker again. */
    method Resume(id: nat, now: real)
      requires id in flights && flights[id].sleeping
      modifies this
      ensures View() == Resumed(cfg, old(View()), id, now)
    {
      SendOut(id, flights[id].(attempt := flights[id].attempt + 1, sleeping := false), now);
    }
  }

  // ---------------------------------------------------------------- interleavings

  datatype Event =
    | Reload(providers: map<string, Provider>, routes: map<string, Route>)
    | Begin(route: string, at: real)
    | Receive(id: nat, answer: Answer, at: real)
    | Resume(id: nat, at: real)

  predicate Enabled(s: State, e: Event) {
    match e
    case Receive(id, _, _) => id in s.flights && !s.flights[id].sleeping
    case Resume(id, _) => id in s.flights && s.flights[id].sleeping
    case _ => true
  }

  function Step(cfg: Settings, s: State, e: Event): State
    requires Enabled(s, e)
  {
    match e
    case Reload(providers, routes) => s.(providers := providers, routes := routes)
    case Begin(route, at) => Begun(cfg, s, route, at)
    case Receive(id, answer, at) => Answered(cfg, s, id, answer, at)
    case Resume(id, at) => Resumed(cfg, s, id, at)
  }

  /** An interleaving: the states it goes through, from the initial one. */
  ghost predicate IsRun(cfg: Settings, states: seq<State>, events: seq<Event>) {
    && |states| == |events| + 1 && states[0] == INITIAL
    && forall i :: 0 <= i < |events| ==> Follows(cfg, states[i], events[i], states[i + 1])
  }

  ghost predicate Follows(cfg: Settings, s: State, e: Event, t: State) {
    Enabled(s, e) && t == Step(cfg, s, e)
  }

  // ---------------------------------------------------------------- the breaker is a function of the history

  /** The failures of `p` completed since its last success or timed reset. */
  function FailuresSince(log: seq<Outcome>, p: string): nat {
    if log == [] then 0
    else
      var n := |log| - 1;
      if log[n].provider != p then FailuresSince(log[..n], p)
      else if log[n].Failed? then FailuresSince(log[..n], p) + 1
      else 0
  }

  /** When the last of them completed. */
  function LastFailure(log: seq<Outcome>, p: string): Option<real> {
    if log == [] then None
    else
      var n := |log| - 1;
      if log[n].provider != p then LastFailure(log[..n], p)
      else if log[n].Failed? then Some(log[n].at)
      else None
  }

  function FromHistory(cfg: Settings, log: seq<Outcome>, p: string): Circuit {
    var n := FailuresSince(log, p);
    Circuit(n, if n >= cfg.threshold then LastFailure(log, p) else None)
  }

  ghost predicate Historical(cfg: Settings, s: State) {
    forall p :: s.CircuitOf(p) == FromHistory(cfg, s.log, p)
  }

  lemma {:induction false} HistoryStep(cfg: Settings, log: seq<Outcome>, o: Outcome, p: string)
    requires cfg.threshold >= 1
    ensures FromHistory(cfg, log + [o], p)
         == if o.provider != p then FromHistory(cfg, log, p)
            else if !o.Failed? then CLOSED
            else var n := FromHistory(cfg, log, p).failures + 1; Circuit(n, if n >= cfg.threshold then Some(o.at) else None)
  {
    assert (log + [o])[..|log|] == log;
  }

  lemma {:induction false} HistoryKept(cfg: Settings, s: State, t: State, o: Outcome)
    requires cfg.threshold >= 1 && Historical(cfg, s)
    requires t.log == s.log + [o] && t.circuits == s.circuits[o.provider := t.CircuitOf(o.provider)]
    requires t.CircuitOf(o.provider)
          == if !o.Failed? then CLOSED
             else var n := s.CircuitOf(o.provider).failures + 1;
                  Circuit(n, if n >= cfg.threshold then Some(o.at) else s.CircuitOf(o.provider).openedAt)
    ensures Historical(cfg, t)
  {
    forall p
      ensures t.CircuitOf(p) == FromHistory(cfg, t.log, p)
    {
      HistoryStep(cfg, s.log, o, p);
      assert s.CircuitOf(p) == FromHistory(cfg, s.log, p);
    }
  }

  lemma {:induction false} CheckIsHistorical(cfg: Settings, s: State, p: string, now: real)
    requires cfg.threshold >= 1 && Historical(cfg, s)
    ensures Historical(cfg, Checked(cfg, s, p, now))
  {
    var t := Checked(cfg, s, p, now);
    if t.log != s.log {
      HistoryKept(cfg, s, t, TimedReset(p, now));
    } else {
      forall q
        ensures t.CircuitOf(q) == FromHistory(cfg, t.log, q)
      {
        assert s.CircuitOf(q) == FromHistory(cfg, s.log, q);
      }
    }
  }

  lemma {:induction false} SameBreakers(cfg: Settings, s: State, t: State)
    requires Historical(cfg, s) && t.circuits == s.circuits && t.log == s.log
    ensures Historical(cfg, t)
  {
    forall p
      ensures t.CircuitOf(p) == FromHistory(cfg, t.log, p)
    {
      assert s.CircuitOf(p) == FromHistory(cfg, s.log, p);
    }
  }

  lemma {:induction false} AnswerIsHistorical(cfg: Settings, s: State, id: nat, a: Answer, now: real)
    requires cfg.threshold >= 1 && Historical(cfg, s) && id in s.flights
    ensures Historical(cfg, Answered(cfg, s, id, a, now))
  {
    var p, t := s.flights[id].provider, Answered(cfg, s, id, a, now);
    if t.log == s.log {
      SameBreakers(cfg, s, t);
    } else {
      HistoryKept(cfg, s, t, if a.ok && a.valid then Succeeded(p, now) else Failed(p, now));
    }
  }

  lemma {:induction false} StepIsHistorical(cfg: Settings, s: State, e: Event)
    requires cfg.threshold >= 1 && Historical(cfg, s) && Enabled(s, e)
    ensures Historical(cfg, Step(cfg, s, e))
  {
    match e {
      case Receive(id, a, at) => AnswerIsHistorical(cfg, s, id, a, at);
      case Begin(route, at) =>
        var t := s.(nextId := s.nextId + 1);
        SameBreakers(cfg, s, t);
        match Admission(s, route) {
          case Err(_) => SameBreakers(cfg, t, Step(cfg, s, e));
          case Ok(p) =>
            CheckIsHistorical(cfg, t, p, at);
            SameBreakers(cfg, Checked(cfg, t, p, at), Step(cfg, s, e));
        }
      case _ => SameBreakers(cfg, s, Step(cfg, s, e));
    }
  }

  lemma {:induction false} RunIsHistorical(cfg: Settings, states: seq<State>, events: seq<Event>, n: nat)
    requires cfg.threshold >= 1 && IsRun(cfg, states, events) && n <= |events|
    ensures Historical(cfg, states[n])
  {
    if n > 0 {
      RunIsHistorical(cfg, states, events, n - 1);
      assert Follows(cfg, states[n - 1], events[n - 1], states[n]);
      StepIsHistorical(cfg, states[n - 1], events[n - 1]);
    }
  }

  lemma {:induction false} FailuresHaveATime(log: seq<Outcome>, p: string)
    ensures FailuresSince(log, p) > 0 <==> LastFailure(log, p).Some?
  {
    if log != [] {
      FailuresHaveATime(log[..|log| - 1], p);
    }
  }

  /** In every interleaving the breaker of each provider is determined by what completed: its count is the
      failures since the last success or timed reset, it is open exactly from the threshold on, and its
      stamp is the last failure. */
  lemma {:induction false} BreakerReflectsHistory(cfg: Settings, states: seq<State>, events: seq<Event>, n: nat, p: string)
    requires cfg.threshold >= 1 && IsRun(cfg, states, events) && n <= |events|
    ensures var s := states[n]; var c := s.CircuitOf(p);
            && c.failures == FailuresSince(s.log, p)
            && (c.openedAt.Some? <==> c.failures >= cfg.threshold)
            && (c.openedAt.Some? ==> c.openedAt == LastFailure(s.log, p))
  {
    RunIsHistorical(cfg, states, events, n);
    assert states[n].CircuitOf(p) == FromHistory(cfg, states[n].log, p);
    FailuresHaveATime(states[n].log, p);
  }

  // ---------------------------------------------------------------- what the log decides

  /** By the log alone: enough failures of `p`, and the last of them less than the reset time ago. */
  predicate Tripped(cfg: Settings, log: seq<Outcome>, p: string, now: real) {
    && FailuresSince(log, p) >= cfg.threshold
    && LastFailure(log, p).Some? && now - LastFailure(log, p).value < cfg.resetSeconds
  }

  /** By the log alone: enough failures of `p`, but the last of them at least the reset time ago. */
  predicate Lapsed(cfg: Settings, log: seq<Outcome>, p: string, now: real) {
    && FailuresSince(log, p) >= cfg.threshold
    && LastFailure(log, p).Some? && now - LastFailure(log, p).value >= cfg.resetSeconds
  }

  /** The first call of an invocation has gone out to `p` under a closed breaker; no row is written. */
  ghost predicate SentOne(s: State, t: State, p: string, retries: nat, at: real) {
    && t.calls == s.calls + [TransportCall(s.nextId, 0, p, at, false)] && t.usage == s.usage
    && t.flights == s.flights[s.nextId := Flight(p, retries, 0, false)]
  }

  /** No call has gone out, and exactly the row with the error is written. */
  ghost predicate TurnedAway(s: State, t: State, error: ErrorCode) {
    t.calls == s.calls && t.usage == s.usage + [Usage(s.nextId, Some(error))] && t.flights == s.flights
  }

  /** The route is enabled, and its provider is known, enabled and has a key. */
  predicate Admits(s: State, route: string) {
    && route in s.routes && s.routes[route].enabled
    && s.routes[route].provider in s.providers
    && s.providers[s.routes[route].provider].enabled && s.providers[s.routes[route].provider].hasKey
  }

  lemma {:induction false} AdmissionIff(s: State, route: string)
    ensures Admission(s, route).Ok? <==> Admits(s, route)
    ensures Admits(s, route) ==> Admission(s, route).value == s.routes[route].provider
  {
  }

  lemma {:induction false} BreakerIsTheLog(cfg: Settings, s: State, p: string, now: real)
    requires cfg.threshold >= 1 && Historical(cfg, s)
    ensures IsOpen(cfg, s.CircuitOf(p), now) <==> Tripped(cfg, s.log, p, now)
    ensures Expired(cfg, s.CircuitOf(p), now) <==> Lapsed(cfg, s.log, p, now)
    ensures s.CircuitOf(p).openedAt.Some? <==> Tripped(cfg, s.log, p, now) || Lapsed(cfg, s.log, p, now)
  {
    assert s.CircuitOf(p) == FromHistory(cfg, s.log, p);
    FailuresHaveATime(s.log, p);
  }

  lemma {:induction false} BegunOnByBreaker(cfg: Settings, s: State, u: State, p: string, retries: nat, at: real)
    requires u == s.(nextId := s.nextId + 1)
    ensures var t := BegunOn(cfg, u, s.nextId, p, retries, at);
            && (IsOpen(cfg, s.CircuitOf(p), at) ==> TurnedAway(s, t, CIRCUIT_OPEN))
            && (!IsOpen(cfg, s.CircuitOf(p), at) ==> SentOne(s, t, p, retries, at))
            && t.log == s.log + if Expired(cfg, s.CircuitOf(p), at) then [TimedReset(p, at)] else []
  {
    var v := Checked(cfg, u, p, at);
    assert v.CircuitOf(p) == if Expired(cfg, s.CircuitOf(p), at) then CLOSED else s.CircuitOf(p);
    assert v.calls == s.calls && v.usage == s.usage && v.flights == s.flights;
  }

  /** Over every run, an invocation on an admitted route is turned away exactly when the log says that enough
      failures completed since the last success or timed reset, the last of them less than the reset time ago;
      any other sends exactly one call. A timed reset is logged exactly when they are all that old. */
  lemma {:induction false} BeginFollowsTheLog(cfg: Settings, states: seq<State>, events: seq<Event>, n: nat)
    requires cfg.threshold >= 1 && IsRun(cfg, states, events) && n < |events| && events[n].Begin?
    requires Admits(states[n], events[n].route)
    ensures var s, t, at := states[n], states[n + 1], events[n].at; var p := s.routes[events[n].route].provider;
            && (Tripped(cfg, s.log, p, at) ==> TurnedAway(s, t, CIRCUIT_OPEN))
            && (!Tripped(cfg, s.log, p, at) ==> SentOne(s, t, p, s.providers[p].maxRetries, at))
            && t.log == s.log + if Lapsed(cfg, s.log, p, at) then [TimedReset(p, at)] else []
  {
    hide BegunOn;
    hide IsOpen;
    hide Expired;
    hide Tripped;
    hide Lapsed;
    hide Admits;
    var s, route, at := states[n], events[n].route, events[n].at;
    AdmissionIff(s, route);
    RunIsHistorical(cfg, states, events, n);
    assert Follows(cfg, s, events[n], states[n + 1]);
    var p := Admission(s, route).value;
    BreakerIsTheLog(cfg, s, p, at);
    BegunOnByBreaker(cfg, s, s.(nextId := s.nextId + 1), p, s.providers[p].maxRetries, at);
  }

  /** An invocation on any other route is turned away with its reason, in every run. */
  lemma {:induction false} RefusedRoutesAreReported(cfg: Settings, states: seq<State>, events: seq<Event>, n: nat)
    requires IsRun(cfg, states, events) && n < |events| && events[n].Begin?
    requires !Admits(states[n], events[n].route)
    ensures var s, t, route := states[n], states[n + 1], events[n].route;
            && t.log == s.log
            && (route !in s.routes || !s.routes[route].enabled ==> TurnedAway(s, t, UNKNOWN_ROUTE))
            && (route in s.routes && s.routes[route].enabled ==>
                  var p := s.routes[route].provider;
                  && (p !in s.providers || (s.providers[p].enabled && !s.providers[p].hasKey) ==> TurnedAway(s, t, NOT_CONFIGURED))
                  && (p in s.providers && !s.providers[p].enabled ==> TurnedAway(s, t, DISABLED_PROVIDER)))
  {
    assert Follows(cfg, states[n], events[n], states[n + 1]);
  }

  ghost predicate ResetIsLate(cfg: Settings, log: seq<Outcome>, i: nat)
    requires i < |log|
  {
    log[i].TimedReset? ==> Lapsed(cfg, log[..i], log[i].provider, log[i].at)
  }

  lemma {:induction false} LogGrowsBy(cfg: Settings, log: seq<Outcome>, more: seq<Outcome>)
    requires |more| <= 1 && forall i :: 0 <= i < |log| ==> ResetIsLate(cfg, log, i)
    requires forall o :: o in more && o.TimedReset? ==> Lapsed(cfg, log, o.provider, o.at)
    ensures forall i :: 0 <= i < |log + more| ==> ResetIsLate(cfg, log + more, i)
  {
    hide Lapsed;
    forall i | 0 <= i < |log + more|
      ensures ResetIsLate(cfg, log + more, i)
    {
      assert i < |log| ==> ResetIsLate(cfg, log, i) && (log + more)[..i] == log[..i];
      assert i == |log| ==> (log + more)[..i] == log && more[0] in more;
    }
  }

  // ---------------------------------------------------------------- what an answer decides

  /** The error an answer is reported with, if any. */
  function ErrorOf(a: Answer): Option<ErrorCode> {
    if !a.ok then Some(a.error.GetOr(PROVIDER_UNAVAILABLE)) else if !a.valid then Some(INVALID_RESPONSE) else None
  }

  /** After this answer the invocation tries again. */
  predicate TriesAgain(f: Flight, a: Answer) {
    !a.ok && a.retryable && f.attempt < f.maxRetries
  }

  function OutcomeOf(p: string, a: Answer, at: real): Outcome {
    if ErrorOf(a).None? then Succeeded(p, at) else Failed(p, at)
  }

  ghost predicate AnsweredAs(s: State, t: State, id: nat, a: Answer, at: real)
    requires id in s.flights
  {
    var f := s.flights[id];
    if TriesAgain(f, a) then
      t.flights == s.flights[id := f.(sleeping := true)] && t.log == s.log && t.usage == s.usage
    else
      && t.flights == s.flights - {id} && t.log == s.log + [OutcomeOf(f.provider, a, at)]
      && t.usage == s.usage + [Usage(id, ErrorOf(a))]
  }

  lemma {:induction false} AnsweredEffect(cfg: Settings, s: State, id: nat, a: Answer, at: real)
    requires id in s.flights
    ensures var t := Answered(cfg, s, id, a, at); t.calls == s.calls && AnsweredAs(s, t, id, a, at)
  {
  }

  /** In every run an answer makes its invocation sleep, if it is a retryable failure with attempts left; else it
      ends it, with one row that carries the error of the answer, and counts as one outcome of the provider. */
  lemma {:induction false} AnswersDecide(cfg: Settings, states: seq<State>, events: seq<Event>, n: nat)
    requires IsRun(cfg, states, events) && n < |events| && events[n].Receive?
    ensures var s, t, id, a := states[n], states[n + 1], events[n].id, events[n].answer;
            && id in s.flights && t.calls == s.calls && AnsweredAs(s, t, id, a, events[n].at)
  {
    hide Answered;
    hide AnsweredAs;
    assert Follows(cfg, states[n], events[n], states[n + 1]);
    AnsweredEffect(cfg, states[n], events[n].id, events[n].answer, events[n].at);
  }

  /** What a step adds to the log. */
  lemma {:induction false} StepLog(cfg: Settings, states: seq<State>, events: seq<Event>, n: nat) returns (more: seq<Outcome>)
    requires cfg.threshold >= 1 && IsRun(cfg, states, events) && n < |events|
    ensures states[n + 1].log == states[n].log + more && |more| <= 1
    ensures forall o :: o in more && o.TimedReset? ==> Lapsed(cfg, states[n].log, o.provider, o.at)
  {
    hide Lapsed;
    var s, e := states[n], events[n];
    assert Follows(cfg, s, e, states[n + 1]);
    more := [];
    match e {
      case Begin(route, at) =>
        AdmissionIff(s, route);
        if Admission(s, route).Ok? {
          BeginFollowsTheLog(cfg, states, events, n);
          var p := Admission(s, route).value;
          more := if Lapsed(cfg, s.log, p, at) then [TimedReset(p, at)] else [];
        }
      case Receive(id, a, at) =>
        AnswersDecide(cfg, states, events, n);
        more := if TriesAgain(s.flights[id], a) then [] else [OutcomeOf(s.flights[id].provider, a, at)];
      case _ =>
    }
    assert s.log + [] == s.log;
  }

  /** In every reachable log a timed reset comes at least the reset time after the last failure before it, and
      after at least as many failures as trip the breaker. */
  lemma {:induction false} TimedResetsAreLate(cfg: Settings, states: seq<State>, events: seq<Event>, n: nat)
    requires cfg.threshold >= 1 && IsRun(cfg, states, events) && n <= |events|
    ensures forall i :: 0 <= i < |states[n].log| ==> ResetIsLate(cfg, states[n].log, i)
  {
    if n > 0 {
      TimedResetsAreLate(cfg, states, events, n - 1);
      var more := StepLog(cfg, states, events, n - 1);
      LogGrowsBy(cfg, states[n - 1].log, more);
    }
  }

  // ---------------------------------------------------------------- what beginning an invocation does

  /** The invocation got an error row and nothing else. */
  ghost predicate Refused(s: State, t: State) {
    && t.nextId == s.nextId + 1 && t.answers == s.answers
    && t.flights == s.flights && t.limits == s.limits && t.calls == s.calls
    && |t.usage| == |s.usage| + 1 && t.usage == s.usage + [Usage(s.nextId, t.usage[|s.usage|].error)]
  }

  /** The invocation is in flight on `p` with its first call out, under a breaker that is not set. */
  ghost predicate Admitted(s: State, t: State, p: string) {
    && t.nextId == s.nextId + 1 && t.answers == s.answers && t.usage == s.usage
    && s.nextId in t.flights
    && (var f := t.flights[s.nextId];
        && f.provider == p && f.attempt == 0 && !f.sleeping
        && t.flights == s.flights[s.nextId := f] && t.limits == s.limits[s.nextId := f.maxRetries])
    && |t.calls| == |s.calls| + 1 && t.calls[..|s.calls|] == s.calls
    && t.calls[|s.calls|].invocation == s.nextId && t.calls[|s.calls|].attempt == 0 && !t.calls[|s.calls|].open
    && t.CircuitOf(p).openedAt.None?
  }

  lemma {:induction false} RefusedBy(s: State, u: State, e: ErrorCode)
    requires u.nextId == s.nextId + 1 && u.answers == s.answers && u.flights == s.flights && u.limits == s.limits
    requires u.calls == s.calls && u.usage == s.usage
    ensures Refused(s, Report(u, s.nextId, Some(e)))
  {
  }

  lemma {:induction false} AdmittedBy(cfg: Settings, s: State, u: State, p: string, retries: nat, now: real)
    requires u.nextId == s.nextId + 1 && u.answers == s.answers && u.flights == s.flights && u.limits == s.limits
    requires u.calls == s.calls && u.usage == s.usage && u.CircuitOf(p).openedAt.None?
    ensures Admitted(s, CallOut(cfg, u.(limits := u.limits[s.nextId := retries]), s.nextId, Flight(p, retries, 0, false), now), p)
  {
  }

  lemma {:induction false} CheckedFrame(cfg: Settings, s: State, p: string, now: real)
    ensures var u := Checked(cfg, s, p, now);
            && u.nextId == s.nextId && u.answers == s.answers && u.flights == s.flights && u.limits == s.limits
            && u.calls == s.calls && u.usage == s.usage
            && (forall q :: q != p ==> u.CircuitOf(q) == s.CircuitOf(q))
  {
  }

  lemma {:induction false} BegunOnEffect(cfg: Settings, s: State, u: State, p: string, retries: nat, now: real)
    requires u.nextId == s.nextId + 1 && u.answers == s.answers && u.flights == s.flights && u.limits == s.limits
    requires u.calls == s.calls && u.usage == s.usage && u.circuits == s.circuits
    ensures var t := BegunOn(cfg, u, s.nextId, p, retries, now);
            (Refused(s, t) || Admitted(s, t, p)) && forall q :: q != p ==> t.CircuitOf(q) == s.CircuitOf(q)
  {
    CheckedFrame(cfg, u, p, now);
    var v := Checked(cfg, u, p, now);
    if v.CircuitOf(p).openedAt.Some? {
      RefusedBy(s, v, CIRCUIT_OPEN);
    } else {
      AdmittedBy(cfg, s, v, p, retries, now);
    }
  }

  /** `t` is `s` after an invocation was begun on the route, seen from outside. */
  ghost predicate BeganOn(s: State, t: State, admission: Result<string, ErrorCode>) {
    if admission.Err? then Refused(s, t) && t.circuits == s.circuits
    else (Refused(s, t) || Admitted(s, t, admission.value)) && forall q :: q != admission.value ==> t.CircuitOf(q) == s.CircuitOf(q)
  }

  lemma {:induction false} BeginEffect(cfg: Settings, s: State, route: string, now: real)
    ensures BeganOn(s, Begun(cfg, s, route, now), Admission(s, route))
  {
    hide Refused;
    hide Admitted;
    hide BegunOn;
    var u := s.(nextId := s.nextId + 1);
    var admission := Admission(s, route);
    if admission.Err? {
      RefusedBy(s, u, admission.error);
      assert Begun(cfg, s, route, now) == Report(u, s.nextId, Some(admission.error));
    } else {
      var retries := s.providers[admission.value].maxRetries;
      BegunOnEffect(cfg, s, u, admission.value, retries, now);
      assert Begun(cfg, s, route, now) == BegunOn(cfg, u, s.nextId, admission.value, retries, now);
    }
  }

  // ---------------------------------------------------------------- calls and usage rows of one invocation

  function CallsOf(calls: seq<TransportCall>, id: nat): nat {
    if calls == [] then 0 else CallsOf(calls[..|calls| - 1], id) + if calls[|calls| - 1].invocation == id then 1 else 0
  }

  function RowsOf(usage: seq<Usage>, id: nat): nat {
    if usage == [] then 0 else RowsOf(usage[..|usage| - 1], id) + if usage[|usage| - 1].invocation == id then 1 else 0
  }

  lemma {:induction false} CallsOfSnoc(calls: seq<TransportCall>, c: TransportCall, id: nat)
    ensures CallsOf(calls + [c], id) == CallsOf(calls, id) + if c.invocation == id then 1 else 0
  {
    assert (calls + [c])[..|calls|] == calls;
  }

  lemma {:induction false} RowsOfSnoc(usage: seq<Usage>, u: Usage, id: nat)
    ensures RowsOf(usage + [u], id) == RowsOf(usage, id) + if u.invocation == id then 1 else 0
  {
    assert (usage + [u])[..|usage|] == usage;
  }

  /** Everything a state records of one invocation. */
  datatype Standing = Standing(begun: bool, flight: Option<Flight>, limit: Option<nat>, rows: nat, calls: nat)

  function StandingOf(s: State, id: nat): Standing {
    Standing(id < s.nextId, if id in s.flights then Some(s.flights[id]) else None,
             if id in s.limits then Some(s.limits[id]) else None, RowsOf(s.usage, id), CallsOf(s.calls, id))
  }

  /** Not begun, in flight, or over. */
  predicate Regular(st: Standing) {
    if st.flight.Some? then
      var f := st.flight.value;
      && st.begun && st.limit == Some(f.maxRetries) && st.calls == f.attempt + 1 && st.rows == 0
      && f.attempt <= f.maxRetries && (f.sleeping ==> f.attempt < f.maxRetries)
    else if st.begun then
      st.rows == 1 && st.calls <= if st.limit.Some? then st.limit.value + 1 else 0
    else
      st.rows == 0 && st.calls == 0 && st.limit.None?
  }

  ghost predicate AllRegular(s: State) {
    forall id :: Regular(StandingOf(s, id))
  }

  lemma {:induction false} ReportStanding(s: State, who: nat, error: Option<ErrorCode>, id: nat)
    ensures StandingOf(Report(s, who, error), id)
         == var st := StandingOf(s, id); if id == who then st.(rows := st.rows + 1) else st
  {
    RowsOfSnoc(s.usage, Usage(who, error), id);
  }

  lemma {:induction false} CallOutStanding(cfg: Settings, s: State, who: nat, f: Flight, now: real, id: nat)
    ensures StandingOf(CallOut(cfg, s, who, f, now), id)
         == var st := StandingOf(s, id); if id == who then st.(calls := st.calls + 1, flight := Some(f)) else st
  {
    CallsOfSnoc(s.calls, CallOut(cfg, s, who, f, now).calls[|s.calls|], id);
  }

  lemma {:induction false} RefusedKeepsRegular(s: State, t: State, id: nat)
    requires Refused(s, t) && Regular(StandingOf(s, id)) && Regular(StandingOf(s, s.nextId))
    ensures Regular(StandingOf(t, id))
  {
    RowsOfSnoc(s.usage, t.usage[|s.usage|], id);
  }

  lemma {:induction false} AdmittedKeepsRegular(s: State, t: State, p: string, id: nat)
    requires Admitted(s, t, p) && Regular(StandingOf(s, id)) && Regular(StandingOf(s, s.nextId))
    ensures Regular(StandingOf(t, id))
  {
    assert t.calls == s.calls + [t.calls[|s.calls|]];
    CallsOfSnoc(s.calls, t.calls[|s.calls|], id);
  }

  lemma {:induction false} BeginKeepsRegular(cfg: Settings, s: State, route: string, now: real, id: nat)
    requires Regular(StandingOf(s, id)) && Regular(StandingOf(s, s.nextId))
    ensures Regular(StandingOf(Begun(cfg, s, route, now), id))
  {
    var t := Begun(cfg, s, route, now);
    BeginEffect(cfg, s, route, now);
    if Refused(s, t) {
      RefusedKeepsRegular(s, t, id);
    } else {
      AdmittedKeepsRegular(s, t, Admission(s, route).value, id);
    }
  }

  lemma {:induction false} ReceiveKeepsRegular(cfg: Settings, s: State, who: nat, a: Answer, now: real, id: nat)
    requires Regular(StandingOf(s, id)) && Regular(StandingOf(s, who)) && who in s.flights && !s.flights[who].sleeping
    ensures Regular(StandingOf(Answered(cfg, s, who, a, now), id))
  {
    hide CallsOf;
    hide RowsOf;
    var f := s.flights[who];
    var t := s.(answers := s.answers[(who, f.attempt) := a]);
    var u := t.(flights := t.flights - {who});
    var failed, succeeded := RecordFailure(cfg, u, f.provider, now), RecordSuccess(u, f.provider, now);
    assert StandingOf(failed, id) == StandingOf(succeeded, id) == StandingOf(u, id);
    ReportStanding(failed, who, Some(a.error.GetOr(PROVIDER_UNAVAILABLE)), id);
    ReportStanding(failed, who, Some(INVALID_RESPONSE), id);
    ReportStanding(succeeded, who, None, id);
  }

  lemma {:induction false} ResumeKeepsRegular(cfg: Settings, s: State, who: nat, now: real, id: nat)
    requires Regular(StandingOf(s, id)) && who in s.flights && s.flights[who].sleeping
    ensures Regular(StandingOf(Resumed(cfg, s, who, now), id))
  {
    CallOutStanding(cfg, s, who, s.flights[who].(attempt := s.flights[who].attempt + 1, sleeping := false), now, id);
  }

  lemma {:induction false} StepKeepsRegular(cfg: Settings, s: State, e: Event, id: nat)
    requires AllRegular(s) && Enabled(s, e)
    ensures Regular(StandingOf(Step(cfg, s, e), id))
  {
    assert Regular(StandingOf(s, id));
    match e {
      case Reload(providers, routes) => assert StandingOf(Step(cfg, s, e), id) == StandingOf(s, id);
      case Begin(route, at) =>
        assert Regular(StandingOf(s, s.nextId));
        BeginKeepsRegular(cfg, s, route, at, id);
      case Receive(who, a, at) =>
        assert Regular(StandingOf(s, who));
        ReceiveKeepsRegular(cfg, s, who, a, at, id);
      case Resume(who, at) => ResumeKeepsRegular(cfg, s, who, at, id);
    }
  }

  lemma {:induction false} RunKeepsRegular(cfg: Settings, states: seq<State>, events: seq<Event>, n: nat)
    requires IsRun(cfg, states, events) && n <= |events|
    ensures AllRegular(states[n])
  {
    if n > 0 {
      RunKeepsRegular(cfg, states, events, n - 1);
      assert Follows(cfg, states[n - 1], events[n - 1], states[n]);
      forall id
        ensures Regular(StandingOf(states[n], id))
      {
        StepKeepsRegular(cfg, states[n - 1], events[n - 1], id);
      }
    }
  }

  /** In every interleaving each invocation that is over has written exactly one usage row, a running one
      none, and none makes more transport calls than its retries allow. */
  lemma {:induction false} EveryInvocationReportsOnce(cfg: Settings, states: seq<State>, events: seq<Event>, n: nat, id: nat)
    requires IsRun(cfg, states, events) && n <= |events|
    ensures var s := states[n];
            && RowsOf(s.usage, id) == (if id < s.nextId && id !in s.flights then 1 else 0)
            && CallsOf(s.calls, id) <= if id in s.limits then s.limits[id] + 1 else 0
  {
    RunKeepsRegular(cfg, states, events, n);
    assert Regular(StandingOf(states[n], id));
  }

  // ---------------------------------------------------------------- retries

  /** Attempt `k` of the invocation was answered by a failure worth retrying. */
  predicate RetryableAt(answers: map<(nat, nat), Answer>, id: nat, k: nat) {
    (id, k) in answers && !answers[(id, k)].ok && answers[(id, k)].retryable
  }

  /** Every attempt before the `n`th failed in a retryable way. */
  ghost predicate Retryable(s: State, id: nat, n: nat) {
    forall k :: 0 <= k < n ==> RetryableAt(s.answers, id, k)
  }

  /** The call was earned by the attempts before it. */
  ghost predicate Earned(s: State, c: TransportCall) {
    && c.invocation < s.nextId
    && Retryable(s, c.invocation, c.attempt)
    && (c.invocation in s.flights ==> c.attempt <= s.flights[c.invocation].attempt)
  }

  /** A running invocation earned the attempt it is at, and a sleeping one the next. */
  ghost predicate FlightEarned(s: State, id: nat) {
    id in s.flights ==> Retryable(s, id, s.flights[id].attempt + if s.flights[id].sleeping then 1 else 0)
  }

  ghost predicate AllEarned(s: State) {
    && (forall i :: 0 <= i < |s.calls| ==> Earned(s, s.calls[i]))
    && (forall id :: FlightEarned(s, id))
    && (forall id :: id in s.flights ==> id < s.nextId)
  }

  lemma {:induction false} AdmittedKeepsEarned(s: State, t: State, p: string)
    requires Admitted(s, t, p) && AllEarned(s)
    ensures AllEarned(t)
  {
    assert s.nextId !in s.flights;
    forall i | 0 <= i < |t.calls|
      ensures Earned(t, t.calls[i])
    {
      assert i < |s.calls| ==> t.calls[i] == t.calls[..|s.calls|][i] && Earned(s, s.calls[i]);
    }
    forall id
      ensures FlightEarned(t, id)
    {
      assert FlightEarned(s, id);
    }
  }

  lemma {:induction false} BeginKeepsEarned(cfg: Settings, s: State, route: string, now: real)
    requires AllEarned(s)
    ensures AllEarned(Begun(cfg, s, route, now))
  {
    var t := Begun(cfg, s, route, now);
    BeginEffect(cfg, s, route, now);
    if Refused(s, t) {
      assert forall i :: 0 <= i < |s.calls| && Earned(s, s.calls[i]) ==> Earned(t, t.calls[i]);
      assert forall id :: FlightEarned(s, id) ==> FlightEarned(t, id);
    } else {
      AdmittedKeepsEarned(s, t, Admission(s, route).value);
    }
  }

  /** An answer to attempt `k` leaves the answers to the attempts before it. */
  lemma {:induction false} AnswerKeepsRetryable(s: State, t: State, who: nat, k: nat, a: Answer, id: nat, n: nat)
    requires t.answers == s.answers[(who, k) := a] && Retryable(s, id, n)
    requires id == who ==> n <= k
    ensures Retryable(t, id, n)
  {
    forall l | 0 <= l < n
      ensures RetryableAt(t.answers, id, l)
    {
      assert RetryableAt(s.answers, id, l);
    }
  }

  lemma {:induction false} ReceiveKeepsEarned(cfg: Settings, s: State, who: nat, a: Answer, now: real)
    requires AllEarned(s) && who in s.flights && !s.flights[who].sleeping
    ensures AllEarned(Answered(cfg, s, who, a, now))
  {
    var t, k := Answered(cfg, s, who, a, now), s.flights[who].attempt;
    assert t.calls == s.calls && t.nextId == s.nextId && t.answers == s.answers[(who, k) := a];
    assert t.flights == s.flights - {who}
        || (t.flights == s.flights[who := s.flights[who].(sleeping := true)] && RetryableAt(t.answers, who, k));
    forall i | 0 <= i < |t.calls|
      ensures Earned(t, t.calls[i])
    {
      assert Earned(s, s.calls[i]);
      AnswerKeepsRetryable(s, t, who, k, a, s.calls[i].invocation, s.calls[i].attempt);
    }
    forall id
      ensures FlightEarned(t, id)
    {
      assert FlightEarned(s, id);
      if id in s.flights {
        var f := s.flights[id];
        AnswerKeepsRetryable(s, t, who, k, a, id, f.attempt + if f.sleeping then 1 else 0);
      }
    }
  }

  lemma {:induction false} ResumeKeepsEarned(cfg: Settings, s: State, who: nat, now: real)
    requires AllEarned(s) && who in s.flights && s.flights[who].sleeping
    ensures AllEarned(Resumed(cfg, s, who, now))
  {
    var t := Resumed(cfg, s, who, now);
    assert FlightEarned(s, who);
    forall i | 0 <= i < |t.calls|
      ensures Earned(t, t.calls[i])
    {
      assert i < |s.calls| ==> t.calls[i] == s.calls[i] && Earned(s, s.calls[i]);
    }
    forall id
      ensures FlightEarned(t, id)
    {
      assert FlightEarned(s, id);
    }
  }

  lemma {:induction false} RunIsEarned(cfg: Settings, states: seq<State>, events: seq<Event>, n: nat)
    requires IsRun(cfg, states, events) && n <= |events|
    ensures AllEarned(states[n])
  {
    if n > 0 {
      RunIsEarned(cfg, states, events, n - 1);
      var s, e := states[n - 1], events[n - 1];
      assert Follows(cfg, s, e, states[n]);
      match e {
        case Reload(providers, routes) =>
          assert forall i :: 0 <= i < |s.calls| ==> Earned(s, s.calls[i]);
          assert forall id :: FlightEarned(s, id) ==> FlightEarned(states[n], id);
        case Begin(route, at) => BeginKeepsEarned(cfg, s, route, at);
        case Receive(who, a, at) => ReceiveKeepsEarned(cfg, s, who, a, at);
        case Resume(who, at) => ResumeKeepsEarned(cfg, s, who, at);
      }
    }
  }

  ghost predicate NumberedAt(calls: seq<TransportCall>, i: nat)
    requires i < |calls|
  {
    calls[i].attempt == CallsOf(calls[..i], calls[i].invocation)
  }

  /** The calls of each invocation carry the attempts 0, 1, 2 and so on. */
  ghost predicate Numbered(calls: seq<TransportCall>) {
    forall i :: 0 <= i < |calls| ==> NumberedAt(calls, i)
  }

  lemma {:induction false} NumberedSnoc(calls: seq<TransportCall>, c: TransportCall)
    requires Numbered(calls) && c.attempt == CallsOf(calls, c.invocation)
    ensures Numbered(calls + [c])
  {
    forall i | 0 <= i < |calls + [c]|
      ensures NumberedAt(calls + [c], i)
    {
      if i < |calls| {
        assert NumberedAt(calls, i) && (calls + [c])[..i] == calls[..i];
      } else {
        assert (calls + [c])[..i] == calls;
      }
    }
  }

  lemma {:induction false} StepKeepsNumbered(cfg: Settings, s: State, e: Event)
    requires AllRegular(s) && Numbered(s.calls) && Enabled(s, e)
    ensures Numbered(Step(cfg, s, e).calls)
  {
    var t := Step(cfg, s, e);
    match e {
      case Begin(route, at) =>
        BeginEffect(cfg, s, route, at);
        if !Refused(s, t) {
          assert Regular(StandingOf(s, s.nextId));
          assert t.calls == s.calls + [t.calls[|s.calls|]];
          NumberedSnoc(s.calls, t.calls[|s.calls|]);
        }
      case Resume(who, at) =>
        assert Regular(StandingOf(s, who));
        NumberedSnoc(s.calls, t.calls[|s.calls|]);
      case _ =>
    }
  }

  lemma {:induction false} RunIsNumbered(cfg: Settings, states: seq<State>, events: seq<Event>, n: nat)
    requires IsRun(cfg, states, events) && n <= |events|
    ensures Numbered(states[n].calls)
  {
    if n > 0 {
      RunIsNumbered(cfg, states, events, n - 1);
      RunKeepsRegular(cfg, states, events, n - 1);
      assert Follows(cfg, states[n - 1], events[n - 1], states[n]);
      StepKeepsNumbered(cfg, states[n - 1], events[n - 1]);
    }
  }

  lemma {:induction false} CallsOfGrows(calls: seq<TransportCall>, m: nat, n: nat, id: nat)
    requires m <= n <= |calls|
    ensures CallsOf(calls[..m], id) <= CallsOf(calls[..n], id)
  {
    if m < n {
      CallsOfGrows(calls, m, n - 1, id);
      assert calls[..n][..n - 1] == calls[..n - 1];
    }
  }

  /** A later call of the same invocation carries a later attempt. */
  lemma {:induction false} AttemptsGrow(calls: seq<TransportCall>, i: nat, j: nat)
    requires Numbered(calls) && i < j < |calls| && calls[i].invocation == calls[j].invocation
    ensures calls[i].attempt < calls[j].attempt
  {
    assert NumberedAt(calls, i) && NumberedAt(calls, j);
    assert calls[..i + 1] == calls[..i] + [calls[i]];
    CallsOfSnoc(calls[..i], calls[i], calls[i].invocation);
    CallsOfGrows(calls, i + 1, j, calls[i].invocation);
  }

  predicate IsLastCall(calls: seq<TransportCall>, i: nat)
    requires i < |calls|
  {
    forall j :: i < j < |calls| ==> calls[j].invocation != calls[i].invocation
  }

  /** In every interleaving the calls of an invocation are its attempts in order, and every call but the last was
      answered, at its own attempt, by a retryable failure. */
  lemma {:induction false} RetriesFollowRetryableFailures(cfg: Settings, states: seq<State>, events: seq<Event>, n: nat)
    requires IsRun(cfg, states, events) && n <= |events|
    ensures var s := states[n];
            && Numbered(s.calls)
            && forall i :: 0 <= i < |s.calls| && !IsLastCall(s.calls, i) ==>
                 RetryableAt(s.answers, s.calls[i].invocation, s.calls[i].attempt)
  {
    RunIsEarned(cfg, states, events, n);
    RunIsNumbered(cfg, states, events, n);
    var s := states[n];
    forall i | 0 <= i < |s.calls| && !IsLastCall(s.calls, i)
      ensures RetryableAt(s.answers, s.calls[i].invocation, s.calls[i].attempt)
    {
      var j :| i < j < |s.calls| && s.calls[j].invocation == s.calls[i].invocation;
      AttemptsGrow(s.calls, i, j);
      assert Earned(s, s.calls[j]);
    }
  }

  // ---------------------------------------------------------------- how an invocation ends

  /** The invocation was admitted and is over. */
  predicate Ended(s: State, id: nat) {
    id < s.nextId && id in s.limits && id !in s.flights
  }

  /** Its last call was answered, the answer left nothing to retry, and it is what the usage row reports. */
  ghost predicate EndedBy(s: State, id: nat, k: nat) {
    && (id, k) in s.answers && Usage(id, ErrorOf(s.answers[(id, k)])) in s.usage
    && (s.answers[(id, k)].ok || !s.answers[(id, k)].retryable || (id in s.limits && k >= s.limits[id]))
  }

  ghost predicate EndedWell(s: State, id: nat) {
    Ended(s, id) ==> CallsOf(s.calls, id) > 0 && EndedBy(s, id, CallsOf(s.calls, id) - 1)
  }

  ghost predicate AllEndedWell(s: State) {
    forall id :: EndedWell(s, id)
  }

  /** A step that leaves alone what is recorded of an invocation that is over. */
  lemma {:induction false} OthersStayEnded(s: State, t: State, id: nat)
    requires EndedWell(s, id) && (Ended(t, id) ==> Ended(s, id))
    requires Ended(s, id) ==> CallsOf(t.calls, id) == CallsOf(s.calls, id)
    requires id in s.limits ==> id in t.limits && t.limits[id] == s.limits[id]
    requires s.usage <= t.usage && forall k :: (id, k) in s.answers ==> (id, k) in t.answers && t.answers[(id, k)] == s.answers[(id, k)]
    ensures EndedWell(t, id)
  {
    if Ended(t, id) {
      var k := CallsOf(s.calls, id) - 1;
      assert Usage(id, ErrorOf(s.answers[(id, k)])) in t.usage;
    }
  }

  lemma {:induction false} BeginKeepsEnded(cfg: Settings, s: State, route: string, now: real, id: nat)
    requires EndedWell(s, id) && Regular(StandingOf(s, id)) && Regular(StandingOf(s, s.nextId))
    ensures EndedWell(Begun(cfg, s, route, now), id)
  {
    hide Begun;
    var t := Begun(cfg, s, route, now);
    BeginEffect(cfg, s, route, now);
    assert s.nextId !in s.limits;
    if Refused(s, t) {
      OthersStayEnded(s, t, id);
    } else if id != s.nextId {
      assert t.calls == s.calls + [t.calls[|s.calls|]];
      CallsOfSnoc(s.calls, t.calls[|s.calls|], id);
      OthersStayEnded(s, t, id);
    }
  }

  lemma {:induction false} ReceiveKeepsEnded(cfg: Settings, s: State, who: nat, a: Answer, now: real, id: nat)
    requires EndedWell(s, id) && Regular(StandingOf(s, who)) && who in s.flights && !s.flights[who].sleeping
    ensures EndedWell(Answered(cfg, s, who, a, now), id)
  {
    var t, f := Answered(cfg, s, who, a, now), s.flights[who];
    assert t.calls == s.calls && t.limits == s.limits && t.nextId == s.nextId && t.answers == s.answers[(who, f.attempt) := a];
    if id == who {
      assert CallsOf(s.calls, who) == f.attempt + 1 && s.limits[who] == f.maxRetries;
      assert Ended(t, who) ==> t.usage == s.usage + [Usage(who, ErrorOf(a))] && !TriesAgain(f, a);
      assert Ended(t, who) ==> EndedBy(t, who, f.attempt);
    } else {
      assert s.usage <= t.usage;
      OthersStayEnded(s, t, id);
    }
  }

  lemma {:induction false} ResumeKeepsEnded(cfg: Settings, s: State, who: nat, now: real, id: nat)
    requires EndedWell(s, id) && who in s.flights
    ensures EndedWell(Resumed(cfg, s, who, now), id)
  {
    var t := Resumed(cfg, s, who, now);
    CallsOfSnoc(s.calls, t.calls[|s.calls|], id);
    OthersStayEnded(s, t, id);
  }

  lemma {:induction false} StepKeepsEnded(cfg: Settings, s: State, e: Event, id: nat)
    requires AllEndedWell(s) && AllRegular(s) && Enabled(s, e)
    ensures EndedWell(Step(cfg, s, e), id)
  {
    hide EndedWell;
    hide Regular;
    assert EndedWell(s, id) && Regular(StandingOf(s, id));
    match e {
      case Reload(_, _) => ReloadKeepsEnded(s, Step(cfg, s, e), id);
      case Begin(route, at) =>
        assert Regular(StandingOf(s, s.nextId));
        BeginKeepsEnded(cfg, s, route, at, id);
      case Receive(who, a, at) =>
        assert Regular(StandingOf(s, who));
        ReceiveKeepsEnded(cfg, s, who, a, at, id);
      case Resume(who, at) => ResumeKeepsEnded(cfg, s, who, at, id);
    }
  }

  lemma {:induction false} ReloadKeepsEnded(s: State, t: State, id: nat)
    requires EndedWell(s, id) && t == s.(providers := t.providers, routes := t.routes)
    ensures EndedWell(t, id)
  {
    OthersStayEnded(s, t, id);
  }

  /** In every interleaving an admitted invocation that is over made at least one call, its last call was answered,
      that answer was no retryable failure with attempts left, and its usage row reports exactly that answer. */
  lemma {:induction false} UsageReportsTheLastAnswer(cfg: Settings, states: seq<State>, events: seq<Event>, n: nat)
    requires IsRun(cfg, states, events) && n <= |events|
    ensures AllEndedWell(states[n])
  {
    if n > 0 {
      UsageReportsTheLastAnswer(cfg, states, events, n - 1);
      RunKeepsRegular(cfg, states, events, n - 1);
      assert Follows(cfg, states[n - 1], events[n - 1], states[n]);
      forall id
        ensures EndedWell(states[n], id)
      {
        StepKeepsEnded(cfg, states[n - 1], events[n - 1], id);
      }
    }
  }

  // ---------------------------------------------------------------- calls while the breaker is open

  ghost predicate NoOpenCalls(s: State) {
    forall i :: 0 <= i < |s.calls| ==> !s.calls[i].open
  }

  /** The guard that the retry loop does not have: the breaker is not open when a sleeper resumes. */
  predicate ResumesClosed(cfg: Settings, s: State, e: Event)
    requires Enabled(s, e)
  {
    e.Resume? ==> !IsOpen(cfg, s.CircuitOf(s.flights[e.id].provider), e.at)
  }

  /** A step sends out a call under an open breaker exactly when it resumes a sleeper under one. */
  lemma {:induction false} OnlyResumesCallOpen(cfg: Settings, s: State, e: Event)
    requires Enabled(s, e)
    ensures NoOpenCalls(Step(cfg, s, e)) <==> NoOpenCalls(s) && ResumesClosed(cfg, s, e)
  {
    hide Expired;
    var t := Step(cfg, s, e);
    assert forall i :: 0 <= i < |s.calls| ==> t.calls[i] == s.calls[i];
    if e.Resume? {
      assert t.calls[|s.calls|].open == IsOpen(cfg, s.CircuitOf(s.flights[e.id].provider), e.at);
    }
  }

  ghost predicate AllResumeClosed(cfg: Settings, states: seq<State>, events: seq<Event>, n: nat)
    requires IsRun(cfg, states, events) && n <= |events|
  {
    forall i :: 0 <= i < n ==> Follows(cfg, states[i], events[i], states[i + 1]) && ResumesClosed(cfg, states[i], events[i])
  }

  /** No transport call of a run goes out while its breaker is open and unexpired if and only if no retry of
      the run resumes under an open breaker: admission checks the breaker, the retry loop does not. */
  lemma {:induction false} NoOpenCallsIffResumesClosed(cfg: Settings, states: seq<State>, events: seq<Event>, n: nat)
    requires IsRun(cfg, states, events) && n <= |events|
    ensures NoOpenCalls(states[n]) <==> AllResumeClosed(cfg, states, events, n)
  {
    if n > 0 {
      NoOpenCallsIffResumesClosed(cfg, states, events, n - 1);
      assert Follows(cfg, states[n - 1], events[n - 1], states[n]);
      OnlyResumesCallOpen(cfg, states[n - 1], events[n - 1]);
    }
  }

  /** One invocation at a time per provider. */
  ghost predicate Solo(s: State, e: Event) {
    e.Begin? && Admission(s, e.route).Ok? ==>
      forall id :: id in s.flights ==> s.flights[id].provider != Admission(s, e.route).value
  }

  ghost predicate SoloState(s: State) {
    && (forall id :: id in s.flights ==> id < s.nextId && s.CircuitOf(s.flights[id].provider).openedAt.None?)
    && (forall i, j :: i in s.flights && j in s.flights && i != j ==> s.flights[i].provider != s.flights[j].provider)
  }

  lemma {:induction false} SoloBegin(cfg: Settings, s: State, route: string, now: real)
    requires SoloState(s) && Solo(s, Begin(route, now))
    ensures SoloState(Begun(cfg, s, route, now))
  {
    var t := Begun(cfg, s, route, now);
    BeginEffect(cfg, s, route, now);
    if Refused(s, t) {
      assert forall id :: id in s.flights ==> t.CircuitOf(s.flights[id].provider) == s.CircuitOf(s.flights[id].provider);
    }
  }

  lemma {:induction false} SoloReceive(cfg: Settings, s: State, who: nat, a: Answer, now: real)
    requires SoloState(s) && who in s.flights
    ensures SoloState(Answered(cfg, s, who, a, now))
  {
    var t, p := Answered(cfg, s, who, a, now), s.flights[who].provider;
    assert forall q :: q != p ==> t.CircuitOf(q) == s.CircuitOf(q);
    assert t.flights == s.flights - {who}
        || (t.flights == s.flights[who := s.flights[who].(sleeping := true)] && t.circuits == s.circuits);
  }

  lemma {:induction false} SoloResume(cfg: Settings, s: State, who: nat, now: real)
    requires SoloState(s) && who in s.flights && s.flights[who].sleeping
    ensures SoloState(Resumed(cfg, s, who, now)) && ResumesClosed(cfg, s, Resume(who, now))
  {
  }

  /** While invocations of a provider do not overlap, no call ever goes out under an open breaker. */
  lemma {:induction false} SoloRunsNeverCallOpen(cfg: Settings, states: seq<State>, events: seq<Event>, n: nat)
    requires IsRun(cfg, states, events) && n <= |events|
    requires forall i :: 0 <= i < n ==> Solo(states[i], events[i])
    ensures SoloState(states[n]) && NoOpenCalls(states[n])
  {
    if n > 0 {
      SoloRunsNeverCallOpen(cfg, states, events, n - 1);
      var s, e := states[n - 1], events[n - 1];
      assert Follows(cfg, s, e, states[n]) && Solo(s, e);
      OnlyResumesCallOpen(cfg, s, e);
      match e {
        case Reload(_, _) =>
        case Begin(route, at) => SoloBegin(cfg, s, route, at);
        case Receive(who, a, at) => SoloReceive(cfg, s, who, a, at);
        case Resume(who, at) => SoloResume(cfg, s, who, at);
      }
    }
  }

  // ---------------------------------------------------------------- which configurations are safe

  /** An interleaving under one configuration, loaded at the start. */
  ghost predicate RunsOn(cfg: Settings, providers: map<string, Provider>, routes: map<string, Route>,
                         states: seq<State>, events: seq<Event>)
  {
    && IsRun(cfg, states, events) && events != [] && events[0] == Reload(providers, routes)
    && forall i :: 1 <= i < |events| ==> !events[i].Reload?
  }

  function Loaded(providers: map<string, Provider>, routes: map<string, Route>): State {
    INITIAL.(providers := providers, routes := routes)
  }

  /** The route leads to a provider that would be asked again after a retryable failure. */
  predicate Retries(providers: map<string, Provider>, routes: map<string, Route>, route: string) {
    var admission := Admission(Loaded(providers, routes), route);
    admission.Ok? && providers[admission.value].maxRetries > 0
  }

  ghost predicate NoRetries(providers: map<string, Provider>, routes: map<string, Route>) {
    forall route :: !Retries(providers, routes, route)
  }

  /** No running invocation may retry, so none sleeps. */
  ghost predicate NoneSleeps(s: State) {
    forall id :: id in s.flights ==> s.flights[id].maxRetries == 0 && !s.flights[id].sleeping
  }

  lemma {:induction false} AdmissionIsConfiguration(s: State, route: string)
    ensures Admission(s, route) == Admission(Loaded(s.providers, s.routes), route)
  {
  }

  lemma {:induction false} BegunOnFlights(cfg: Settings, s: State, id: nat, p: string, retries: nat, now: real)
    ensures var t := BegunOn(cfg, s, id, p, retries, now);
            && t.providers == s.providers && t.routes == s.routes
            && (t.flights == s.flights || t.flights == s.flights[id := Flight(p, retries, 0, false)])
  {
    hide Expired;
    hide IsOpen;
  }

  /** What beginning an invocation does to the configuration and the running ones. */
  lemma {:induction false} BeginFlights(cfg: Settings, s: State, route: string, now: real)
    ensures var t, admission := Begun(cfg, s, route, now), Admission(s, route);
            && t.providers == s.providers && t.routes == s.routes
            && (t.flights == s.flights
                || (admission.Ok? && t.flights == s.flights[s.nextId := Flight(admission.value, s.providers[admission.value].maxRetries, 0, false)]))
  {
    hide BegunOn;
    var admission := Admission(s, route);
    if admission.Ok? {
      BegunOnFlights(cfg, s.(nextId := s.nextId + 1), s.nextId, admission.value, s.providers[admission.value].maxRetries, now);
    }
  }

  lemma {:induction false} BeginKeepsAwake(cfg: Settings, s: State, route: string, now: real)
    requires NoneSleeps(s) && !Retries(s.providers, s.routes, route)
    ensures NoneSleeps(Begun(cfg, s, route, now))
  {
    hide Begun;
    BeginFlights(cfg, s, route, now);
    AdmissionIsConfiguration(s, route);
  }

  lemma {:induction false} ReceiveKeepsAwake(cfg: Settings, s: State, who: nat, a: Answer, now: real)
    requires NoneSleeps(s) && who in s.flights
    ensures var t := Answered(cfg, s, who, a, now); NoneSleeps(t) && t.providers == s.providers && t.routes == s.routes
  {
    assert Answered(cfg, s, who, a, now).flights == s.flights - {who};
  }

  lemma {:induction false} StepKeepsAwake(cfg: Settings, s: State, e: Event)
    requires NoneSleeps(s) && NoRetries(s.providers, s.routes) && Enabled(s, e)
    requires e.Reload? ==> NoRetries(e.providers, e.routes)
    ensures var t := Step(cfg, s, e);
            NoneSleeps(t) && NoRetries(t.providers, t.routes) && (NoOpenCalls(s) ==> NoOpenCalls(t))
  {
    hide Begun;
    hide Answered;
    hide NoOpenCalls;
    hide Retries;
    OnlyResumesCallOpen(cfg, s, e);
    match e {
      case Reload(_, _) =>
      case Begin(route, at) =>
        BeginFlights(cfg, s, route, at);
        BeginKeepsAwake(cfg, s, route, at);
      case Receive(who, a, at) => ReceiveKeepsAwake(cfg, s, who, a, at);
      case Resume(who, at) => assert false;
    }
  }

  /** However often the configuration is reloaded: if it never has a route with retries, no interleaving lets a
      call out under an open breaker. */
  lemma {:induction false} NoRetriesNoOpenCalls(cfg: Settings, states: seq<State>, events: seq<Event>, n: nat)
    requires IsRun(cfg, states, events) && n <= |events|
    requires forall i :: 0 <= i < n && events[i].Reload? ==> NoRetries(events[i].providers, events[i].routes)
    ensures NoneSleeps(states[n]) && NoRetries(states[n].providers, states[n].routes) && NoOpenCalls(states[n])
  {
    if n > 0 {
      NoRetriesNoOpenCalls(cfg, states, events, n - 1);
      assert Follows(cfg, states[n - 1], events[n - 1], states[n]);
      StepKeepsAwake(cfg, states[n - 1], events[n - 1]);
    }
  }

  /** One more step of a run. */
  lemma {:induction false} Extended(cfg: Settings, providers: map<string, Provider>, routes: map<string, Route>,
                                    states: seq<State>, events: seq<Event>, e: Event, t: State)
    returns (states': seq<State>, events': seq<Event>)
    requires RunsOn(cfg, providers, routes, states, events) && !e.Reload? && Follows(cfg, states[|events|], e, t)
    ensures RunsOn(cfg, providers, routes, states', events') && states'[|events'|] == t
  {
    states', events' := states + [t], events + [e];
    forall i | 0 <= i < |events'|
      ensures Follows(cfg, states'[i], events'[i], states'[i + 1])
    {
      assert i < |events| ==> Follows(cfg, states[i], events[i], states[i + 1]);
    }
  }

  /** `n` invocations have been sent out to `p`, none is answered yet. */
  ghost predicate Crowded(s: State, providers: map<string, Provider>, routes: map<string, Route>, p: string, n: nat)
    requires p in providers
  {
    && s.providers == providers && s.routes == routes && s.nextId == n && s.CircuitOf(p) == CLOSED
    && forall id :: 0 <= id < n ==> id in s.flights && s.flights[id] == Flight(p, providers[p].maxRetries, 0, false)
  }

  lemma {:induction false} OneMoreBegins(cfg: Settings, s: State, p: string, route: string)
    requires p in s.providers && Crowded(s, s.providers, s.routes, p, s.nextId) && Admission(s, route) == Ok(p)
    ensures Crowded(Begun(cfg, s, route, 0.0), s.providers, s.routes, p, s.nextId + 1)
  {
    var t := Begun(cfg, s, route, 0.0);
    assert t.flights == s.flights[s.nextId := Flight(p, s.providers[p].maxRetries, 0, false)];
  }

  lemma {:induction false} CrowdGathers(cfg: Settings, providers: map<string, Provider>, routes: map<string, Route>, route: string,
                                        p: string, n: nat) returns (states: seq<State>, events: seq<Event>)
    requires Admission(Loaded(providers, routes), route) == Ok(p)
    ensures RunsOn(cfg, providers, routes, states, events) && Crowded(states[|events|], providers, routes, p, n)
  {
    if n == 0 {
      states, events := [INITIAL, Loaded(providers, routes)], [Reload(providers, routes)];
      assert Follows(cfg, states[0], events[0], states[1]);
    } else {
      states, events := CrowdGathers(cfg, providers, routes, route, p, n - 1);
      var s := states[|events|];
      AdmissionIsConfiguration(s, route);
      OneMoreBegins(cfg, s, p, route);
      states, events := Extended(cfg, providers, routes, states, events, Begin(route, 0.0), Begun(cfg, s, route, 0.0));
    }
  }

  /** Invocation 0 sleeps; of the others the first `k` have failed for good, the rest up to `n` are still out. */
  ghost predicate Tripping(cfg: Settings, s: State, p: string, k: nat, n: nat) {
    && 0 in s.flights && s.flights[0].sleeping && s.flights[0].provider == p
    && (forall id :: k < id <= n ==> id in s.flights && !s.flights[id].sleeping && s.flights[id].provider == p)
    && s.CircuitOf(p).failures == k
    && (k > 0 && k >= cfg.threshold ==> s.CircuitOf(p).openedAt == Some(0.0))
  }

  const TRANSIENT := Answer(false, true, None, true)
  const FATAL := Answer(false, false, None, true)

  lemma {:induction false} FirstFallsAsleep(cfg: Settings, s: State, p: string, n: nat)
    requires p in s.providers && s.providers[p].maxRetries > 0 && Crowded(s, s.providers, s.routes, p, n + 1)
    ensures Tripping(cfg, Answered(cfg, s, 0, TRANSIENT, 0.0), p, 0, n)
  {
  }

  lemma {:induction false} OneMoreFails(cfg: Settings, s: State, p: string, k: nat, n: nat)
    requires Tripping(cfg, s, p, k, n) && k < n
    ensures Tripping(cfg, Answered(cfg, s, k + 1, FATAL, 0.0), p, k + 1, n)
  {
    var t := Answered(cfg, s, k + 1, FATAL, 0.0);
    assert t.flights == s.flights - {k + 1};
  }

  lemma {:induction false} CrowdFails(cfg: Settings, providers: map<string, Provider>, routes: map<string, Route>, route: string,
                                      p: string, k: nat, n: nat) returns (states: seq<State>, events: seq<Event>)
    requires Admission(Loaded(providers, routes), route) == Ok(p) && providers[p].maxRetries > 0 && k <= n
    ensures RunsOn(cfg, providers, routes, states, events) && Tripping(cfg, states[|events|], p, k, n)
  {
    if k == 0 {
      states, events := CrowdGathers(cfg, providers, routes, route, p, n + 1);
      var s := states[|events|];
      FirstFallsAsleep(cfg, s, p, n);
      states, events := Extended(cfg, providers, routes, states, events, Receive(0, TRANSIENT, 0.0), Answered(cfg, s, 0, TRANSIENT, 0.0));
    } else {
      states, events := CrowdFails(cfg, providers, routes, route, p, k - 1, n);
      var s := states[|events|];
      OneMoreFails(cfg, s, p, k - 1, n);
      states, events := Extended(cfg, providers, routes, states, events, Receive(k, FATAL, 0.0), Answered(cfg, s, k, FATAL, 0.0));
    }
  }

  /** Whatever the threshold, a route with retries lets a call out under an open breaker: while one invocation
      sleeps, enough others fail to trip the breaker, and then the sleeper retries. */
  lemma {:induction false} OverlappingRetryCallsOpen(cfg: Settings, providers: map<string, Provider>, routes: map<string, Route>,
                                                     route: string) returns (states: seq<State>, events: seq<Event>)
    requires cfg.resetSeconds > 0.0 && Retries(providers, routes, route)
    ensures RunsOn(cfg, providers, routes, states, events) && !NoOpenCalls(states[|events|])
  {
    var p := Admission(Loaded(providers, routes), route).value;
    var n := cfg.threshold + 1;
    states, events := CrowdFails(cfg, providers, routes, route, p, n, n);
    var s := states[|events|];
    var t := Resumed(cfg, s, 0, 0.0);
    assert t.calls[|s.calls|].open;
    states, events := Extended(cfg, providers, routes, states, events, Resume(0, 0.0), t);
  }

  ghost predicate NeverCallsOpen(cfg: Settings, providers: map<string, Provider>, routes: map<string, Route>) {
    forall states, events :: RunsOn(cfg, providers, routes, states, events) ==> NoOpenCalls(states[|events|])
  }

  /** A configuration never lets a call out under an open breaker, in any interleaving, if and only if no route
      leads to an admitted provider with retries. */
  lemma {:induction false} NeverCallsOpenIffNoRetries(cfg: Settings, providers: map<string, Provider>, routes: map<string, Route>)
    requires cfg.resetSeconds > 0.0
    ensures NeverCallsOpen(cfg, providers, routes) <==> NoRetries(providers, routes)
  {
    if route :| Retries(providers, routes, route) {
      var states, events := OverlappingRetryCallsOpen(cfg, providers, routes, route);
    } else {
      forall states, events | RunsOn(cfg, providers, routes, states, events)
        ensures NoOpenCalls(states[|events|])
      {
        NoRetriesNoOpenCalls(cfg, states, events, |events|);
      }
    }
  }
}
