/** The final gate before an order leaves: ordered guards, then one token from the shared limiter. */
module Authority {
  import opened Wrappers
  import opened Fills
  import opened RiskGate
  import opened RateLimiting
  import opened Precision

  datatype TradingMode = PAPER | SHADOW | LIVE
  datatype Decision = APPROVE | HOLD | REJECT

  datatype OrderStatus =
    | CREATED | VALIDATED | SUBMITTING | SUBMITTED | ACKNOWLEDGED | OPEN | PARTIALLY_FILLED
    | FILLED | CANCEL_PENDING | CANCELLED | REJECTED | EXPIRED | UNKNOWN

  datatype Instrument = Instrument(tickSize: Money.Dec, stepSize: real, minQty: real, minNotional: real)

  datatype Intent = Intent(
    market: MarketType, side: Side, price: Option<real>, quantity: real, reduceOnly: bool, expiresAt: Option<int>)

  datatype Context = Context(
    now: int,
    mode: TradingMode,
    liveEnabled: bool,
    leaseHeld: bool,
    killSwitch: bool,
    reconciliationHalted: bool,
    marketDataFresh: bool,
    orderbookFresh: bool,
    orderbookHealthy: bool,
    symbolTradeable: bool,
    exchangeConnected: bool,
    balanceFresh: bool,
    orderStatus: OrderStatus,
    duplicateClientOrder: bool,
    riskDecision: Option<Decision>,
    held: real,
    instrument: Option<Instrument>,
    minNotionalOk: bool)

  /** `Raises` is the DecimalError of a tick or step that is not positive. */
  datatype Verdict = Verdict(decision: Decision, note: string) | Raises

  datatype Guard = Passed | Stopped(verdict: Verdict)

  // ---------------------------------------------------------------- the guards

  function Reject(note: string): Guard { Stopped(Verdict(REJECT, note)) }
  function Hold(note: string): Guard { Stopped(Verdict(HOLD, note)) }

  function PrecisionGuard(intent: Intent, instrument: Instrument, minNotionalOk: bool): Guard {
    var price := intent.price.GetOr(0.0);
    var rounded := if price > 0.0 then RoundTick(price, instrument.tickSize) else Ok(price);
    var floored := FloorToStep(intent.quantity, instrument.stepSize);
    if rounded.Err? then Stopped(Raises)
    else if rounded.value != price then Reject("PRICE_PRECISION_INVALID")
    else if floored.Err? then Stopped(Raises)
    else if floored.value != intent.quantity then Reject("QUANTITY_PRECISION_INVALID")
    else if intent.quantity < instrument.minQty then Reject("MIN_QUANTITY_NOT_MET")
    else
      var notional := if price > 0.0 then price * intent.quantity else 0.0;
      if notional > 0.0 && notional < instrument.minNotional then Reject("MIN_NOTIONAL_NOT_MET")
      else if !minNotionalOk then Reject("MIN_NOTIONAL_NOT_MET")
      else Passed
  }

  function GateOf(intent: Intent, ctx: Context): GateVerdict {
    CheckNoReversal(intent.market, intent.side, intent.quantity, intent.reduceOnly, ctx.held)
  }

  /** Everything before the limiter, in the order it is checked. */
  function Guards(intent: Intent, ctx: Context): Guard {
    if !ctx.leaseHeld then Reject("EXECUTION_LEASE_NOT_HELD")
    else if ctx.mode == LIVE && !ctx.liveEnabled then Reject("LIVE_TRADING_DISABLED")
    else if ctx.killSwitch then Reject("GLOBAL_KILL_SWITCH")
    else if ctx.reconciliationHalted then Hold("RECONCILIATION_HALT")
    else if intent.expiresAt.Some? && intent.expiresAt.value <= ctx.now then Reject("ORDER_EXPIRED")
    else if !ctx.marketDataFresh then Hold("MARKET_DATA_STALE")
    else if !ctx.orderbookFresh then Hold("ORDERBOOK_STALE")
    else if !ctx.orderbookHealthy then Hold("ORDERBOOK_UNHEALTHY")
    else if !ctx.symbolTradeable then Reject("SYMBOL_NOT_TRADEABLE")
    else if !ctx.exchangeConnected then Hold("EXCHANGE_NOT_CONNECTED")
    else if !ctx.balanceFresh then Hold("BALANCE_STALE")
    else if ctx.orderStatus !in {CREATED, VALIDATED, UNKNOWN} then Reject("ORDER_STATE_INVALID")
    else if ctx.duplicateClientOrder then Hold("DUPLICATE_CLIENT_ORDER_ID")
    else if ctx.riskDecision != Some(APPROVE) then Reject("RISK_NOT_VALID")
    else if GateOf(intent, ctx) != Pass then Reject(ReasonOf(GateOf(intent, ctx)))
    else if ctx.instrument.None? then Reject("INSTRUMENT_MISSING")
    else PrecisionGuard(intent, ctx.instrument.value, ctx.minNotionalOk)
  }

  /** The answer, given what the limiter would say. */
  function Decide(intent: Intent, ctx: Context, grants: bool): Verdict {
    match Guards(intent, ctx)
    case Stopped(verdict) => verdict
    case Passed => if grants then Verdict(APPROVE, "AUTHORITY_PASS") else Verdict(HOLD, "RATE_LIMIT_BUDGET_EXHAUSTED")
  }

  // ---------------------------------------------------------------- what the answer means

  /** An instrument whose tick and step are positive. */
  ghost predicate Usable(instrument: Instrument) {
    instrument.tickSize.coef > 0 && instrument.stepSize > 0.0
  }

  ghost predicate CanPrice(ctx: Context) {
    ctx.instrument.Some? ==> Usable(ctx.instrument.value)
  }

  ghost predicate OnGrid(intent: Intent, instrument: Instrument)
    requires Usable(instrument)
  {
    && (intent.price.GetOr(0.0) > 0.0 ==>
          && MultipleOf(intent.price.value, TickUnit(instrument.tickSize))
          && intent.price.value * intent.quantity >= instrument.minNotional)
    && MultipleOf(intent.quantity, instrument.stepSize)
    && intent.quantity >= instrument.minQty
  }

  // The conditions on the order and the account: what fails one of them will not pass later.

  ghost predicate MayTrade(ctx: Context) {
    ctx.leaseHeld && !ctx.killSwitch && (ctx.mode == LIVE ==> ctx.liveEnabled)
  }

  ghost predicate NotExpired(intent: Intent, ctx: Context) {
    intent.expiresAt.None? || ctx.now < intent.expiresAt.value
  }

  ghost predicate IsNew(ctx: Context) {
    ctx.orderStatus == CREATED || ctx.orderStatus == VALIDATED || ctx.orderStatus == UNKNOWN
  }

  ghost predicate Sound(intent: Intent, ctx: Context)
    requires CanPrice(ctx)
  {
    && ctx.riskDecision == Some(APPROVE) && GateOf(intent, ctx) == Pass
    && ctx.instrument.Some? && OnGrid(intent, ctx.instrument.value) && ctx.minNotionalOk
  }

  ghost predicate Permanent(intent: Intent, ctx: Context)
    requires CanPrice(ctx)
  {
    MayTrade(ctx) && NotExpired(intent, ctx) && ctx.symbolTradeable && IsNew(ctx) && Sound(intent, ctx)
  }

  // The conditions that may come back: market, exchange and bookkeeping.

  ghost predicate MarketSeen(ctx: Context) {
    ctx.marketDataFresh && ctx.orderbookFresh && ctx.orderbookHealthy
  }

  ghost predicate ExchangeSeen(ctx: Context) {
    ctx.exchangeConnected && ctx.balanceFresh
  }

  ghost predicate Transient(ctx: Context) {
    !ctx.reconciliationHalted && MarketSeen(ctx) && ExchangeSeen(ctx) && !ctx.duplicateClientOrder
  }

  /** The account, the market and the order are all fit to trade; no order of checks is implied. */
  ghost predicate Fit(intent: Intent, ctx: Context)
    requires CanPrice(ctx)
  {
    Permanent(intent, ctx) && Transient(ctx)
  }

  /** Which failure comes first: a permanent one that no earlier transient failure hides. */
  ghost predicate PermanentFailureFirst(intent: Intent, ctx: Context)
    requires CanPrice(ctx)
  {
    !MayTrade(ctx) || (!ctx.reconciliationHalted && (
      !NotExpired(intent, ctx) || (MarketSeen(ctx) && (
        !ctx.symbolTradeable || (ExchangeSeen(ctx) && (
          !IsNew(ctx) || (!ctx.duplicateClientOrder && !Sound(intent, ctx))))))))
  }

  /** The last guard passes exactly on the grids and above the minimums, and otherwise rejects. */
  lemma {:induction false} PrecisionIff(intent: Intent, instrument: Instrument, minNotionalOk: bool)
    requires Usable(instrument) && intent.quantity > 0.0
    ensures var guard := PrecisionGuard(intent, instrument, minNotionalOk);
            && (guard.Passed? <==> OnGrid(intent, instrument) && minNotionalOk)
            && (guard.Stopped? ==> guard.verdict.Verdict? && guard.verdict.decision == REJECT)
  {
    var price := intent.price.GetOr(0.0);
    FloorToStepKeepsIff(intent.quantity, instrument.stepSize);
    RoundTickKeepsIff(price, instrument.tickSize);
    assert price > 0.0 ==> price * intent.quantity > 0.0;
  }

  lemma {:induction false} AdmittedHasQuantity(intent: Intent, ctx: Context)
    ensures GateOf(intent, ctx) == Pass ==> intent.quantity > 0.0
  {
  }

  /** A guard that stops an order rejects it when a permanent failure comes first, and holds it otherwise. */
  lemma {:induction false} StoppedIff(intent: Intent, ctx: Context)
    requires CanPrice(ctx)
    ensures var guard := Guards(intent, ctx);
            guard.Stopped? ==>
              && guard.verdict.Verdict?
              && guard.verdict.decision == if PermanentFailureFirst(intent, ctx) then REJECT else HOLD
  {
    hide PrecisionGuard;
    hide OnGrid;
    hide GateOf;
    hide ReasonOf;
    AdmittedHasQuantity(intent, ctx);
    if ctx.instrument.Some? && intent.quantity > 0.0 {
      PrecisionIff(intent, ctx.instrument.value, ctx.minNotionalOk);
    }
  }

  /** The guards let an order through exactly when everything is fit: on the price and quantity grids, above
      the minimums, with lease, data, risk and gate in order and the kill switch off. */
  lemma {:induction false} GuardsPassIffFit(intent: Intent, ctx: Context)
    requires CanPrice(ctx)
    ensures Guards(intent, ctx).Passed? <==> Fit(intent, ctx)
  {
    hide PrecisionGuard;
    hide OnGrid;
    hide GateOf;
    hide ReasonOf;
    AdmittedHasQuantity(intent, ctx);
    if ctx.instrument.Some? && intent.quantity > 0.0 {
      PrecisionIff(intent, ctx.instrument.value, ctx.minNotionalOk);
    }
  }

  lemma {:induction false} FitHasNoFailure(intent: Intent, ctx: Context)
    requires CanPrice(ctx)
    ensures Fit(intent, ctx) ==> !PermanentFailureFirst(intent, ctx)
  {
    hide OnGrid;
    hide GateOf;
  }

  /** The answer for usable instruments, exactly: approved when everything is fit and a token is there, rejected
      when a permanent failure comes first, on hold otherwise. */
  lemma {:induction false} DecisionIff(intent: Intent, ctx: Context, grants: bool)
    requires CanPrice(ctx)
    ensures var v := Decide(intent, ctx, grants);
            && v.Verdict?
            && (v.decision == APPROVE <==> Fit(intent, ctx) && grants)
            && (v.decision == REJECT <==> PermanentFailureFirst(intent, ctx))
            && (v.decision == HOLD <==> !PermanentFailureFirst(intent, ctx) && !(Fit(intent, ctx) && grants))
  {
    hide Guards;
    hide Fit;
    hide PermanentFailureFirst;
    StoppedIff(intent, ctx);
    GuardsPassIffFit(intent, ctx);
    FitHasNoFailure(intent, ctx);
  }

  /** One kind of failure alone decides which answer is given. */
  lemma {:induction false} FailuresDecide(intent: Intent, ctx: Context, grants: bool)
    requires CanPrice(ctx)
    ensures var v := Decide(intent, ctx, grants);
            && v.Verdict?
            && (Transient(ctx) && !Permanent(intent, ctx) ==> v.decision == REJECT)
            && (Permanent(intent, ctx) && !Transient(ctx) ==> v.decision == HOLD)
            && (Fit(intent, ctx) && !grants ==> v.decision == HOLD)
  {
    hide Decide;
    hide Sound;
    DecisionIff(intent, ctx, grants);
  }

  /** Whatever the instrument, only a passed guard can lead to an approval. */
  lemma {:induction false} StoppedNeverApproves(intent: Intent, ctx: Context)
    ensures var guard := Guards(intent, ctx); guard.Stopped? ==> guard.verdict.Raises? || guard.verdict.decision != APPROVE
  {
    hide RoundTick;
    hide FloorToStep;
    hide CheckNoReversal;
  }

  /** The only exception is the one of a tick or step that is not positive. */
  lemma {:induction false} RaisesOnlyUnusable(intent: Intent, ctx: Context, grants: bool)
    requires Decide(intent, ctx, grants).Raises?
    ensures ctx.instrument.Some? && !Usable(ctx.instrument.value) && MayTrade(ctx) && Transient(ctx)
  {
    hide CheckNoReversal;
  }

  /** The note names a condition that fails. */
  predicate Justified(intent: Intent, ctx: Context, note: string) {
    || (note == "EXECUTION_LEASE_NOT_HELD" && !ctx.leaseHeld)
    || (note == "LIVE_TRADING_DISABLED" && ctx.mode == LIVE && !ctx.liveEnabled)
    || (note == "GLOBAL_KILL_SWITCH" && ctx.killSwitch)
    || (note == "RECONCILIATION_HALT" && ctx.reconciliationHalted)
    || (note == "ORDER_EXPIRED" && intent.expiresAt.Some? && intent.expiresAt.value <= ctx.now)
    || (note == "MARKET_DATA_STALE" && !ctx.marketDataFresh)
    || (note == "ORDERBOOK_STALE" && !ctx.orderbookFresh)
    || (note == "ORDERBOOK_UNHEALTHY" && !ctx.orderbookHealthy)
    || (note == "SYMBOL_NOT_TRADEABLE" && !ctx.symbolTradeable)
    || (note == "EXCHANGE_NOT_CONNECTED" && !ctx.exchangeConnected)
    || (note == "BALANCE_STALE" && !ctx.balanceFresh)
    || (note == "ORDER_STATE_INVALID" && ctx.orderStatus !in {CREATED, VALIDATED, UNKNOWN})
    || (note == "DUPLICATE_CLIENT_ORDER_ID" && ctx.duplicateClientOrder)
    || (note == "RISK_NOT_VALID" && ctx.riskDecision != Some(APPROVE))
    || (GateOf(intent, ctx) != Pass && note == ReasonOf(GateOf(intent, ctx)))
    || (note == "INSTRUMENT_MISSING" && ctx.instrument.None?)
    || (ctx.instrument.Some? && PrecisionJustified(intent, ctx, ctx.instrument.value, note))
  }

  predicate PrecisionJustified(intent: Intent, ctx: Context, instrument: Instrument, note: string) {
    var price := intent.price.GetOr(0.0);
    || (note == "PRICE_PRECISION_INVALID" && price > 0.0 && RoundTick(price, instrument.tickSize) != Ok(price))
    || (note == "QUANTITY_PRECISION_INVALID" && FloorToStep(intent.quantity, instrument.stepSize) != Ok(intent.quantity))
    || (note == "MIN_QUANTITY_NOT_MET" && intent.quantity < instrument.minQty)
    || (note == "MIN_NOTIONAL_NOT_MET"
        && (!ctx.minNotionalOk || (price > 0.0 && price * intent.quantity < instrument.minNotional)))
  }

  /** Every refusal before the limiter names a condition that fails. */
  lemma {:induction false} EveryRefusalIsJustified(intent: Intent, ctx: Context)
    requires Guards(intent, ctx).Stopped? && Guards(intent, ctx).verdict.Verdict?
    ensures Justified(intent, ctx, Guards(intent, ctx).verdict.note)
  {
    hide RoundTick;
    hide FloorToStep;
    hide CheckNoReversal;
    hide ReasonOf;
  }

  class ExecutionAuthority {
    /** A context without a limiter passes the last check. A token is taken only when everything is fit. */
    method Authorize(intent: Intent, ctx: Context, limiter: RateLimiter?, clock: real) returns (v: Verdict)
      modifies limiter
      ensures var grants := limiter == null || Grants(old(limiter.View()), Request(clock, 1.0));
              && v == Decide(intent, ctx, grants)
              && (CanPrice(ctx) ==> v.Verdict? && (v.decision == APPROVE <==> Fit(intent, ctx) && grants))
              && (CanPrice(ctx) && Fit(intent, ctx) && !grants ==> v.decision == HOLD)
      ensures CanPrice(ctx) && Transient(ctx) && !Permanent(intent, ctx) ==> v.Verdict? && v.decision == REJECT
      ensures CanPrice(ctx) && Permanent(intent, ctx) && !Transient(ctx) ==> v.Verdict? && v.decision == HOLD
      ensures limiter != null ==>
                limiter.View() == if Guards(intent, ctx).Passed? then Served(old(limiter.View()), Request(clock, 1.0))
                                  else old(limiter.View())
      ensures limiter != null && CanPrice(ctx) ==>
                limiter.View() == if Fit(intent, ctx) then Served(old(limiter.View()), Request(clock, 1.0))
                                  else old(limiter.View())
    {
      hide Guards;
      hide Permanent;
      if CanPrice(ctx) {
        GuardsPassIffFit(intent, ctx);
        DecisionIff(intent, ctx, true);
        DecisionIff(intent, ctx, false);
        FailuresDecide(intent, ctx, true);
        FailuresDecide(intent, ctx, false);
      }
      var guard := Guards(intent, ctx);
      if guard.Stopped? {
        return guard.verdict;
      }
      if limiter != null {
        var granted := limiter.Allow(clock, 1.0);
        if !granted {
          return Verdict(HOLD, "RATE_LIMIT_BUDGET_EXHAUSTED");
        }
      }
      return Verdict(APPROVE, "AUTHORITY_PASS");
    }
  }

  // ---------------------------------------------------------------- runs sharing one limiter

  datatype Call = Call(intent: Intent, ctx: Context, clock: real)

  predicate Reaches(c: Call) {
    Guards(c.intent, c.ctx).Passed?
  }

  /** The requests that a run of authorizations puts to the limiter. */
  function Requests(calls: seq<Call>): seq<Request> {
    if calls == [] then []
    else
      var n := |calls| - 1;
      Requests(calls[..n]) + if Reaches(calls[n]) then [Request(calls[n].clock, 1.0)] else []
  }

  /** The limiter after a run: exactly what `Authorize` leaves behind, call by call. */
  function AfterCalls(b: Bucket, calls: seq<Call>): Bucket {
    if calls == [] then b
    else
      var before, c := AfterCalls(b, calls[..|calls| - 1]), calls[|calls| - 1];
      if Reaches(c) then Served(before, Request(c.clock, 1.0)) else before
  }

  /** The answer to call `i`, the limiter being as the calls before left it. */
  function AnswerAt(b: Bucket, calls: seq<Call>, i: nat): Verdict
    requires i < |calls|
  {
    Decide(calls[i].intent, calls[i].ctx, Grants(AfterCalls(b, calls[..i]), Request(calls[i].clock, 1.0)))
  }

  predicate Approved(b: Bucket, calls: seq<Call>, i: nat)
    requires i < |calls|
  {
    AnswerAt(b, calls, i).Verdict? && AnswerAt(b, calls, i).decision == APPROVE
  }

  lemma {:induction false} ApprovedIff(b: Bucket, calls: seq<Call>, i: nat)
    requires i < |calls|
    ensures Approved(b, calls, i)
       <==> Reaches(calls[i]) && Grants(AfterCalls(b, calls[..i]), Request(calls[i].clock, 1.0))
  {
    hide Guards;
    StoppedNeverApproves(calls[i].intent, calls[i].ctx);
  }

  function Approvals(b: Bucket, calls: seq<Call>, i: nat, j: nat): nat
    requires i <= j <= |calls|
  {
    if i == j then 0 else Approvals(b, calls, i, j - 1) + if Approved(b, calls, j - 1) then 1 else 0
  }

  ghost predicate Clocked(b: Bucket, calls: seq<Call>) {
    && b.capacity >= 0.0 && b.refill >= 0.0 && b.tokens == b.capacity
    && (forall i :: 0 <= i < |calls| ==> b.updated <= calls[i].clock)
    && (forall i, j :: 0 <= i < j < |calls| ==> calls[i].clock <= calls[j].clock)
  }

  function RequestOf(c: Call): seq<Request> {
    if Reaches(c) then [Request(c.clock, 1.0)] else []
  }

  lemma {:induction false} RequestsStep(calls: seq<Call>, n: nat)
    requires n < |calls|
    ensures Requests(calls[..n + 1]) == Requests(calls[..n]) + RequestOf(calls[n])
  {
    assert calls[..n + 1][..n] == calls[..n];
  }

  lemma {:induction false} CallsAreARun(b: Bucket, calls: seq<Call>)
    ensures AfterCalls(b, calls) == Run(b, Requests(calls))
  {
    if calls != [] {
      var n := |calls| - 1;
      CallsAreARun(b, calls[..n]);
      if Reaches(calls[n]) {
        assert Requests(calls)[..|Requests(calls)| - 1] == Requests(calls[..n]);
      } else {
        assert Requests(calls) == Requests(calls[..n]);
      }
    }
  }

  lemma {:induction false} RequestsGrow(calls: seq<Call>, n: nat)
    requires n <= |calls|
    ensures Requests(calls[..n]) <= Requests(calls)
    decreases |calls| - n
  {
    if n < |calls| {
      RequestsGrow(calls, n + 1);
      RequestsStep(calls, n);
    } else {
      assert calls[..n] == calls;
    }
  }

  /** The request of a call that reaches the limiter, and that request's verdict. */
  lemma {:induction false} CallIsRequest(b: Bucket, calls: seq<Call>, i: nat)
    requires i < |calls| && Reaches(calls[i])
    ensures var r := |Requests(calls[..i])|;
            && r < |Requests(calls)| && |Requests(calls[..i + 1])| == r + 1
            && Requests(calls)[r] == Request(calls[i].clock, 1.0)
            && (Approved(b, calls, i) <==> Granted(b, Requests(calls), r))
  {
    hide Guards;
    hide Approved;
    ApprovedIff(b, calls, i);
    var r := |Requests(calls[..i])|;
    RequestsStep(calls, i);
    RequestsGrow(calls, i);
    RequestsGrow(calls, i + 1);
    CallsAreARun(b, calls[..i]);
    assert Requests(calls)[..r] == Requests(calls[..i]);
    assert Requests(calls)[r] == Requests(calls[..i + 1])[r];
  }

  /** How many of the first `i` calls reach the limiter. */
  function Reached(calls: seq<Call>, i: nat): (r: nat)
    requires i <= |calls|
    ensures r <= |Requests(calls)|
  {
    RequestsGrow(calls, i);
    |Requests(calls[..i])|
  }

  lemma {:induction false} ReachedStep(b: Bucket, calls: seq<Call>, n: nat)
    requires n < |calls|
    ensures Reached(calls, n + 1) == Reached(calls, n) + if Reaches(calls[n]) then 1 else 0
    ensures Reaches(calls[n]) ==>
      var r := Reached(calls, n);
      r < |Requests(calls)| && Requests(calls)[r].cost == 1.0 && (Approved(b, calls, n) <==> Granted(b, Requests(calls), r))
    ensures !Reaches(calls[n]) ==> !Approved(b, calls, n)
  {
    hide Guards;
    hide Approved;
    ApprovedIff(b, calls, n);
    RequestsStep(calls, n);
    if Reaches(calls[n]) {
      CallIsRequest(b, calls, n);
    }
  }

  lemma {:induction false} ApprovalsAreSpent(b: Bucket, calls: seq<Call>, i: nat, j: nat)
    requires i <= j <= |calls|
    ensures Reached(calls, i) <= Reached(calls, j)
    ensures Approvals(b, calls, i, j) as real == Spent(b, Requests(calls), Reached(calls, i), Reached(calls, j))
  {
    hide Approved;
    hide Granted;
    hide Reached;
    if i < j {
      ApprovalsAreSpent(b, calls, i, j - 1);
      ReachedStep(b, calls, j - 1);
    }
  }

  lemma {:induction false} RequestsAreTimed(b: Bucket, calls: seq<Call>)
    requires Clocked(b, calls)
    ensures Timed(b, Requests(calls))
    ensures forall r :: r in Requests(calls) ==> calls != [] && r.at <= calls[|calls| - 1].clock && r.cost == 1.0
  {
    hide Guards;
    if calls != [] {
      RequestsAreTimed(b, calls[..|calls| - 1]);
    }
  }

  /** The requests of the calls from `i` on come no earlier than call `i`. */
  lemma {:induction false} RequestsWithin(calls: seq<Call>, i: nat, j: nat, r: nat)
    requires i < j <= |calls| && |Requests(calls[..i])| <= r < |Requests(calls[..j])|
    requires forall k, l :: 0 <= k < l < |calls| ==> calls[k].clock <= calls[l].clock
    ensures calls[i].clock <= Requests(calls[..j])[r].at <= calls[j - 1].clock
  {
    hide Guards;
    assert calls[..j][..j - 1] == calls[..j - 1];
    if i < j - 1 && r < |Requests(calls[..j - 1])| {
      RequestsWithin(calls, i, j - 1, r);
    }
  }

  /** However many orders ask, the approvals among the calls `i` to `j` stay within the limiter's budget for
      the time between them; refusals on any other ground cost nothing. */
  lemma {:induction false} ApprovalsWithinBudget(b: Bucket, calls: seq<Call>, i: nat, j: nat)
    requires i < j <= |calls| && Clocked(b, calls)
    ensures Approvals(b, calls, i, j) as real <= Budget(b, calls[i].clock, calls[j - 1].clock)
  {
    hide Inflow;
    hide Guards;
    hide Approved;
    hide Requests;
    hide Approvals;
    hide Granted;
    hide Reached;
    var rs := Requests(calls);
    var r, s := Reached(calls, i), Reached(calls, j);
    ApprovalsAreSpent(b, calls, i, j);
    RequestsAreTimed(b, calls);
    InflowGrows(b, calls[i].clock, calls[i].clock, calls[j - 1].clock, calls[j - 1].clock);
    if r < s {
      WindowBound(b, rs, r, s);
      ReachedWithin(calls, i, j, r);
      ReachedWithin(calls, i, j, s - 1);
      InflowGrows(b, calls[i].clock, rs[r].at, rs[s - 1].at, calls[j - 1].clock);
    }
  }

  /** A wider window lets more flow in. */
  lemma {:induction false} InflowGrows(b: Bucket, first: real, from: real, to: real, last: real)
    requires b.refill >= 0.0 && first <= from <= to <= last
    ensures 0.0 <= Inflow(b, from, to) <= Inflow(b, first, last)
  {
    assert (last - first) * b.refill == (last - to) * b.refill + (to - from) * b.refill + (from - first) * b.refill;
  }

  lemma {:induction false} ReachedWithin(calls: seq<Call>, i: nat, j: nat, r: nat)
    requires i < j <= |calls| && Reached(calls, i) <= r < Reached(calls, j)
    requires forall k, l :: 0 <= k < l < |calls| ==> calls[k].clock <= calls[l].clock
    ensures calls[i].clock <= Requests(calls)[r].at <= calls[j - 1].clock
  {
    RequestsGrow(calls, j);
    RequestsWithin(calls, i, j, r);
  }
}
