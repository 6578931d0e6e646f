/** Layered trade review and the human approval gate of its highest level. */
module TradeReview {
  import opened Wrappers
  import opened Numbers

  datatype ReviewDecision = PASS | REDUCE | REJECT | ESCALATE | WAITING_APPROVAL

  datatype RiskLevel = L1 | L2 | L3 | L4

  datatype RiskInput = RiskInput(
    leverage: real, notional: real, nav: real, tradeRiskPct: real, grossExposurePct: real, abnormal: bool)

  /** `abnormal` gathers the five stress flags, any of which forces the top level. */
  function Classify(r: RiskInput): RiskLevel {
    var share := if r.nav > 0.0 then r.notional / r.nav * 100.0 else 999.0;
    if r.abnormal || r.leverage >= 6.0 || share >= 25.0 || r.tradeRiskPct >= 3.0 || r.grossExposurePct >= 200.0 then L4
    else if r.leverage >= 4.0 || share >= 15.0 || r.tradeRiskPct >= 2.0 || r.grossExposurePct >= 100.0 then L3
    else if r.leverage >= 2.0 || share >= 5.0 then L2
    else L1
  }

  // ---------------------------------------------------------------- the gate

  type Pending = map<string, real>

  function Requested(pending: Pending, id: string, now: real): Pending {
    pending[id := now]
  }

  function Resolved(pending: Pending, timeout: real, id: string, approved: bool, now: real): (Pending, ReviewDecision) {
    if id !in pending then (pending, REJECT)
    else (pending - {id}, if now - pending[id] > timeout then REJECT else if approved then PASS else REJECT)
  }

  class HumanApprovalGate {
    const timeout: real
    var pending: Pending

    constructor (timeout: real)
      ensures this.timeout == timeout && pending == map[]
    {
      this.timeout, pending := timeout, map[];
    }

    method Request(id: string, now: real) returns (d: ReviewDecision)
      modifies this
      ensures pending == Requested(old(pending), id, now) && d == WAITING_APPROVAL
    {
      pending := pending[id := now];
      return WAITING_APPROVAL;
    }

    method Resolve(id: string, approved: bool, now: real) returns (d: ReviewDecision)
      modifies this
      ensures (pending, d) == Resolved(old(pending), timeout, id, approved, now)
    {
      if id !in pending {
        return REJECT;
      }
      var requested := pending[id];
      pending := pending - {id};
      if now - requested > timeout {
        return REJECT;
      }
      return if approved then PASS else REJECT;
    }
  }

  // ---------------------------------------------------------------- one review

  /** One call: the level, the two reviewers' decisions, the proposal, and the human's answer if any. */
  datatype Call = Call(
    id: string, risk: RiskInput, riskReview: ReviewDecision, adversarial: ReviewDecision,
    position: real, leverage: real, human: Option<bool>, now: real)

  datatype Result = Result(decision: ReviewDecision, position: real, leverage: real)

  function Sized(final: ReviewDecision, c: Call, factor: real, cap: real): Result {
    match final
    case PASS => Result(PASS, c.position, c.leverage)
    case REDUCE => Result(REDUCE, c.position * factor, Min(c.leverage, cap))
    case _ => Result(final, 0.0, 0.0)
  }

  predicate Rejected(c: Call) {
    c.riskReview == REJECT || c.adversarial == REJECT
  }

  predicate AsksHuman(c: Call) {
    Classify(c.risk) == L4 && !Rejected(c)
  }

  function Reviewed(pending: Pending, timeout: real, c: Call): (Pending, Result) {
    match Classify(c.risk)
    case L1 => (pending, Result(PASS, c.position, c.leverage))
    case L2 => (pending, Sized(c.riskReview, c, 0.8, 3.0))
    case L3 =>
      var final := if Rejected(c) then REJECT
                   else if c.riskReview == ESCALATE || c.adversarial == ESCALATE then ESCALATE
                   else if c.riskReview == REDUCE || c.adversarial == REDUCE then REDUCE
                   else PASS;
      (pending, Sized(final, c, 0.6, 2.0))
    case L4 =>
      if Rejected(c) then (pending, Sized(REJECT, c, 0.6, 2.0))
      else if c.human.None? then (Requested(pending, c.id, c.now), Sized(WAITING_APPROVAL, c, 0.6, 2.0))
      else
        var (left, final) := Resolved(pending, timeout, c.id, c.human.value, c.now);
        (left, Sized(final, c, 0.6, 2.0))
  }

  class TradeReviewService {
    const gate: HumanApprovalGate

    constructor (timeout: real)
      ensures fresh(gate) && gate.timeout == timeout && gate.pending == map[]
    {
      gate := new HumanApprovalGate(timeout);
    }

    method Review(c: Call) returns (r: Result)
      modifies gate
      ensures (gate.pending, r) == Reviewed(old(gate.pending), gate.timeout, c)
    {
      var level := Classify(c.risk);
      if level == L1 {
        return Result(PASS, c.position, c.leverage);
      }
      if level == L2 {
        if c.riskReview == PASS {
          return Result(PASS, c.position, c.leverage);
        } else if c.riskReview == REDUCE {
          return Result(REDUCE, c.position * 0.8, Min(c.leverage, 3.0));
        }
        return Result(c.riskReview, 0.0, 0.0);
      }
      var decisions := [c.riskReview, c.adversarial];
      var final;
      if REJECT in decisions {
        final := REJECT;
      } else if level == L4 {
        if c.human.None? {
          var waiting := gate.Request(c.id, c.now);
          return Result(waiting, 0.0, 0.0);
        }
        final := gate.Resolve(c.id, c.human.value, c.now);
      } else if ESCALATE in decisions {
        final := ESCALATE;
      } else if REDUCE in decisions {
        final := REDUCE;
      } else {
        final := PASS;
      }
      match final {
        case PASS => return Result(final, c.position, c.leverage);
        case REDUCE => return Result(final, c.position * 0.6, Min(c.leverage, 2.0));
        case _ => return Result(final, 0.0, 0.0);
      }
    }
  }

  // ---------------------------------------------------------------- what one review answers

  /** The reviewers' decisions, the stricter the higher. */
  function Strictness(d: ReviewDecision): nat {
    match d
    case PASS => 0
    case REDUCE => 1
    case ESCALATE => 2
    case REJECT => 3
    case WAITING_APPROVAL => 0
  }

  /** The reviewers answer one of four; only the gate makes a trade wait. */
  predicate Answers(c: Call) {
    c.riskReview != WAITING_APPROVAL && c.adversarial != WAITING_APPROVAL
  }

  /** At L1 the proposal passes untouched, whatever the reviewers would say. */
  lemma {:induction false} LevelOnePasses(pending: Pending, timeout: real, c: Call)
    requires Classify(c.risk) == L1
    ensures Reviewed(pending, timeout, c) == (pending, Result(PASS, c.position, c.leverage))
  {
  }

  /** At L2 the risk reviewer decides alone: a reduction leaves 0.8 of the position and at most leverage 3, and
      anything but a pass or a reduction leaves nothing. */
  lemma {:induction false} LevelTwoIsTheRiskReview(pending: Pending, timeout: real, c: Call)
    requires Classify(c.risk) == L2
    ensures var (left, r) := Reviewed(pending, timeout, c);
            && left == pending && r.decision == c.riskReview
            && (c.riskReview == PASS ==> r.position == c.position && r.leverage == c.leverage)
            && (c.riskReview == REDUCE ==>
                  && r.position == c.position * 8.0 / 10.0
                  && r.leverage <= 3.0 && r.leverage <= c.leverage && r.leverage in {3.0, c.leverage})
            && (c.riskReview != PASS && c.riskReview != REDUCE ==> r.position == 0.0 && r.leverage == 0.0)
  {
  }

  /** At L3 the stricter of the two decides: a nonzero proposal is approved exactly when neither rejects nor
      escalates, in full exactly when both pass, and otherwise with 0.6 of the position and at most leverage 2. */
  lemma {:induction false} LevelThreeIsTheStricter(pending: Pending, timeout: real, c: Call)
    requires Classify(c.risk) == L3 && Answers(c)
    ensures var (left, r) := Reviewed(pending, timeout, c);
            && left == pending && r.decision in {c.riskReview, c.adversarial}
            && Strictness(c.riskReview) <= Strictness(r.decision) && Strictness(c.adversarial) <= Strictness(r.decision)
            && (c.position != 0.0 ==>
                  && (r.position != 0.0 <==> Strictness(c.riskReview) < 2 && Strictness(c.adversarial) < 2)
                  && (r.position == c.position <==> c.riskReview == PASS && c.adversarial == PASS))
            && (r.decision == PASS ==> r.position == c.position && r.leverage == c.leverage)
            && (r.decision == REDUCE ==>
                  && r.position == c.position * 6.0 / 10.0
                  && r.leverage <= 2.0 && r.leverage <= c.leverage && r.leverage in {2.0, c.leverage})
            && (r.decision in {ESCALATE, REJECT} ==> r.position == 0.0 && r.leverage == 0.0)
  {
  }

  /** At L4 a rejection is final and leaves the gate alone; without an answer a request is entered and the trade
      waits; with one the gate's verdict stands, all of the proposal or nothing. */
  lemma {:induction false} LevelFourIsTheHuman(pending: Pending, timeout: real, c: Call)
    requires Classify(c.risk) == L4
    ensures var (left, r) := Reviewed(pending, timeout, c);
            && (c.riskReview == REJECT || c.adversarial == REJECT ==> left == pending && r == Result(REJECT, 0.0, 0.0))
            && (c.riskReview != REJECT && c.adversarial != REJECT && c.human.None? ==>
                  && r == Result(WAITING_APPROVAL, 0.0, 0.0)
                  && left.Keys == pending.Keys + {c.id} && left[c.id] == c.now
                  && forall id :: id in pending && id != c.id ==> left[id] == pending[id])
            && (c.riskReview != REJECT && c.adversarial != REJECT && c.human.Some? ==>
                  && left.Keys == pending.Keys - {c.id} && (forall id :: id in left ==> left[id] == pending[id])
                  && r == (if c.human.value && c.id in pending && c.now - pending[c.id] <= timeout
                           then Result(PASS, c.position, c.leverage) else Result(REJECT, 0.0, 0.0)))
  {
  }

  // ---------------------------------------------------------------- which trades reach which level

  /** The position as a percentage of the net asset value; without any, more than every limit. */
  predicate ShareAtLeast(r: RiskInput, percent: real) {
    r.nav <= 0.0 || r.notional * 100.0 >= percent * r.nav
  }

  predicate AnyLimit(r: RiskInput, leverage: real, share: real) {
    r.leverage >= leverage || ShareAtLeast(r, share)
  }

  lemma {:induction false} ShareIff(r: RiskInput, percent: real)
    requires 0.0 <= percent <= 999.0
    ensures (if r.nav > 0.0 then r.notional / r.nav * 100.0 else 999.0) >= percent <==> ShareAtLeast(r, percent)
  {
    if r.nav > 0.0 {
      var share := r.notional / r.nav;
      assert share * r.nav == r.notional;
      if share * 100.0 >= percent {
        Product(share * 100.0 - percent, r.nav);
      } else {
        Positive(percent - share * 100.0, r.nav);
      }
    }
  }

  lemma {:induction false} Product(a: real, b: real)
    requires a >= 0.0 && b >= 0.0
    ensures a * b >= 0.0
  {
  }

  lemma {:induction false} Positive(a: real, b: real)
    requires a > 0.0 && b > 0.0
    ensures a * b > 0.0
  {
  }

  /** Each level from the limits alone: a trade is at least at L2, L3 or L4 exactly when it reaches one of the
      limits of that level or of a higher one. */
  lemma {:induction false} LevelsIff(r: RiskInput)
    ensures Classify(r) == L4 <==>
              r.abnormal || AnyLimit(r, 6.0, 25.0) || r.tradeRiskPct >= 3.0 || r.grossExposurePct >= 200.0
    ensures Classify(r) in {L3, L4} <==>
              r.abnormal || AnyLimit(r, 4.0, 15.0) || r.tradeRiskPct >= 2.0 || r.grossExposurePct >= 100.0
    ensures Classify(r) != L1 <==>
              r.abnormal || AnyLimit(r, 2.0, 5.0) || r.tradeRiskPct >= 2.0 || r.grossExposurePct >= 100.0
  {
    ShareIff(r, 25.0);
    ShareIff(r, 15.0);
    ShareIff(r, 5.0);
  }

  // ---------------------------------------------------------------- runs of reviews

  function PendingAfter(timeout: real, calls: seq<Call>): Pending {
    if calls == [] then map[] else Reviewed(PendingAfter(timeout, calls[..|calls| - 1]), timeout, calls[|calls| - 1]).0
  }

  function ResultAt(timeout: real, calls: seq<Call>, n: nat): Result
    requires n < |calls|
  {
    Reviewed(PendingAfter(timeout, calls[..n]), timeout, calls[n]).1
  }

  /** The time of the request for `id` that no later answer has used up. */
  function OpenRequest(calls: seq<Call>, id: string): Option<real> {
    if calls == [] then None
    else
      var n := |calls| - 1;
      if calls[n].id != id || !AsksHuman(calls[n]) then OpenRequest(calls[..n], id)
      else if calls[n].human.None? then Some(calls[n].now)
      else None
  }

  lemma {:induction false} PendingIsOpenRequests(timeout: real, calls: seq<Call>, id: string)
    ensures var pending := PendingAfter(timeout, calls);
            OpenRequest(calls, id) == if id in pending then Some(pending[id]) else None
  {
    if calls != [] {
      PendingIsOpenRequests(timeout, calls[..|calls| - 1], id);
    }
  }

  /** Over every run of reviews: at the top level a position is approved exactly when neither reviewer rejects
      and a human says yes to a request for the same id that is still unanswered and not timed out. */
  lemma {:induction false} HighestLevelNeedsAFreshYes(timeout: real, calls: seq<Call>, n: nat)
    requires n < |calls| && Classify(calls[n].risk) == L4 && calls[n].position != 0.0
    ensures var c := calls[n]; var request := OpenRequest(calls[..n], c.id);
            ResultAt(timeout, calls, n).position != 0.0 <==>
              !Rejected(c) && c.human == Some(true) && request.Some? && c.now - request.value <= timeout
  {
    PendingIsOpenRequests(timeout, calls[..n], calls[n].id);
  }

  function Passes(timeout: real, calls: seq<Call>, id: string, n: nat): nat
    requires n <= |calls|
  {
    if n == 0 then 0
    else Passes(timeout, calls, id, n - 1)
         + (if calls[n - 1].id == id && AsksHuman(calls[n - 1]) && ResultAt(timeout, calls, n - 1).decision == PASS then 1 else 0)
  }

  function Requests(calls: seq<Call>, id: string, n: nat): nat
    requires n <= |calls|
  {
    if n == 0 then 0
    else Requests(calls, id, n - 1) + (if calls[n - 1].id == id && AsksHuman(calls[n - 1]) && calls[n - 1].human.None? then 1 else 0)
  }

  /** No request is ever used twice: the approvals of an id, plus one if a request is still open, never
      outnumber its requests. */
  lemma {:induction false} ApprovalsNeverOutnumberRequests(timeout: real, calls: seq<Call>, id: string, n: nat)
    requires n <= |calls|
    ensures Passes(timeout, calls, id, n) + (if OpenRequest(calls[..n], id).Some? then 1 else 0) <= Requests(calls, id, n)
  {
    if n > 0 {
      ApprovalsNeverOutnumberRequests(timeout, calls, id, n - 1);
      assert calls[..n][..n - 1] == calls[..n - 1];
      PendingIsOpenRequests(timeout, calls[..n - 1], id);
    }
  }

  lemma {:induction false} Fraction(x: real, factor: real)
    requires x >= 0.0 && 0.0 <= factor <= 1.0
    ensures 0.0 <= x * factor <= x
  {
  }

  /** A review never enlarges a proposal, and above the first level a rejecting risk reviewer always
      blocks it (above the second, either reviewer does), whatever the human answers. */
  lemma {:induction false} ReviewsOnlyShrink(pending: Pending, timeout: real, c: Call)
    requires c.position >= 0.0 && c.leverage >= 0.0
    ensures var r := Reviewed(pending, timeout, c).1;
            && 0.0 <= r.position <= c.position && 0.0 <= r.leverage <= c.leverage
            && (Classify(c.risk) == L2 && c.riskReview == REJECT ==> r == Result(REJECT, 0.0, 0.0))
            && (Classify(c.risk) in {L3, L4} && Rejected(c) ==> r == Result(REJECT, 0.0, 0.0) && Reviewed(pending, timeout, c).0 == pending)
            && (r.decision != PASS && r.decision != REDUCE ==> r.position == r.leverage == 0.0)
  {
    Fraction(c.position, 0.8);
    Fraction(c.position, 0.6);
  }
}
