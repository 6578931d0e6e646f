/** The token bucket shared by the submission paths. Time is the monotonic clock, in seconds. */
module RateLimiting {
  import opened Numbers

  datatype Bucket = Bucket(capacity: real, refill: real, tokens: real, updated: real)

  datatype Request = Request(at: real, cost: real)

  function Refilled(b: Bucket, now: real): real {
    Min(b.capacity, b.tokens + (now - b.updated) * b.refill)
  }

  predicate Grants(b: Bucket, r: Request) {
    Refilled(b, r.at) >= r.cost
  }

  function Served(b: Bucket, r: Request): Bucket {
    var tokens := Refilled(b, r.at);
    b.(tokens := if tokens >= r.cost then tokens - r.cost else tokens, updated := r.at)
  }

  function Full(capacity: real, refill: real, now: real): Bucket {
    Bucket(capacity, refill, capacity, now)
  }

  class RateLimiter {
    const capacity: real
    const refill: real
    var tokens: real
    var updated: real

    ghost function View(): Bucket
      reads this
    {
      Bucket(capacity, refill, tokens, updated)
    }

    constructor (capacity: real, refill: real, now: real)
      ensures View() == Full(capacity, refill, now)
    {
      this.capacity, this.refill := capacity, refill;
      tokens, updated := capacity, now;
    }

    method Allow(now: real, cost: real) returns (granted: bool)
      modifies this
      ensures granted == Grants(old(View()), Request(now, cost))
      ensures View() == Served(old(View()), Request(now, cost))
    {
      var refilled := Min(capacity, tokens + (now - updated) * refill);
      assert refilled == Refilled(old(View()), now);
      tokens, updated := refilled, now;
      if tokens >= cost {
        tokens := tokens - cost;
        return true;
      }
      return false;
    }
  }

  // ---------------------------------------------------------------- runs

  function Run(b: Bucket, rs: seq<Request>): Bucket {
    if rs == [] then b else Served(Run(b, rs[..|rs| - 1]), rs[|rs| - 1])
  }

  predicate Granted(b: Bucket, rs: seq<Request>, i: nat)
    requires i < |rs|
  {
    Grants(Run(b, rs[..i]), rs[i])
  }

  /** The cost granted to the requests from `i` up to but not including `j`. */
  function Spent(b: Bucket, rs: seq<Request>, i: nat, j: nat): real
    requires i <= j <= |rs|
  {
    if i == j then 0.0 else Spent(b, rs, i, j - 1) + if Granted(b, rs, j - 1) then rs[j - 1].cost else 0.0
  }

  /** A bucket that starts full, a clock that never runs back, and costs that are not negative. */
  ghost predicate Timed(b: Bucket, rs: seq<Request>) {
    && b.capacity >= 0.0 && b.refill >= 0.0 && b.tokens == b.capacity
    && (forall i :: 0 <= i < |rs| ==> b.updated <= rs[i].at && rs[i].cost >= 0.0)
    && (forall i, j :: 0 <= i < j < |rs| ==> rs[i].at <= rs[j].at)
  }

  // ---------------------------------------------------------------- the same run counted in credits

  // With time counted in the tokens it brings, a run is linear: request j comes at credits[j] and asks costs[j].

  ghost predicate Ascending(credits: seq<real>) {
    forall i, j :: 0 <= i < j < |credits| ==> credits[i] <= credits[j]
  }

  function Found(cap: real, credits: seq<real>, costs: seq<real>, j: nat): real
    requires j < |credits| == |costs|
    decreases j, 0
  {
    if j == 0 then cap
    else Min(cap, Found(cap, credits, costs, j - 1) - Taken(cap, credits, costs, j - 1) + credits[j] - credits[j - 1])
  }

  /** The cost of request `j` if the tokens it finds cover it. */
  function Taken(cap: real, credits: seq<real>, costs: seq<real>, j: nat): real
    requires j < |credits| == |costs|
    decreases j, 1
  {
    if Found(cap, credits, costs, j) >= costs[j] then costs[j] else 0.0
  }

  function Used(cap: real, credits: seq<real>, costs: seq<real>, i: nat, j: nat): real
    requires i <= j <= |credits| == |costs|
  {
    if i == j then 0.0 else Used(cap, credits, costs, i, j - 1) + Taken(cap, credits, costs, j - 1)
  }

  /** What the budget of the window that opens with request `i` leaves when request `j` comes. */
  function Left(cap: real, credits: seq<real>, costs: seq<real>, i: nat, j: nat): real
    requires i <= j < |credits| == |costs|
  {
    cap + credits[j] - credits[i] - Used(cap, credits, costs, i, j)
  }

  /** The tokens a request finds never exceed what any window leaves, and equal what some window leaves. */
  lemma {:induction false} FoundIsTightestWindow(cap: real, credits: seq<real>, costs: seq<real>, j: nat) returns (tight: nat)
    requires j < |credits| == |costs|
    ensures forall i :: 0 <= i <= j ==> Found(cap, credits, costs, j) <= Left(cap, credits, costs, i, j)
    ensures tight <= j && Found(cap, credits, costs, j) == Left(cap, credits, costs, tight, j)
  {
    if j == 0 {
      tight := 0;
    } else {
      tight := FoundIsTightestWindow(cap, credits, costs, j - 1);
      forall i | 0 <= i <= j
        ensures Found(cap, credits, costs, j) <= Left(cap, credits, costs, i, j)
      {
        assert i < j ==> Found(cap, credits, costs, j - 1) <= Left(cap, credits, costs, i, j - 1);
      }
      if Found(cap, credits, costs, j) == cap {
        tight := j;
      }
    }
  }

  lemma {:induction false} FitsIff(cap: real, credits: seq<real>, costs: seq<real>, j: nat)
    requires j < |credits| == |costs|
    ensures Found(cap, credits, costs, j) >= costs[j] <==>
            forall i :: 0 <= i <= j ==> costs[j] <= Left(cap, credits, costs, i, j)
  {
    var tight := FoundIsTightestWindow(cap, credits, costs, j);
  }

  lemma {:induction false} UsedBound(cap: real, credits: seq<real>, costs: seq<real>, i: nat, j: nat)
    requires i < j <= |credits| == |costs| && Ascending(credits) && cap >= 0.0
    ensures Used(cap, credits, costs, i, j) <= cap + credits[j - 1] - credits[i]
  {
    var tight := FoundIsTightestWindow(cap, credits, costs, j - 1);
    assert Found(cap, credits, costs, j - 1) <= Left(cap, credits, costs, i, j - 1);
    if i < j - 1 {
      UsedBound(cap, credits, costs, i, j - 1);
    }
  }

  lemma {:induction false} UsedSplit(cap: real, credits: seq<real>, costs: seq<real>, i: nat, k: nat, j: nat)
    requires i <= k <= j <= |credits| == |costs|
    ensures Used(cap, credits, costs, i, j) == Used(cap, credits, costs, i, k) + Used(cap, credits, costs, k, j)
  {
    if k < j {
      UsedSplit(cap, credits, costs, i, k, j - 1);
    }
  }

  lemma {:induction false} NothingUsed(cap: real, credits: seq<real>, costs: seq<real>, i: nat, j: nat)
    requires i <= j <= |credits| == |costs|
    requires forall k :: i <= k < j ==> Found(cap, credits, costs, k) < costs[k]
    ensures Used(cap, credits, costs, i, j) == 0.0
  {
    if i < j {
      NothingUsed(cap, credits, costs, i, j - 1);
    }
  }

  lemma {:induction false} FitsAfterWaiting(cap: real, credits: seq<real>, costs: seq<real>, k: nat, j: nat)
    requires k <= j < |credits| == |costs| && Ascending(credits) && costs[j] <= cap
    requires forall i :: k <= i < j ==> Found(cap, credits, costs, i) < costs[i]
    requires 0.0 <= costs[j] <= credits[j] - credits[k]
    ensures Found(cap, credits, costs, j) >= costs[j]
  {
    forall i | 0 <= i <= j
      ensures costs[j] <= Left(cap, credits, costs, i, j)
    {
      if i >= k {
        NothingUsed(cap, credits, costs, i, j);
      } else {
        UsedSplit(cap, credits, costs, i, k, j);
        NothingUsed(cap, credits, costs, k, j);
        UsedBound(cap, credits, costs, i, k);
      }
    }
    FitsIff(cap, credits, costs, j);
  }

  // ---------------------------------------------------------------- from credits back to seconds

  /** The tokens that have flowed in by time `t`. */
  function Credit(b: Bucket, t: real): real {
    t * b.refill
  }

  function Credits(b: Bucket, rs: seq<Request>): seq<real> {
    seq(|rs|, i requires 0 <= i < |rs| => Credit(b, rs[i].at))
  }

  function Costs(rs: seq<Request>): seq<real> {
    seq(|rs|, i requires 0 <= i < |rs| => rs[i].cost)
  }

  lemma {:induction false} RunKeepsParameters(b: Bucket, rs: seq<Request>)
    ensures Run(b, rs).capacity == b.capacity && Run(b, rs).refill == b.refill
    ensures Run(b, rs).updated == if rs == [] then b.updated else rs[|rs| - 1].at
  {
    if rs != [] {
      RunKeepsParameters(b, rs[..|rs| - 1]);
    }
  }

  lemma {:induction false} LaterCreditIsMore(b: Bucket, x: real, y: real)
    requires x <= y && b.refill >= 0.0
    ensures Credit(b, x) <= Credit(b, y)
  {
  }

  lemma {:induction false} RefilledInCredits(p: Bucket, t: real)
    ensures Refilled(p, t) == Min(p.capacity, p.tokens + Credit(p, t) - Credit(p, p.updated))
  {
    assert (t - p.updated) * p.refill == t * p.refill - p.updated * p.refill;
  }

  lemma {:induction false} RefilledAfterServing(q: Bucket, r: Request, t: real)
    ensures Refilled(Served(q, r), t)
         == Min(q.capacity, Refilled(q, r.at) - (if Grants(q, r) then r.cost else 0.0) + Credit(q, t) - Credit(q, r.at))
  {
    RefilledInCredits(Served(q, r), t);
  }

  lemma {:induction false} FirstFindsFull(b: Bucket, t: real)
    requires b.tokens == b.capacity && b.updated <= t && b.refill >= 0.0
    ensures Refilled(b, t) == b.capacity
  {
    RefilledInCredits(b, t);
    LaterCreditIsMore(b, b.updated, t);
  }

  lemma {:induction false} RunStep(b: Bucket, rs: seq<Request>, j: nat)
    requires 0 < j <= |rs|
    ensures Run(b, rs[..j]) == Served(Run(b, rs[..j - 1]), rs[j - 1])
    ensures Run(b, rs[..j - 1]).capacity == b.capacity && Run(b, rs[..j - 1]).refill == b.refill
  {
    assert rs[..j][..j - 1] == rs[..j - 1];
    RunKeepsParameters(b, rs[..j - 1]);
  }

  lemma {:induction false} FoundStep(b: Bucket, rs: seq<Request>, j: nat)
    requires 0 < j < |rs|
    ensures Found(b.capacity, Credits(b, rs), Costs(rs), j)
         == Min(b.capacity, Found(b.capacity, Credits(b, rs), Costs(rs), j - 1)
                            - (if Found(b.capacity, Credits(b, rs), Costs(rs), j - 1) >= rs[j - 1].cost then rs[j - 1].cost else 0.0)
                            + Credit(b, rs[j].at) - Credit(b, rs[j - 1].at))
  {
  }

  lemma {:induction false} SameCredit(b: Bucket, q: Bucket, t: real)
    requires q.refill == b.refill
    ensures Credit(q, t) == Credit(b, t)
  {
  }

  /** The bucket finds the tokens the credit count finds. */
  lemma {:induction false} AvailableIsFound(b: Bucket, rs: seq<Request>, j: nat)
    requires j < |rs| && Timed(b, rs)
    ensures Refilled(Run(b, rs[..j]), rs[j].at) == Found(b.capacity, Credits(b, rs), Costs(rs), j)
  {
    if j == 0 {
      FirstFindsFull(b, rs[0].at);
    } else {
      var q, r, t := Run(b, rs[..j - 1]), rs[j - 1], rs[j].at;
      RunStep(b, rs, j);
      AvailableIsFound(b, rs, j - 1);
      RefilledAfterServing(q, r, t);
      SameCredit(b, q, t);
      SameCredit(b, q, r.at);
      FoundStep(b, rs, j);
    }
  }

  lemma {:induction false} SpentIsUsed(b: Bucket, rs: seq<Request>, i: nat, j: nat)
    requires i <= j <= |rs| && Timed(b, rs)
    ensures Spent(b, rs, i, j) == Used(b.capacity, Credits(b, rs), Costs(rs), i, j)
  {
    if i < j {
      SpentIsUsed(b, rs, i, j - 1);
      AvailableIsFound(b, rs, j - 1);
    }
  }

  lemma {:induction false} CreditsAscend(b: Bucket, rs: seq<Request>)
    requires Timed(b, rs)
    ensures Ascending(Credits(b, rs))
  {
    forall i, j | 0 <= i < j < |rs|
      ensures Credits(b, rs)[i] <= Credits(b, rs)[j]
    {
      LaterCreditIsMore(b, rs[i].at, rs[j].at);
    }
  }

  /** The tokens that flow in between two moments. */
  function Inflow(b: Bucket, from: real, to: real): real {
    (to - from) * b.refill
  }

  lemma {:induction false} InflowIsCredit(b: Bucket, from: real, to: real)
    ensures Inflow(b, from, to) == Credit(b, to) - Credit(b, from)
  {
  }

  /** What may be spent in a window: capacity + refill x length, in seconds. */
  function Budget(b: Bucket, from: real, to: real): real {
    b.capacity + Inflow(b, from, to)
  }

  /** A request is granted exactly when it breaks the budget of no window that it closes: every window spends
      at most capacity + refill x length, and nothing that would fit is refused. */
  lemma {:induction false} GrantedIffEveryWindowHasRoom(b: Bucket, rs: seq<Request>, j: nat)
    requires j < |rs| && Timed(b, rs)
    ensures Granted(b, rs, j)
       <==> forall i :: 0 <= i <= j ==> Spent(b, rs, i, j) + rs[j].cost <= Budget(b, rs[i].at, rs[j].at)
  {
    hide Credit;
    hide Inflow;
    var credits, costs := Credits(b, rs), Costs(rs);
    forall i | 0 <= i <= j
      ensures Spent(b, rs, i, j) + rs[j].cost <= Budget(b, rs[i].at, rs[j].at) <==> costs[j] <= Left(b.capacity, credits, costs, i, j)
    {
      SpentIsUsed(b, rs, i, j);
      InflowIsCredit(b, rs[i].at, rs[j].at);
    }
    AvailableIsFound(b, rs, j);
    FitsIff(b.capacity, credits, costs, j);
  }

  /** No window, wherever it opens and closes, spends more than capacity + refill x length. */
  lemma {:induction false} WindowBound(b: Bucket, rs: seq<Request>, i: nat, j: nat)
    requires i < j <= |rs| && Timed(b, rs)
    ensures Spent(b, rs, i, j) <= Budget(b, rs[i].at, rs[j - 1].at)
  {
    hide Credit;
    hide Inflow;
    CreditsAscend(b, rs);
    SpentIsUsed(b, rs, i, j);
    UsedBound(b.capacity, Credits(b, rs), Costs(rs), i, j);
    InflowIsCredit(b, rs[i].at, rs[j - 1].at);
  }

  /** The token count never leaves [0, capacity]. */
  lemma {:induction false} TokensInRange(b: Bucket, rs: seq<Request>)
    requires Timed(b, rs)
    ensures 0.0 <= Run(b, rs).tokens <= b.capacity
  {
    if rs != [] {
      var n := |rs| - 1;
      TokensInRange(b, rs[..n]);
      RunKeepsParameters(b, rs[..n]);
      var before := Run(b, rs[..n]);
      RefilledInCredits(before, rs[n].at);
      LaterCreditIsMore(before, before.updated, rs[n].at);
      assert 0.0 <= Refilled(before, rs[n].at) <= b.capacity;
    }
  }

  /** Nobody starves: a request that fits the bucket is granted once cost/refill seconds passed without a grant. */
  lemma {:induction false} WaitingIsEnough(b: Bucket, rs: seq<Request>, k: nat, j: nat)
    requires k <= j < |rs| && Timed(b, rs) && rs[j].cost <= b.capacity
    requires forall i :: k <= i < j ==> !Granted(b, rs, i)
    requires rs[j].cost <= Inflow(b, rs[k].at, rs[j].at)
    ensures Granted(b, rs, j)
  {
    InflowIsCredit(b, rs[k].at, rs[j].at);
    forall i | k <= i <= j
      ensures Granted(b, rs, i) <==> Found(b.capacity, Credits(b, rs), Costs(rs), i) >= Costs(rs)[i]
    {
      AvailableIsFound(b, rs, i);
    }
    CreditsAscend(b, rs);
    FitsAfterWaiting(b.capacity, Credits(b, rs), Costs(rs), k, j);
  }
}
