/** What a connection is told, and how long its state stays: the remaining requests, the refusals, and the sweeps. */
module RateAnswers {
  import opened Wrappers
  import opened RateLimiter
  import Quotients

  /** Nothing that has been idle for long is kept, except the connection at hand. */
  predicate FreshlySwept(l: Limiter, who: ConnectionId, now: nat) {
    forall id | id in l.connections && id != who :: now < l.connections[id].lastSeen || now - l.connections[id].lastSeen < l.limits.idleTtl
  }

  /** No connection but the one at hand has changed or gone. */
  predicate OthersStay(l: Limiter, t: Limiter, who: ConnectionId) {
    && (forall id | id in l.connections && id != who :: id in t.connections && t.connections[id] == l.connections[id])
    && (forall id | id in t.connections && id != who :: id in l.connections)
  }

  /** The number of requests in a list of operations. */
  function RequestCount(ops: seq<Op>): nat {
    if ops == [] then 0
    else if ops[|ops| - 1].Request? then RequestCount(ops[..|ops| - 1]) + 1
    else RequestCount(ops[..|ops| - 1])
  }

  lemma ConsumingCounts(l: Limiter, id: ConnectionId, tier: Tier, now: nat)
    requires LimitsOk(l.limits) && l.operations < l.limits.cleanupEvery
    ensures var t := Consume(l, id, tier, now).0;
            && t.limits == l.limits
            && t.operations == (if l.operations + 1 == l.limits.cleanupEvery then 0 else l.operations + 1)
            && (t.operations == 0 ==> FreshlySwept(t, id, now))
            && (t.operations > 0 && (id in l.connections || |l.connections| < l.limits.maxConnections) ==> OthersStay(l, t, id))
  {
    hide Refilled, Spend, QuotaOf, NewConnection;
  }

  /** How many requests there have been since the last scheduled sweep. */
  function SinceSweep(requests: nat, every: nat): nat
    requires every >= 1
  {
    requests % every
  }

  lemma NextRequest(n: nat, every: nat)
    requires every >= 1
    ensures SinceSweep(n, every) < every
    ensures SinceSweep(n + 1, every) == if SinceSweep(n, every) + 1 == every then 0 else SinceSweep(n, every) + 1
  {
    NextRemainder(n, every);
  }

  lemma OneOperationIsCounted(l: Limiter, op: Op, n: nat)
    requires LimitsOk(l.limits) && l.operations == SinceSweep(n, l.limits.cleanupEvery)
    ensures var t := After(l, op);
            t.limits == l.limits && t.operations == SinceSweep(if op.Request? then n + 1 else n, l.limits.cleanupEvery)
  {
    hide Consume, SinceSweep;
    NextRequest(n, l.limits.cleanupEvery);
    if op.Request? {
      ConsumingCounts(l, op.id, op.tier, op.now);
    }
  }

  lemma {:induction false} OperationsAreCounted(l: Limiter, ops: seq<Op>)
    requires LimitsOk(l.limits) && l.operations == 0
    ensures Run(l, ops).limits == l.limits
    ensures Run(l, ops).operations == SinceSweep(RequestCount(ops), l.limits.cleanupEvery)
    decreases |ops|
  {
    hide After, SinceSweep, LimitsOk;
    if ops == [] {
      NothingSince(l);
    } else {
      var front, op := ops[..|ops| - 1], ops[|ops| - 1];
      OperationsAreCounted(l, front);
      OneOperationIsCounted(Run(l, front), op, RequestCount(front));
    }
  }

  lemma NothingSince(l: Limiter)
    requires LimitsOk(l.limits)
    ensures SinceSweep(0, l.limits.cleanupEvery) == 0
  {
    Quotients.QuotientIsUnique(0, l.limits.cleanupEvery, 0, 0);
  }

  lemma NextRemainder(n: nat, d: nat)
    requires d >= 1
    ensures (n + 1) % d == if n % d + 1 == d then 0 else n % d + 1
  {
    Quotients.QuotientStep(n, 1, d);
    var r := n % d;
    if r + 1 == d {
      Quotients.QuotientIsUnique(r + 1, d, 1, 0);
    } else {
      Quotients.QuotientIsUnique(r + 1, d, 0, r + 1);
    }
  }

  /**
   Sweeps come in time: on every run, each time as many requests have been made as the limits say, the next state holds no
   connection that has been idle for the configured time, but the one that asked; between two such requests nothing is
   dropped, unless a new connection finds the store full.
   */
  lemma SweepsComeInTime(l: Limiter, ops: seq<Op>, id: ConnectionId, tier: Tier, now: nat)
    requires LimitsOk(l.limits) && l.operations == 0
    ensures Run(l, ops).limits == l.limits
    ensures var s := Run(l, ops);
            var t := Consume(s, id, tier, now).0;
            if SinceSweep(RequestCount(ops) + 1, l.limits.cleanupEvery) == 0 then FreshlySwept(t, id, now)
            else id in s.connections || |s.connections| < l.limits.maxConnections ==> OthersStay(s, t, id)
  {
    hide Consume, FreshlySwept, OthersStay, Run, SinceSweep;
    OperationsAreCounted(l, ops);
    NextRequest(RequestCount(ops), l.limits.cleanupEvery);
    ConsumingCounts(Run(l, ops), id, tier, now);
  }

  /**
   What is left: a connection that is allowed a request is told how many more it could make at once, which is the whole
   tokens its bucket still holds; one that is over its quota is told none, and indeed could make none; and a refusal for
   capacity happens exactly when a new connection finds the store full even after a sweep.
   */
  lemma RemainingIsWhatIsLeft(l: Limiter, id: ConnectionId, tier: Tier, now: nat)
    requires LimiterOk(l, now)
    ensures var (t, d) := Consume(l, id, tier, now);
            && (d.allowed ==> d.remaining == Available(t, id, tier, now).Floor && d.reason == None && d.retryAfter == Some(0))
            && (!d.allowed ==> d.remaining == 0 && d.reason.Some?)
            && (d.reason == Some(OverQuota) ==> Available(t, id, tier, now).Floor == 0)
            && (d.reason == Some(OverCapacity) <==>
                && id !in Swept(l, id, now).connections
                && |Swept(l, id, now).connections| >= l.limits.maxConnections)
  {
    SweptStaysOk(l, id, now);
    hide Swept, EvictionIsFair;
    var s := Swept(l, id, now);
    var c := if id in s.connections then s.connections[id] else NewConnection(s.limits, now);
    TakingTells(s, id, c, tier, now);
  }

  lemma SweptStaysOk(l: Limiter, id: ConnectionId, now: nat)
    requires LimiterOk(l, now)
    ensures var s := Swept(l, id, now);
            s.limits == l.limits && LimitsOk(s.limits) && forall k | k in s.connections :: k in l.connections && s.connections[k] == l.connections[k]
    ensures forall k | k in Swept(l, id, now).connections :: ConnectionOk(l.limits, Swept(l, id, now).connections[k], now)
  {
  }

  lemma TakingTells(s: Limiter, id: ConnectionId, c: Connection, tier: Tier, now: nat)
    requires LimitsOk(s.limits) && c.lastSeen <= now
    requires BucketFits(BucketOf(c, tier), QuotaOf(s.limits.quotas, tier), c.lastSeen)
    ensures var (t, d) := Take(s, id, c, tier, now);
            && (d.allowed ==> d.remaining == Available(t, id, tier, now).Floor && d.reason == None && d.retryAfter == Some(0))
            && (!d.allowed ==> d.remaining == 0 && d.reason == Some(OverQuota) && Available(t, id, tier, now).Floor == 0)
  {
    var q := QuotaOf(s.limits.quotas, tier);
    RefilledFits(BucketOf(c, tier), q, c.lastSeen, now);
  }
}
