/**
 Per-connection token buckets. Over any window a connection is allowed at most a burst plus the refill of the
 window, even when its state is evicted and rebuilt in between; and the answered wait is the least that works.
 */
module RateLimiter {
  import opened Wrappers

  type ConnectionId = nat

  datatype Tier = General | MatchInput | MatchFeedback

  datatype Quota = Quota(capacity: nat, refillPerSecond: real)

  datatype Quotas = Quotas(general: Quota, matchInput: Quota, matchFeedback: Quota)

  datatype Bucket = Bucket(tokens: real, updatedAt: nat)

  datatype Connection = Connection(lastSeen: nat, general: Bucket, matchInput: Bucket, matchFeedback: Bucket)

  datatype Limits = Limits(quotas: Quotas, maxConnections: nat, idleTtl: nat, cleanupEvery: nat)

  datatype Limiter = Limiter(limits: Limits, connections: map<ConnectionId, Connection>, operations: nat)

  datatype Reason = OverQuota | OverCapacity

  datatype Decision = Decision(allowed: bool, remaining: int, retryAfter: Option<int>, reason: Option<Reason>)

  function QuotaOf(q: Quotas, tier: Tier): Quota {
    match tier
    case General => q.general
    case MatchInput => q.matchInput
    case MatchFeedback => q.matchFeedback
  }

  predicate QuotaOk(q: Quota) { q.capacity >= 1 && q.refillPerSecond > 0.0 }

  predicate LimitsOk(l: Limits) {
    && QuotaOk(l.quotas.general) && QuotaOk(l.quotas.matchInput) && QuotaOk(l.quotas.matchFeedback)
    && l.maxConnections >= 1 && l.idleTtl >= 1 && l.cleanupEvery >= 1
  }

  function BucketOf(c: Connection, tier: Tier): Bucket {
    match tier
    case General => c.general
    case MatchInput => c.matchInput
    case MatchFeedback => c.matchFeedback
  }

  function WithBucket(c: Connection, tier: Tier, b: Bucket): Connection {
    match tier
    case General => c.(general := b)
    case MatchInput => c.(matchInput := b)
    case MatchFeedback => c.(matchFeedback := b)
  }

  function NewConnection(l: Limits, now: nat): Connection {
    Connection(now, Bucket(l.quotas.general.capacity as real, now), Bucket(l.quotas.matchInput.capacity as real, now),
               Bucket(l.quotas.matchFeedback.capacity as real, now))
  }

  // ---------------------------------------------------------------- arithmetic

  /** What a rate restores over a time. */
  function Accrued(rate: real, ms: int): real { ms as real * rate / 1000.0 }

  function Lesser(a: real, b: real): real { if a <= b then a else b }

  function CeilOf(x: real): int { -((-x).Floor) }

  lemma AccruedAdds(rate: real, a: int, b: int)
    ensures Accrued(rate, a + b) == Accrued(rate, a) + Accrued(rate, b)
  {
    assert (a + b) as real == a as real + b as real;
  }

  lemma AccruedIsMonotone(rate: real, a: int, b: int)
    requires rate > 0.0 && a <= b
    ensures Accrued(rate, a) <= Accrued(rate, b)
    ensures a < b ==> Accrued(rate, a) < Accrued(rate, b)
  {
    var d := (b - a) as real;
    assert d >= 0.0 && (a < b ==> d > 0.0);
    assert d * rate >= 0.0 && (a < b ==> d * rate > 0.0);
    AccruedAdds(rate, a, b - a);
  }

  // ---------------------------------------------------------------- buckets

  function Refilled(b: Bucket, q: Quota, now: nat): Bucket {
    if now <= b.updatedAt then b
    else Bucket(Lesser(q.capacity as real, b.tokens + Accrued(q.refillPerSecond, now - b.updatedAt)), now)
  }

  /** The least whole number of milliseconds after which a bucket holds a token. */
  function RetryAfter(tokens: real, q: Quota): int
    requires q.refillPerSecond > 0.0
  {
    var wait := CeilOf((1.0 - tokens) / q.refillPerSecond * 1000.0);
    if wait < 1 then 1 else wait
  }

  function Spend(b: Bucket, q: Quota): (Bucket, Decision)
    requires q.refillPerSecond > 0.0
  {
    if b.tokens >= 1.0 then (b.(tokens := b.tokens - 1.0), Decision(true, (b.tokens - 1.0).Floor, Some(0), None))
    else (b, Decision(false, 0, Some(RetryAfter(b.tokens, q)), Some(OverQuota)))
  }

  // ---------------------------------------------------------------- connections

  predicate Idle(l: Limits, c: Connection, at: int) { at >= c.lastSeen && at - c.lastSeen >= l.idleTtl }

  function CleanupIdle(l: Limiter, at: nat): Limiter {
    l.(connections := map id | id in l.connections && !Idle(l.limits, l.connections[id], at) :: l.connections[id])
  }

  /** Every so often, and when the store is full, idle connections are dropped first. */
  function Swept(l: Limiter, id: ConnectionId, now: nat): Limiter {
    var counted :=
      if l.operations + 1 >= l.limits.cleanupEvery then CleanupIdle(l, now).(operations := 0)
      else l.(operations := l.operations + 1);
    if id !in counted.connections && |counted.connections| >= counted.limits.maxConnections
    then CleanupIdle(counted, now) else counted
  }

  function Later(a: nat, b: nat): nat { if a >= b then a else b }

  function Take(l: Limiter, id: ConnectionId, c: Connection, tier: Tier, now: nat): (Limiter, Decision)
    requires LimitsOk(l.limits)
  {
    var q := QuotaOf(l.limits.quotas, tier);
    var at := Later(now, c.lastSeen);
    var spent := Spend(Refilled(BucketOf(c, tier), q, at), q);
    (l.(connections := l.connections[id := WithBucket(c.(lastSeen := at), tier, spent.0)]), spent.1)
  }

  function Consume(l: Limiter, id: ConnectionId, tier: Tier, now: nat): (Limiter, Decision)
    requires LimitsOk(l.limits)
  {
    var s := Swept(l, id, now);
    if id in s.connections then Take(s, id, s.connections[id], tier, now)
    else if |s.connections| >= s.limits.maxConnections then (s, Decision(false, 0, None, Some(OverCapacity)))
    else Take(s, id, NewConnection(s.limits, now), tier, now)
  }

  function Remove(l: Limiter, id: ConnectionId): Limiter { l.(connections := l.connections - {id}) }

  // ---------------------------------------------------------------- what a connection may still spend

  /** The tokens a connection could spend at a time; an unknown connection starts with a full bucket. */
  function Available(l: Limiter, id: ConnectionId, tier: Tier, at: nat): real {
    var q := QuotaOf(l.limits.quotas, tier);
    if id in l.connections then Refilled(BucketOf(l.connections[id], tier), q, at).tokens else q.capacity as real
  }

  predicate BucketFits(b: Bucket, q: Quota, seen: nat) { 0.0 <= b.tokens <= q.capacity as real && b.updatedAt <= seen }

  predicate ConnectionOk(l: Limits, c: Connection, clock: nat) {
    && c.lastSeen <= clock
    && BucketFits(c.general, l.quotas.general, c.lastSeen)
    && BucketFits(c.matchInput, l.quotas.matchInput, c.lastSeen)
    && BucketFits(c.matchFeedback, l.quotas.matchFeedback, c.lastSeen)
  }

  /** Nothing in the store is ahead of the clock, and buckets hold between nothing and their capacity. */
  predicate LimiterOk(l: Limiter, clock: nat) {
    && LimitsOk(l.limits) && |l.connections| <= l.limits.maxConnections
    && forall id | id in l.connections :: ConnectionOk(l.limits, l.connections[id], clock)
  }

  /** An idle connection has time to fill its bucket before it is dropped. */
  predicate EvictionIsFair(l: Limits, tier: Tier) {
    Accrued(QuotaOf(l.quotas, tier).refillPerSecond, l.idleTtl) >= QuotaOf(l.quotas, tier).capacity as real
  }

  lemma RefilledFits(b: Bucket, q: Quota, seen: nat, now: nat)
    requires QuotaOk(q) && BucketFits(b, q, seen) && seen <= now
    ensures BucketFits(Refilled(b, q, now), q, now) && Refilled(b, q, now).tokens >= b.tokens
  {
    AccruedIsMonotone(q.refillPerSecond, 0, now - b.updatedAt);
  }

  lemma AvailableIsBounded(l: Limiter, id: ConnectionId, tier: Tier, at: nat)
    requires LimiterOk(l, at)
    ensures 0.0 <= Available(l, id, tier, at) <= QuotaOf(l.limits.quotas, tier).capacity as real
  {
    if id in l.connections {
      var c := l.connections[id];
      RefilledFits(BucketOf(c, tier), QuotaOf(l.limits.quotas, tier), c.lastSeen, at);
    }
  }

  /** Time alone adds at most the refill. */
  lemma WaitingAddsTheRefill(l: Limiter, id: ConnectionId, tier: Tier, from: nat, to: nat)
    requires LimiterOk(l, from) && from <= to
    ensures Available(l, id, tier, to) <= Available(l, id, tier, from) + Accrued(QuotaOf(l.limits.quotas, tier).refillPerSecond, to - from)
  {
    var q := QuotaOf(l.limits.quotas, tier);
    AccruedIsMonotone(q.refillPerSecond, 0, to - from);
    if id in l.connections {
      var b := BucketOf(l.connections[id], tier);
      AccruedAdds(q.refillPerSecond, from - b.updatedAt, to - from);
      AccruedIsMonotone(q.refillPerSecond, 0, from - b.updatedAt);
    }
  }

  /** Where eviction is fair, a connection that has idled long enough to be dropped has a full bucket. */
  lemma IdlersAreFull(l: Limiter, id: ConnectionId, tier: Tier, now: nat)
    requires LimiterOk(l, now) && EvictionIsFair(l.limits, tier)
    requires id in l.connections && Idle(l.limits, l.connections[id], now)
    ensures Available(l, id, tier, now) == QuotaOf(l.limits.quotas, tier).capacity as real
  {
    var q, b := QuotaOf(l.limits.quotas, tier), BucketOf(l.connections[id], tier);
    AccruedIsMonotone(q.refillPerSecond, l.limits.idleTtl, now - b.updatedAt);
  }

  lemma CleanupOnlyDrops(l: Limiter, id: ConnectionId, tier: Tier, now: nat)
    requires LimiterOk(l, now)
    ensures LimiterOk(CleanupIdle(l, now), now)
    ensures Available(CleanupIdle(l, now), id, tier, now)
            == if id in l.connections && Idle(l.limits, l.connections[id], now)
               then QuotaOf(l.limits.quotas, tier).capacity as real else Available(l, id, tier, now)
  {
    var t := CleanupIdle(l, now);
    assert t.connections.Keys <= l.connections.Keys;
    SubsetIsSmaller(t.connections.Keys, l.connections.Keys);
  }

  /** Dropping an idle connection gives it nothing: its bucket was full again. */
  lemma CleanupIsNeutral(l: Limiter, id: ConnectionId, tier: Tier, now: nat)
    requires LimiterOk(l, now) && EvictionIsFair(l.limits, tier)
    ensures LimiterOk(CleanupIdle(l, now), now)
    ensures Available(CleanupIdle(l, now), id, tier, now) == Available(l, id, tier, now)
  {
    CleanupOnlyDrops(l, id, tier, now);
    if id in l.connections && Idle(l.limits, l.connections[id], now) {
      IdlersAreFull(l, id, tier, now);
    }
  }

  lemma SubsetIsSmaller(a: set<ConnectionId>, b: set<ConnectionId>)
    requires a <= b
    ensures |a| <= |b|
  {
    assert b == a + (b - a);
  }

  /** The sweep before a request drops the connection. */
  predicate Evicts(l: Limiter, who: ConnectionId, id: ConnectionId, now: nat) {
    id in l.connections && id !in Swept(l, who, now).connections
  }

  /** What a sweep leaves a connection: a full bucket if it drops it, and otherwise what it had. */
  lemma SweepsOnlyDrop(l: Limiter, id: ConnectionId, other: ConnectionId, tier: Tier, now: nat)
    requires LimiterOk(l, now)
    ensures var s := Swept(l, other, now);
            && LimiterOk(s, now) && s.limits == l.limits
            && Available(s, id, tier, now)
               == (if Evicts(l, other, id, now) then QuotaOf(l.limits.quotas, tier).capacity as real
                   else Available(l, id, tier, now))
            && (Evicts(l, other, id, now) ==> Idle(l.limits, l.connections[id], now))
  {
    var counted := if l.operations + 1 >= l.limits.cleanupEvery then CleanupIdle(l, now).(operations := 0)
                   else l.(operations := l.operations + 1);
    CleanupOnlyDrops(l, id, tier, now);
    CleanupOnlyDrops(counted, id, tier, now);
  }

  lemma SpendingFits(b: Bucket, q: Quota, now: nat)
    requires QuotaOk(q) && BucketFits(b, q, now)
    ensures BucketFits(Spend(b, q).0, q, now)
    ensures Spend(b, q).0.tokens == b.tokens - (if Spend(b, q).1.allowed then 1.0 else 0.0)
    ensures Spend(b, q).1.allowed <==> b.tokens >= 1.0
  {
  }

  lemma TakingIsExact(l: Limiter, id: ConnectionId, c: Connection, tier: Tier, now: nat)
    requires LimitsOk(l.limits) && ConnectionOk(l.limits, c, now)
    ensures var r := Take(l, id, c, tier, now);
            && ConnectionOk(l.limits, r.0.connections[id], now)
            && Available(r.0, id, tier, now) == Refilled(BucketOf(c, tier), QuotaOf(l.limits.quotas, tier), now).tokens
                                                - (if r.1.allowed then 1.0 else 0.0)
            && (r.1.allowed <==> Refilled(BucketOf(c, tier), QuotaOf(l.limits.quotas, tier), now).tokens >= 1.0)
  {
    var q := QuotaOf(l.limits.quotas, tier);
    RefilledFits(BucketOf(c, tier), q, c.lastSeen, now);
    SpendingFits(Refilled(BucketOf(c, tier), q, now), q, now);
  }

  lemma TakingLeavesOtherTiers(l: Limiter, id: ConnectionId, c: Connection, tier: Tier, now: nat, other: Tier)
    requires LimitsOk(l.limits) && ConnectionOk(l.limits, c, now) && other != tier
    ensures BucketOf(Take(l, id, c, tier, now).0.connections[id], other) == BucketOf(c, other)
  {
  }

  /** One request: what is left and what was granted add up to what was available, or to a full bucket after a drop. */
  lemma RequestsSpendExactly(l: Limiter, who: ConnectionId, asked: Tier, id: ConnectionId, tier: Tier, now: nat)
    requires LimiterOk(l, now)
    ensures var r := Consume(l, who, asked, now);
            var had := if Evicts(l, who, id, now) then QuotaOf(l.limits.quotas, tier).capacity as real
                       else Available(l, id, tier, now);
            && LimiterOk(r.0, now) && r.0.limits == l.limits
            && Available(r.0, id, tier, now) == had - (if r.1.allowed && who == id && asked == tier then 1.0 else 0.0)
            && (r.1.allowed && who == id && asked == tier ==> had >= 1.0)
  {
    hide Idle, BucketFits;
    SweepsOnlyDrop(l, id, who, tier, now);
    var s := Swept(l, who, now);
    if who in s.connections {
      RequestSpends(s, who, s.connections[who], asked, id, tier, now);
    } else if |s.connections| < s.limits.maxConnections {
      NewConnectionIsFull(s.limits, tier, now);
      RequestSpends(s, who, NewConnection(s.limits, now), asked, id, tier, now);
    }
  }

  lemma NewConnectionIsFull(l: Limits, tier: Tier, now: nat)
    requires LimitsOk(l)
    ensures ConnectionOk(l, NewConnection(l, now), now)
    ensures Refilled(BucketOf(NewConnection(l, now), tier), QuotaOf(l.quotas, tier), now).tokens == QuotaOf(l.quotas, tier).capacity as real
  {
  }

  lemma RequestSpends(s: Limiter, who: ConnectionId, c: Connection, asked: Tier, id: ConnectionId, tier: Tier, now: nat)
    requires LimiterOk(s, now) && ConnectionOk(s.limits, c, now)
    requires who in s.connections ==> c == s.connections[who]
    requires who !in s.connections ==>
               && |s.connections| < s.limits.maxConnections
               && Refilled(BucketOf(c, tier), QuotaOf(s.limits.quotas, tier), now).tokens == QuotaOf(s.limits.quotas, tier).capacity as real
    ensures var r := Take(s, who, c, asked, now);
            && LimiterOk(r.0, now) && r.0.limits == s.limits
            && Available(r.0, id, tier, now)
               == Available(s, id, tier, now) - (if r.1.allowed && who == id && asked == tier then 1.0 else 0.0)
            && (r.1.allowed && who == id && asked == tier ==> Available(s, id, tier, now) >= 1.0)
  {
    TakingIsExact(s, who, c, asked, now);
    if asked != tier {
      TakingLeavesOtherTiers(s, who, c, asked, now, tier);
    }
  }

  // ---------------------------------------------------------------- windows

  datatype Op = Request(id: ConnectionId, tier: Tier, now: nat) | Sweep(now: nat) | Removal(id: ConnectionId, now: nat)

  function After(l: Limiter, op: Op): Limiter
    requires LimitsOk(l.limits)
  {
    match op
    case Request(id, tier, now) => Consume(l, id, tier, now).0
    case Sweep(now) => CleanupIdle(l, now)
    case Removal(id, _) => Remove(l, id)
  }

  predicate Granted(l: Limiter, op: Op, id: ConnectionId, tier: Tier)
    requires LimitsOk(l.limits)
  {
    op.Request? && op.id == id && op.tier == tier && Consume(l, op.id, op.tier, op.now).1.allowed
  }

  lemma AfterKeepsLimits(l: Limiter, op: Op)
    requires LimitsOk(l.limits)
    ensures After(l, op).limits == l.limits
  {
  }

  function Run(l: Limiter, ops: seq<Op>): (t: Limiter)
    requires LimitsOk(l.limits)
    ensures t.limits == l.limits
    decreases |ops|
  {
    if ops == [] then l
    else
      var before := Run(l, ops[..|ops| - 1]);
      AfterKeepsLimits(before, ops[|ops| - 1]);
      After(before, ops[|ops| - 1])
  }

  /** How many requests of one connection and tier were allowed. */
  function Allowed(l: Limiter, ops: seq<Op>, id: ConnectionId, tier: Tier): nat
    requires LimitsOk(l.limits)
    decreases |ops|
  {
    if ops == [] then 0
    else
      Allowed(l, ops[..|ops| - 1], id, tier)
      + (if Granted(Run(l, ops[..|ops| - 1]), ops[|ops| - 1], id, tier) then 1 else 0)
  }

  function LastTime(ops: seq<Op>, from: nat): nat { if ops == [] then from else ops[|ops| - 1].now }

  /** The clock never goes back. */
  predicate Monotone(ops: seq<Op>, from: nat)
    decreases |ops|
  {
    ops == [] || (Monotone(ops[..|ops| - 1], from) && LastTime(ops[..|ops| - 1], from) <= ops[|ops| - 1].now)
  }

  /** The operation gives a connection a fresh bucket: it is removed, or dropped before its bucket could refill. */
  predicate Restarts(l: Limiter, op: Op, id: ConnectionId, tier: Tier) {
    id in l.connections &&
    match op
    case Request(who, _, now) => Evicts(l, who, id, now) && !EvictionIsFair(l.limits, tier)
    case Sweep(now) => Idle(l.limits, l.connections[id], now) && !EvictionIsFair(l.limits, tier)
    case Removal(who, _) => who == id
  }

  /** How often the operations of a run give a connection a fresh bucket. */
  function FreshBuckets(l: Limiter, ops: seq<Op>, id: ConnectionId, tier: Tier): nat
    requires LimitsOk(l.limits)
    decreases |ops|
  {
    if ops == [] then 0
    else
      FreshBuckets(l, ops[..|ops| - 1], id, tier)
      + (if Restarts(Run(l, ops[..|ops| - 1]), ops[|ops| - 1], id, tier) then 1 else 0)
  }

  lemma NothingAccrues(rate: real)
    ensures Accrued(rate, 0) == 0.0
  {
  }

  lemma SameLimits(l: Limiter, clock: nat)
    requires LimiterOk(l, clock)
    ensures LimitsOk(l.limits)
  {
  }

  lemma LaterClock(l: Limiter, from: nat, to: nat)
    requires LimiterOk(l, from) && from <= to
    ensures LimiterOk(l, to)
  {
  }

  /** One operation: what is left and what was granted come from what was there, plus a fresh bucket if it gives one. */
  lemma OperationBalances(l: Limiter, op: Op, id: ConnectionId, tier: Tier)
    requires LimiterOk(l, op.now)
    ensures LimiterOk(After(l, op), op.now) && After(l, op).limits == l.limits
    ensures Available(After(l, op), id, tier, op.now) + (if Granted(l, op, id, tier) then 1.0 else 0.0)
         <= Available(l, id, tier, op.now)
            + (if Restarts(l, op, id, tier) then QuotaOf(l.limits.quotas, tier).capacity as real else 0.0)
  {
    hide BucketFits, EvictionIsFair, Available, Idle, Swept;
    AvailableIsBounded(l, id, tier, op.now);
    match op
    case Request(who, asked, now) =>
      hide Consume;
      RequestsSpendExactly(l, who, asked, id, tier, now);
      SweepsOnlyDrop(l, id, who, tier, now);
      if Evicts(l, who, id, now) && EvictionIsFair(l.limits, tier) {
        IdlersAreFull(l, id, tier, now);
      }
    case Sweep(now) =>
      CleanupOnlyDrops(l, id, tier, now);
      if EvictionIsFair(l.limits, tier) {
        CleanupIsNeutral(l, id, tier, now);
      }
    case Removal(who, now) => RemovalBalances(l, who, id, tier, now);
  }

  lemma RemovalBalances(l: Limiter, who: ConnectionId, id: ConnectionId, tier: Tier, now: nat)
    requires LimiterOk(l, now)
    ensures LimiterOk(Remove(l, who), now)
    ensures Available(Remove(l, who), id, tier, now)
            == if who == id then QuotaOf(l.limits.quotas, tier).capacity as real else Available(l, id, tier, now)
    ensures id !in l.connections ==> Available(l, id, tier, now) == QuotaOf(l.limits.quotas, tier).capacity as real
  {
    SubsetIsSmaller(Remove(l, who).connections.Keys, l.connections.Keys);
  }

  /** The books of a window: grants plus what is left never exceed what was there, the refill and the fresh buckets. */
  lemma {:induction false} WindowBalances(l: Limiter, ops: seq<Op>, from: nat, id: ConnectionId, tier: Tier)
    requires LimiterOk(l, from) && Monotone(ops, from)
    ensures LimiterOk(Run(l, ops), LastTime(ops, from)) && LastTime(ops, from) >= from
    ensures Available(Run(l, ops), id, tier, LastTime(ops, from)) + Allowed(l, ops, id, tier) as real
         <= Available(l, id, tier, from)
            + Accrued(QuotaOf(l.limits.quotas, tier).refillPerSecond, LastTime(ops, from) - from)
            + (FreshBuckets(l, ops, id, tier) * QuotaOf(l.limits.quotas, tier).capacity) as real
    decreases |ops|
  {
    hide Available, Accrued, LimiterOk, After, Granted, Restarts;
    var q := QuotaOf(l.limits.quotas, tier);
    SameLimits(l, from);
    if ops == [] {
      NothingAccrues(q.refillPerSecond);
    } else {
      var front, op := ops[..|ops| - 1], ops[|ops| - 1];
      var before := Run(l, front);
      var last, now := LastTime(front, from), op.now;
      WindowBalances(l, front, from, id, tier);
      WaitingAddsTheRefill(before, id, tier, last, now);
      AccruedAdds(q.refillPerSecond, last - from, now - last);
      LaterClock(before, last, now);
      SameLimits(before, last);
      OperationBalances(before, op, id, tier);
      OneMoreBucket(FreshBuckets(l, front, id, tier), q.capacity);
    }
  }

  lemma OneMoreBucket(n: nat, capacity: nat)
    ensures ((n + 1) * capacity) as real == (n * capacity) as real + capacity as real
  {
  }

  /**
   The rate bound: over any window of a monotone clock, however other connections come and go, the allowed requests of
   a connection number at most the capacity plus the refill, once more the capacity for every removal of the
   connection, and for every eviction only where the idle time is too short to refill a bucket.
   */
  lemma RequestsStayWithinTheRate(l: Limiter, ops: seq<Op>, from: nat, to: nat, id: ConnectionId, tier: Tier)
    requires LimiterOk(l, from) && Monotone(ops, from) && LastTime(ops, from) <= to
    ensures var q := QuotaOf(l.limits.quotas, tier);
            Allowed(l, ops, id, tier) as real
            <= ((1 + FreshBuckets(l, ops, id, tier)) * q.capacity) as real + Accrued(q.refillPerSecond, to - from)
  {
    hide Available, Accrued, Run, Allowed, Monotone, FreshBuckets;
    var q := QuotaOf(l.limits.quotas, tier);
    WindowBalances(l, ops, from, id, tier);
    AvailableIsBounded(l, id, tier, from);
    AvailableIsBounded(Run(l, ops), id, tier, LastTime(ops, from));
    AccruedIsMonotone(q.refillPerSecond, LastTime(ops, from) - from, to - from);
    OneMoreBucket(FreshBuckets(l, ops, id, tier), q.capacity);
  }

  predicate NeverRemoved(ops: seq<Op>, id: ConnectionId) { forall i | 0 <= i < |ops| :: ops[i].Removal? ==> ops[i].id != id }

  lemma {:induction false} NoFreshBuckets(l: Limiter, ops: seq<Op>, id: ConnectionId, tier: Tier)
    requires LimitsOk(l.limits) && EvictionIsFair(l.limits, tier) && NeverRemoved(ops, id)
    ensures FreshBuckets(l, ops, id, tier) == 0
    decreases |ops|
  {
    if ops != [] {
      NoFreshBuckets(l, ops[..|ops| - 1], id, tier);
    }
  }

  // ---------------------------------------------------------------- where the plain bound fails

  /** The plain bound of a window that opens at time zero. */
  predicate WithinPlainBound(l: Limiter, ops: seq<Op>, id: ConnectionId, tier: Tier)
    requires LimitsOk(l.limits)
  {
    var q := QuotaOf(l.limits.quotas, tier);
    Allowed(l, ops, id, tier) as real <= q.capacity as real + Accrued(q.refillPerSecond, LastTime(ops, 0))
  }

  function Burst(id: ConnectionId, tier: Tier, now: nat, n: nat): seq<Op>
    decreases n
  {
    if n == 0 then [] else Burst(id, tier, now, n - 1) + [Request(id, tier, now)]
  }

  function Emptied(limits: Limits): Limiter { Limiter(limits, map[], 0) }

  lemma RunJoins(l: Limiter, a: seq<Op>, op: Op, id: ConnectionId, tier: Tier)
    requires LimitsOk(l.limits)
    ensures Run(l, a + [op]) == After(Run(l, a), op)
    ensures Allowed(l, a + [op], id, tier) == Allowed(l, a, id, tier) + (if Granted(Run(l, a), op, id, tier) then 1 else 0)
  {
    assert (a + [op])[..|a|] == a;
  }

  lemma MonotoneJoins(a: seq<Op>, op: Op)
    requires Monotone(a, 0) && LastTime(a, 0) <= op.now
    ensures Monotone(a + [op], 0) && LastTime(a + [op], 0) == op.now
  {
    assert (a + [op])[..|a|] == a;
  }

  /** Only this connection is known; it has been seen just now and has `left` tokens. */
  ghost predicate Alone(l: Limiter, id: ConnectionId, tier: Tier, now: nat, left: nat) {
    && LimiterOk(l, now) && l.connections.Keys <= {id}
    && Available(l, id, tier, now) == left as real
    && (id in l.connections ==> l.connections[id].lastSeen == now)
  }

  lemma RequestAlone(l: Limiter, id: ConnectionId, tier: Tier, now: nat, left: nat)
    requires Alone(l, id, tier, now, left) && left >= 1
    ensures var r := Consume(l, id, tier, now);
            r.1.allowed && Alone(r.0, id, tier, now, left - 1) && id in r.0.connections
  {
    RequestsSpendExactly(l, id, tier, id, tier, now);
    NewConnectionIsFull(l.limits, tier, now);
    var s := Swept(l, id, now);
    assert s.connections == l.connections;
    assert id !in l.connections ==> l.connections == map[];
    var c := if id in l.connections then l.connections[id] else NewConnection(s.limits, now);
    TakingIsExact(s, id, c, tier, now);
  }

  lemma BurstGrows(front: seq<Op>, id: ConnectionId, tier: Tier, now: nat, n: nat)
    requires n > 0
    ensures front + Burst(id, tier, now, n) == (front + Burst(id, tier, now, n - 1)) + [Request(id, tier, now)]
  {
  }

  lemma BurstOfNone(front: seq<Op>, id: ConnectionId, tier: Tier, now: nat)
    ensures front + Burst(id, tier, now, 0) == front
  {
  }

  lemma {:induction false} BurstsAreAllowed(l: Limiter, front: seq<Op>, id: ConnectionId, tier: Tier, now: nat, left: nat, n: nat)
    requires LimitsOk(l.limits) && Monotone(front, 0) && LastTime(front, 0) <= now
    requires Alone(Run(l, front), id, tier, now, left) && n <= left
    ensures var ops := front + Burst(id, tier, now, n);
            && Alone(Run(l, ops), id, tier, now, left - n) && (n > 0 ==> id in Run(l, ops).connections)
            && Allowed(l, ops, id, tier) == Allowed(l, front, id, tier) + n
            && Monotone(ops, 0) && LastTime(ops, 0) <= now && (n > 0 ==> LastTime(ops, 0) == now)
    decreases n
  {
    hide Alone, Consume, Monotone, Run, Allowed, LimiterOk, Burst, LastTime;
    if n == 0 {
      BurstOfNone(front, id, tier, now);
    } else {
      var before := front + Burst(id, tier, now, n - 1);
      BurstsAreAllowed(l, front, id, tier, now, left, n - 1);
      BurstGrows(front, id, tier, now, n);
      RequestAlone(Run(l, before), id, tier, now, left - (n - 1));
      RunJoins(l, before, Request(id, tier, now), id, tier);
      MonotoneJoins(before, Request(id, tier, now));
    }
  }

  lemma EmptiedIsAlone(limits: Limits, id: ConnectionId, tier: Tier, now: nat)
    requires LimitsOk(limits)
    ensures Alone(Emptied(limits), id, tier, now, QuotaOf(limits.quotas, tier).capacity)
  {
  }

  /** A burst, one operation that makes the limiter forget the connection, and the same burst again. */
  function BurstTwice(id: ConnectionId, tier: Tier, n: nat, between: Op): seq<Op> {
    (Burst(id, tier, 0, n) + [between]) + Burst(id, tier, between.now, n)
  }

  lemma ForgettingAllowsTwice(limits: Limits, id: ConnectionId, tier: Tier, between: Op)
    requires LimitsOk(limits)
    requires between == Removal(id, 0) || between == Sweep(limits.idleTtl)
    ensures var n := QuotaOf(limits.quotas, tier).capacity;
            var ops := BurstTwice(id, tier, n, between);
            && Monotone(ops, 0) && LastTime(ops, 0) == between.now
            && Allowed(Emptied(limits), ops, id, tier) == 2 * n
  {
    hide Consume, Monotone, Run, Allowed, LimiterOk, Alone;
    var l, n := Emptied(limits), QuotaOf(limits.quotas, tier).capacity;
    var first := [] + Burst(id, tier, 0, n);
    EmptiedIsAlone(limits, id, tier, 0);
    assert Run(l, []) == l && Allowed(l, [], id, tier) == 0 && Monotone([], 0) by { NothingHappens(l, id, tier); }
    BurstsAreAllowed(l, [], id, tier, 0, n, n);
    assert first == Burst(id, tier, 0, n);
    RunJoins(l, first, between, id, tier);
    MonotoneJoins(first, between);
    ForgottenIsAlone(Run(l, first), id, tier, between);
    BurstsAreAllowed(l, first + [between], id, tier, between.now, n, n);
  }

  lemma NothingHappens(l: Limiter, id: ConnectionId, tier: Tier)
    requires LimitsOk(l.limits)
    ensures Run(l, []) == l && Allowed(l, [], id, tier) == 0 && Monotone([], 0)
  {
  }

  lemma ForgottenIsAlone(l: Limiter, id: ConnectionId, tier: Tier, between: Op)
    requires Alone(l, id, tier, 0, 0) && id in l.connections
    requires between == Removal(id, 0) || between == Sweep(l.limits.idleTtl)
    ensures Alone(After(l, between), id, tier, between.now, QuotaOf(l.limits.quotas, tier).capacity)
    ensures !Granted(l, between, id, tier)
  {
    assert l.connections.Keys == {id};
    if between.Removal? {
      RemovalBalances(l, id, id, tier, 0);
    } else {
      LaterClock(l, 0, between.now);
      CleanupOnlyDrops(l, id, tier, between.now);
    }
  }

  /** Whatever the limits, a burst, a removal and the same burst at one instant break the plain bound. */
  lemma RemovalBreaksTheRate(limits: Limits, id: ConnectionId, tier: Tier)
    requires LimitsOk(limits)
    ensures !WithinPlainBound(Emptied(limits), BurstTwice(id, tier, QuotaOf(limits.quotas, tier).capacity, Removal(id, 0)), id, tier)
  {
    hide Run, Allowed, BurstTwice;
    ForgettingAllowsTwice(limits, id, tier, Removal(id, 0));
    NothingAccrues(QuotaOf(limits.quotas, tier).refillPerSecond);
  }

  /** The plain bound holds for every run without removals of the connection. */
  ghost predicate PlainBound(limits: Limits, id: ConnectionId, tier: Tier)
    requires LimitsOk(limits)
  {
    forall ops {:trigger Monotone(ops, 0)} ::
      Monotone(ops, 0) && NeverRemoved(ops, id) ==> WithinPlainBound(Emptied(limits), ops, id, tier)
  }

  /** Without removals the plain bound holds on every run if and only if the idle time lets a bucket refill. */
  lemma PlainBoundHoldsExactlyWhenEvictionIsFair(limits: Limits, id: ConnectionId, tier: Tier)
    requires LimitsOk(limits)
    ensures PlainBound(limits, id, tier) <==> EvictionIsFair(limits, tier)
  {
    hide Run, Allowed, Monotone, BurstTwice;
    var l := Emptied(limits);
    if EvictionIsFair(limits, tier) {
      forall ops | Monotone(ops, 0) && NeverRemoved(ops, id) ensures WithinPlainBound(l, ops, id, tier) {
        RequestsStayWithinTheRate(l, ops, 0, LastTime(ops, 0), id, tier);
        NoFreshBuckets(l, ops, id, tier);
      }
    } else {
      var ops := BurstTwice(id, tier, QuotaOf(limits.quotas, tier).capacity, Sweep(limits.idleTtl));
      ForgettingAllowsTwice(limits, id, tier, Sweep(limits.idleTtl));
      assert NeverRemoved(ops, id) by { SweepsRemoveNobody(id, tier, QuotaOf(limits.quotas, tier).capacity, limits.idleTtl); }
      assert !WithinPlainBound(l, ops, id, tier);
    }
  }

  lemma {:induction false} BurstsRemoveNobody(id: ConnectionId, tier: Tier, now: nat, n: nat)
    ensures NeverRemoved(Burst(id, tier, now, n), id)
    decreases n
  {
    if n > 0 {
      BurstsRemoveNobody(id, tier, now, n - 1);
    }
  }

  lemma SweepsRemoveNobody(id: ConnectionId, tier: Tier, n: nat, now: nat)
    ensures NeverRemoved(BurstTwice(id, tier, n, Sweep(now)), id)
  {
    BurstsRemoveNobody(id, tier, 0, n);
    BurstsRemoveNobody(id, tier, now, n);
  }

  // ---------------------------------------------------------------- waiting as told

  lemma CeilBounds(x: real)
    ensures x <= CeilOf(x) as real < x + 1.0
  {
  }

  lemma DivideThenMultiply(a: real, rate: real)
    requires rate > 0.0
    ensures a / rate * 1000.0 * rate / 1000.0 == a
  {
    assert a / rate * rate == a;
    assert a / rate * 1000.0 * rate == (a / rate * rate) * 1000.0;
  }

  /** An integer wait restores a missing amount exactly when it reaches the computed time. */
  lemma WaitRestores(missing: real, rate: real, wait: int)
    requires rate > 0.0
    ensures Accrued(rate, wait) >= missing <==> wait >= CeilOf(missing / rate * 1000.0)
  {
    var exact := missing / rate * 1000.0;
    CeilBounds(exact);
    DivideThenMultiply(missing, rate);
    var w := wait as real;
    if w >= exact {
      assert (w - exact) * rate >= 0.0;
      assert w * rate == exact * rate + (w - exact) * rate;
    } else {
      assert (exact - w) * rate > 0.0;
      assert exact * rate == w * rate + (exact - w) * rate;
    }
    assert w >= exact <==> wait >= CeilOf(exact);
  }

  /**
   The answered wait: after a refusal for quota, a request of the same connection and tier is allowed if and only
   if at least the answered time has passed, as long as its state is retained and nothing else spends from it.
   */
  lemma WaitingAsToldSuffices(l: Limiter, id: ConnectionId, tier: Tier, now: nat, later: nat)
    requires LimiterOk(l, now) && later >= now
    requires Consume(l, id, tier, now).1.reason == Some(OverQuota)
    requires id in Swept(Consume(l, id, tier, now).0, id, later).connections
    ensures var r := Consume(l, id, tier, now);
            Consume(r.0, id, tier, later).1.allowed <==> later - now >= r.1.retryAfter.value
  {
    var q := QuotaOf(l.limits.quotas, tier);
    var r := Consume(l, id, tier, now);
    RequestsSpendExactly(l, id, tier, id, tier, now);
    RefusedBucket(l, id, tier, now);
    var b := BucketOf(r.0.connections[id], tier);
    SweptKeepsRetained(r.0, id, later);
    WaitRestores(1.0 - b.tokens, q.refillPerSecond, later - now);
  }

  lemma SweptKeepsRetained(l: Limiter, id: ConnectionId, now: nat)
    requires id in Swept(l, id, now).connections
    ensures id in l.connections && Swept(l, id, now).connections[id] == l.connections[id]
    ensures Swept(l, id, now).limits == l.limits
  {
  }

  lemma RefusedBucket(l: Limiter, id: ConnectionId, tier: Tier, now: nat)
    requires LimiterOk(l, now)
    requires Consume(l, id, tier, now).1.reason == Some(OverQuota)
    ensures var r := Consume(l, id, tier, now);
            && id in r.0.connections && r.0.limits == l.limits
            && var b := BucketOf(r.0.connections[id], tier);
               && b.updatedAt == now && b.tokens < 1.0 && r.0.connections[id].lastSeen == now
               && r.1.retryAfter == Some(RetryAfter(b.tokens, QuotaOf(l.limits.quotas, tier)))
  {
    SweepsOnlyDrop(l, id, id, tier, now);
  }
}

/** The limiter as the object it is. */
module ConnectionRateLimiters {
  import opened Wrappers
  import opened RateLimiter

  class ConnectionRateLimiter {
    const limits: Limits
    var connections: map<ConnectionId, Connection>
    var operationsSinceCleanup: nat

    function View(): Limiter
      reads this
    {
      Limiter(limits, connections, operationsSinceCleanup)
    }

    constructor (limits: Limits)
      requires LimitsOk(limits)
      ensures View() == Limiter(limits, map[], 0)
    {
      this.limits, connections, operationsSinceCleanup := limits, map[], 0;
    }

    /** Visits every connection once and drops the idle ones. */
    method Cleanup(at: nat) returns (removed: nat)
      modifies this`connections
      ensures View() == CleanupIdle(old(View()), at)
      ensures removed == |old(connections)| - |connections|
    {
      removed := 0;
      var visiting := connections.Keys;
      while visiting != {}
        invariant visiting <= old(connections).Keys
        invariant connections == map id | id in old(connections)
                                          && (id in visiting || !Idle(limits, old(connections)[id], at)) :: old(connections)[id]
        invariant removed + |connections| == |old(connections)|
        decreases |visiting|
      {
        var id :| id in visiting;
        visiting := visiting - {id};
        if at >= connections[id].lastSeen && at - connections[id].lastSeen >= limits.idleTtl {
          OneFewer(connections, id);
          connections := connections - {id};
          removed := removed + 1;
        }
      }
    }

    method Sweep(id: ConnectionId, now: nat)
      modifies this
      ensures View() == Swept(old(View()), id, now)
    {
      operationsSinceCleanup := operationsSinceCleanup + 1;
      if operationsSinceCleanup >= limits.cleanupEvery {
        var _ := Cleanup(now);
        operationsSinceCleanup := 0;
      }
      if id !in connections && |connections| >= limits.maxConnections {
        var _ := Cleanup(now);
      }
    }

    method ConsumeOne(id: ConnectionId, tier: Tier, now: nat) returns (d: Decision)
      requires LimitsOk(limits)
      modifies this
      ensures (View(), d) == Consume(old(View()), id, tier, now)
    {
      Sweep(id, now);
      var state;
      if id in connections {
        state := connections[id];
      } else {
        if |connections| >= limits.maxConnections {
          return Decision(false, 0, None, Some(OverCapacity));
        }
        state := NewConnection(limits, now);
      }
      var at := Later(now, state.lastSeen);
      var quota := QuotaOf(limits.quotas, tier);
      var bucket := Refilled(BucketOf(state, tier), quota, at);
      if bucket.tokens >= 1.0 {
        bucket := bucket.(tokens := bucket.tokens - 1.0);
        d := Decision(true, bucket.tokens.Floor, Some(0), None);
      } else {
        d := Decision(false, 0, Some(RetryAfter(bucket.tokens, quota)), Some(OverQuota));
      }
      connections := connections[id := WithBucket(state.(lastSeen := at), tier, bucket)];
    }

    method RemoveOne(id: ConnectionId) returns (known: bool)
      modifies this`connections
      ensures View() == Remove(old(View()), id) && (known <==> id in old(connections))
    {
      known := id in connections;
      connections := connections - {id};
    }
  }

  lemma OneFewer(m: map<ConnectionId, Connection>, id: ConnectionId)
    requires id in m
    ensures |m - {id}| == |m| - 1
  {
    assert (m - {id}).Keys == m.Keys - {id};
  }
}
