/** internal/ntpserver/ratelimit.go: per-key token buckets with idle and capacity
    eviction. Rates and tokens are reals, times are nanoseconds. */
module RateLimit {
  import opened Wrappers
  import opened NtpTime

  const MAX_BUCKETS := 1024
  const MIN_IDLE := 30 * SECOND

  datatype Bucket = Bucket(tokens: real, last: int)

  datatype Limiter = Limiter(rate: real, burst: real, buckets: map<string, Bucket>)

  function Positive(x: real, default: real): real { if x <= 0.0 then default else x }

  function Fresh(rate: real, burst: real): Limiter
  {
    var r := Positive(rate, 1.0);
    Limiter(r, Positive(burst, r * 2.0), map[])
  }

  function WithRate(l: Limiter, rate: real, burst: real): Limiter
  {
    var r := Positive(rate, 1.0);
    Limiter(r, Positive(burst, r * 2.0), l.buckets)
  }

  /** Tokens earned in a time span. */
  function Earned(rate: real, span: int): real { span as real / SECOND as real * rate }

  function Rename(key: string): string { if key == "" then "unknown" else key }

  /** Buckets untouched for longer than this are dropped: 30 s or four refills. */
  function IdleFor(rate: real, burst: real): int
    requires rate > 0.0
  {
    var refill := Truncate(SECOND as real * (burst / rate) * 4.0);
    if refill > MIN_IDLE then refill else MIN_IDLE
  }

  function WithoutIdle(l: Limiter, now: int): Limiter
    requires l.rate > 0.0
  {
    l.(buckets := map k | k in l.buckets && now - l.buckets[k].last <= IdleFor(l.rate, l.burst) :: l.buckets[k])
  }

  ghost predicate Oldest(m: map<string, Bucket>, v: string)
  {
    v in m && forall k :: k in m ==> m[v].last <= m[k].last
  }

  /** A victim is chosen exactly when a new key meets a full map; the source
      walks the map in no particular order, so any oldest bucket may go. */
  ghost predicate ValidVictim(l: Limiter, key: string, victim: Option<string>)
  {
    if key !in l.buckets && |l.buckets| >= MAX_BUCKETS
    then victim.Some? && Oldest(l.buckets, victim.value)
    else victim.None?
  }

  function WithoutVictim(l: Limiter, victim: Option<string>): Limiter
  {
    if victim.None? then l else l.(buckets := l.buckets - {victim.value})
  }

  function BucketOf(l: Limiter, key: string, now: int): Bucket
  {
    if key in l.buckets then l.buckets[key] else Bucket(l.burst, now)
  }

  function Refilled(rate: real, burst: real, b: Bucket, now: int): Bucket
  {
    var elapsed := now - b.last;
    if elapsed <= 0 then b
    else
      var t := b.tokens + Earned(rate, elapsed);
      Bucket(if t > burst then burst else t, now)
  }

  /** Takes a token for key from a limiter that already made room for it. */
  function Taken(l: Limiter, key: string, now: int): (Limiter, bool)
  {
    var b := Refilled(l.rate, l.burst, BucketOf(l, key, now), now);
    if b.tokens < 1.0 then (l.(buckets := l.buckets[key := b]), false)
    else (l.(buckets := l.buckets[key := b.(tokens := b.tokens - 1.0)]), true)
  }

  /** allow: idle eviction, room for a new key, refill, take. */
  function Allowed(l: Limiter, key: string, now: int, victim: Option<string>): (Limiter, bool)
    requires l.rate > 0.0
  {
    Taken(WithoutVictim(WithoutIdle(l, now), victim), Rename(key), now)
  }

  class QueryLimiter {
    var rate: real
    var burst: real
    var buckets: map<string, Bucket>

    ghost function View(): Limiter
      reads this
    {
      Limiter(rate, burst, buckets)
    }

    constructor (rate: real, burst: real)
      ensures View() == Fresh(rate, burst)
    {
      var r := if rate <= 0.0 then 1.0 else rate;
      this.rate := r;
      this.burst := if burst <= 0.0 then r * 2.0 else burst;
      buckets := map[];
    }

    method SetRate(rate: real, burst: real)
      modifies this
      ensures View() == WithRate(old(View()), rate, burst)
    {
      var r := if rate <= 0.0 then 1.0 else rate;
      this.rate := r;
      this.burst := if burst <= 0.0 then r * 2.0 else burst;
    }

    method Allow(key: string, now: int) returns (ok: bool, ghost victim: Option<string>)
      requires Bounded(View())
      modifies this
      ensures ValidVictim(WithoutIdle(old(View()), now), Rename(key), victim)
      ensures (View(), ok) == Allowed(old(View()), key, now, victim)
    {
      var k := if key == "" then "unknown" else key;
      EvictIdle(now);
      IdleKeepsBounded(old(View()), now);
      ghost var room := View();
      victim := None;
      if k !in buckets {
        if |buckets| >= MAX_BUCKETS {
          victim := EvictOldest();
        }
        room := View();
        buckets := buckets[k := Bucket(burst, now)];
      }
      var b := buckets[k];
      var elapsed := now - b.last;
      if elapsed > 0 {
        b := b.(tokens := b.tokens + elapsed as real / SECOND as real * rate);
        if b.tokens > burst {
          b := b.(tokens := burst);
        }
        b := b.(last := now);
      }
      assert room == WithoutVictim(WithoutIdle(old(View()), now), victim);
      assert b == Refilled(rate, burst, BucketOf(room, k, now), now);
      if b.tokens < 1.0 {
        buckets := buckets[k := b];
        assert buckets == room.buckets[k := b];
        return false, victim;
      }
      buckets := buckets[k := b.(tokens := b.tokens - 1.0)];
      assert buckets == room.buckets[k := b.(tokens := b.tokens - 1.0)];
      return true, victim;
    }

    method EvictIdle(now: int)
      requires rate > 0.0
      modifies this
      ensures View() == WithoutIdle(old(View()), now)
    {
      if |buckets| == 0 {
        return;
      }
      var idleFor := MIN_IDLE;
      var refill := Truncate(SECOND as real * (burst / rate) * 4.0);
      if refill > idleFor {
        idleFor := refill;
      }
      var todo := buckets.Keys;
      while todo != {}
        invariant rate == old(rate) && burst == old(burst) && todo <= old(buckets).Keys
        invariant forall k :: k in buckets <==>
                    k in old(buckets) && (k in todo || now - old(buckets)[k].last <= idleFor)
        invariant forall k :: k in buckets ==> buckets[k] == old(buckets)[k]
        decreases todo
      {
        var k :| k in todo;
        if now - buckets[k].last > idleFor {
          buckets := buckets - {k};
        }
        todo := todo - {k};
      }
    }

    method EvictOldest() returns (ghost victim: Option<string>)
      requires |buckets| > 0 && "" !in buckets
      modifies this
      ensures victim.Some? && Oldest(old(buckets), victim.value)
      ensures View() == WithoutVictim(old(View()), victim)
    {
      var oldestKey, oldest, first := "", 0, true;
      var todo := buckets.Keys;
      while todo != {}
        invariant unchanged(this) && todo <= buckets.Keys
        invariant first <==> todo == buckets.Keys
        invariant !first ==> oldestKey in buckets && oldest == buckets[oldestKey].last
        invariant !first ==> forall k :: k in buckets && k !in todo ==> oldest <= buckets[k].last
        decreases todo
      {
        var k :| k in todo;
        if first || buckets[k].last < oldest {
          first := false;
          oldest := buckets[k].last;
          oldestKey := k;
        }
        todo := todo - {k};
      }
      victim := Some(oldestKey);
      if oldestKey != "" {
        buckets := buckets - {oldestKey};
      }
    }
  }

  // ----- the map is bounded over every run

  /** What every reachable limiter satisfies. The guard against the empty key is
      what lets capacity eviction always remove something. */
  ghost predicate Bounded(l: Limiter)
  {
    && l.rate > 0.0 && l.burst > 0.0
    && "" !in l.buckets && |l.buckets| <= MAX_BUCKETS
    && forall k :: k in l.buckets ==> 0.0 <= l.buckets[k].tokens
  }

  datatype Op = Request(key: string, now: int, victim: Option<string>) | SetRate(rate: real, burst: real)

  ghost predicate Enabled(l: Limiter, op: Op)
  {
    op.Request? ==> l.rate > 0.0 && ValidVictim(WithoutIdle(l, op.now), Rename(op.key), op.victim)
  }

  ghost function Step(l: Limiter, op: Op): Limiter
    requires Enabled(l, op)
  {
    match op
    case Request(key, now, victim) => Allowed(l, key, now, victim).0
    case SetRate(rate, burst) => WithRate(l, rate, burst)
  }

  ghost predicate Runs(l: Limiter, ops: seq<Op>)
    decreases |ops|
  {
    ops != [] ==> Enabled(l, ops[0]) && Runs(Step(l, ops[0]), ops[1..])
  }

  ghost function Final(l: Limiter, ops: seq<Op>): Limiter
    requires Runs(l, ops)
    decreases |ops|
  {
    if ops == [] then l else Final(Step(l, ops[0]), ops[1..])
  }

  lemma SubmapSize(a: map<string, Bucket>, b: map<string, Bucket>)
    requires a.Keys <= b.Keys
    ensures |a| <= |b|
  {
    SubsetSize(a.Keys, b.Keys);
    assert |a| == |a.Keys| && |b| == |b.Keys|;
  }

  lemma IdleKeepsBounded(l: Limiter, now: int)
    requires Bounded(l)
    ensures Bounded(WithoutIdle(l, now))
  {
    SubmapSize(WithoutIdle(l, now).buckets, l.buckets);
  }

  lemma RoomForKey(l: Limiter, key: string, victim: Option<string>)
    requires Bounded(l) && ValidVictim(l, key, victim)
    ensures var m := WithoutVictim(l, victim); Bounded(m) && |m.buckets.Keys + {key}| <= MAX_BUCKETS
  {
  }

  lemma EarnedNonNegative(rate: real, span: int)
    requires rate > 0.0 && span >= 0
    ensures Earned(rate, span) >= 0.0
  {
  }

  lemma TakenKeepsBounded(l: Limiter, key: string, now: int)
    requires Bounded(l) && key != "" && |l.buckets.Keys + {key}| <= MAX_BUCKETS
    ensures Bounded(Taken(l, key, now).0)
  {
  }

  lemma AllowedKeepsBounded(l: Limiter, key: string, now: int, victim: Option<string>)
    requires Bounded(l) && ValidVictim(WithoutIdle(l, now), Rename(key), victim)
    ensures Bounded(Allowed(l, key, now, victim).0)
  {
    IdleKeepsBounded(l, now);
    RoomForKey(WithoutIdle(l, now), Rename(key), victim);
    TakenKeepsBounded(WithoutVictim(WithoutIdle(l, now), victim), Rename(key), now);
  }

  /** Over every run from a fresh limiter, rate changes included, the map never
      holds more than 1024 buckets, never the empty key, and no bucket is
      negative. */
  lemma {:induction false} AlwaysBounded(l: Limiter, ops: seq<Op>)
    requires Bounded(l) && Runs(l, ops)
    ensures Bounded(Final(l, ops)) && |Final(l, ops).buckets| <= 1024 && "" !in Final(l, ops).buckets
    decreases |ops|
  {
    if ops != [] {
      if ops[0].Request? {
        AllowedKeepsBounded(l, ops[0].key, ops[0].now, ops[0].victim);
      }
      AlwaysBounded(Step(l, ops[0]), ops[1..]);
    }
  }

  lemma FreshIsBounded(rate: real, burst: real)
    ensures Bounded(Fresh(rate, burst)) && Capped(Fresh(rate, burst))
  {
  }

  /** Without a rate change, no bucket holds more than the burst. */
  ghost predicate Capped(l: Limiter)
  {
    forall k :: k in l.buckets ==> l.buckets[k].tokens <= l.burst
  }
}
