/** What the token buckets of RateLimit amount to: every key has a credit, and
    neither idle eviction nor the traffic of other keys can touch it. */
module RateBound {
  import opened Wrappers
  import opened NtpTime
  import opened RateLimit

  /** The tokens key would find at the given time. */
  function Credit(l: Limiter, key: string, now: int): real
  {
    Refilled(l.rate, l.burst, BucketOf(l, key, now), now).tokens
  }

  // ----- arithmetic

  lemma EarnedAdds(rate: real, a: int, b: int)
    ensures Earned(rate, a + b) == Earned(rate, a) + Earned(rate, b)
  {
    var x, y := a as real / SECOND as real, b as real / SECOND as real;
    assert (a + b) as real / SECOND as real == x + y;
    assert (x + y) * rate == x * rate + y * rate;
  }

  /** In plain numbers: the rate is in tokens a second, a span in nanoseconds. */
  lemma EarnedIs(rate: real, span: int)
    ensures Earned(rate, span) == rate * span as real / 1_000_000_000.0
  {
    var x, n := span as real, SECOND as real;
    assert x / n * rate * n == x / n * n * rate == x * rate;
  }

  lemma EarnedMonotone(rate: real, a: int, b: int)
    requires rate > 0.0 && a <= b
    ensures Earned(rate, a) <= Earned(rate, b)
  {
    EarnedAdds(rate, a, b - a);
    EarnedNonNegative(rate, b - a);
  }

  lemma DivideBack(burst: real, rate: real)
    requires rate > 0.0
    ensures burst / rate * rate == burst
  {
  }

  /** A bucket old enough to be evicted has refilled at least four times over. */
  lemma IdleIsFull(rate: real, burst: real, span: int)
    requires rate > 0.0 && burst > 0.0 && span > IdleFor(rate, burst)
    ensures span > 0 && Earned(rate, span) >= burst
  {
    var q := burst / rate;
    DivideBack(burst, rate);
    assert q > 0.0;
    var x := SECOND as real * q * 4.0;
    assert span >= Truncate(x) + 1;
    assert span as real > x;
    var s := span as real / SECOND as real;
    assert s > 4.0 * q;
    assert (s - 4.0 * q) * rate > 0.0;
    assert s * rate > 4.0 * (q * rate);
  }

  lemma RefilledFull(rate: real, burst: real, b: Bucket, now: int)
    requires rate > 0.0 && burst > 0.0 && b.tokens >= 0.0 && now - b.last > IdleFor(rate, burst)
    ensures Refilled(rate, burst, b, now) == Bucket(burst, now)
  {
    IdleIsFull(rate, burst, now - b.last);
  }

  // ----- what a limiter is set to, and which buckets it keeps

  /** New or set anew, a limiter refills at the rate asked for, or one token a second,
      up to the burst asked for, or two seconds' worth. */
  lemma RateAndBurst(l: Limiter, rate: real, burst: real)
    ensures forall s :: s in {Fresh(rate, burst), WithRate(l, rate, burst)} ==>
              && (rate > 0.0 ==> s.rate == rate)
              && (rate <= 0.0 ==> s.rate == 1.0)
              && (burst > 0.0 ==> s.burst == burst)
              && (burst <= 0.0 && rate > 0.0 ==> s.burst == rate + rate)
              && (burst <= 0.0 && rate <= 0.0 ==> s.burst == 2.0)
    ensures Fresh(rate, burst).buckets == map[] && WithRate(l, rate, burst).buckets == l.buckets
  {
  }

  /** A bucket stays as it is for thirty seconds, and for as long as its rate takes to
      earn four bursts; past both it is dropped. */
  lemma WhichBucketsStay(l: Limiter, now: int, key: string)
    requires Bounded(l)
    ensures var m := WithoutIdle(l, now).buckets;
            key in m <==>
            && key in l.buckets
            && var idle := now - l.buckets[key].last;
               idle <= 30_000_000_000 || l.rate * idle as real / 1_000_000_000.0 <= 4.0 * l.burst
    ensures var m := WithoutIdle(l, now).buckets; key in m ==> key in l.buckets && m[key] == l.buckets[key]
  {
    if key in l.buckets {
      StaysWhile(l.rate, l.burst, now - l.buckets[key].last);
    }
  }

  /** Which buckets a request leaves: all that were not idle and the asking key's, but that
      a new key in a full map costs one bucket than which none is older. The others
      are left as they are, and the asking key's reading never goes back. */
  lemma WhoIsDropped(l: Limiter, key: string, now: int, victim: Option<string>)
    requires Bounded(l) && ValidVictim(WithoutIdle(l, now), Rename(key), victim)
    ensures var kept, after := WithoutIdle(l, now).buckets, Allowed(l, key, now, victim).0.buckets;
            var asks := if key == "" then "unknown" else key;
            && asks in after
            && (forall k :: k in after && k != asks ==> k in kept && after[k] == kept[k])
            && (asks in kept || |kept| < 1024 ==> forall k :: k in kept ==> k in after)
            && (asks !in kept && |kept| >= 1024 ==>
                  exists v :: v in kept && v !in after && (forall k :: k in kept && k != v ==> k in after) &&
                              forall k :: k in kept ==> kept[v].last <= kept[k].last)
            && after[asks].last == (if asks in kept then Later(kept[asks].last, now) else now)
  {
    var m := WithoutIdle(l, now);
    var kept := m.buckets;
    assert victim.Some? ==> victim.value in kept && forall k :: k in kept ==> kept[victim.value].last <= kept[k].last;
    hide WithoutIdle, IdleFor, Earned;
  }

  lemma StaysWhile(rate: real, burst: real, idle: int)
    requires rate > 0.0 && burst > 0.0
    ensures idle <= IdleFor(rate, burst) <==>
            idle <= 30_000_000_000 || rate * idle as real / 1_000_000_000.0 <= 4.0 * burst
  {
    var q, n, i := burst / rate, SECOND as real, idle as real;
    var x := n * q * 4.0;
    DivideBack(burst, rate);
    assert q > 0.0 && x == 4.0 * (n * q);
    assert idle <= Truncate(x) <==> i <= x;
    assert rate * x == 4.0 * (q * rate) * n;
    assert i <= x <==> rate * i <= 4.0 * burst * n by {
      TimesKeepsOrder(rate, i, x);
    }
    assert rate * i <= 4.0 * burst * n <==> rate * i / n <= 4.0 * burst;
  }

  lemma TimesKeepsOrder(r: real, a: real, b: real)
    requires r > 0.0
    ensures a <= b <==> r * a <= r * b
  {
    assert r * (b - a) == r * b - r * a;
    if a < b { assert r * (b - a) > 0.0; }
    if a > b { assert r * (a - b) > 0.0; }
  }

  // ----- one request

  /** Dropping idle buckets changes no credit, now or later. */
  lemma IdleKeepsCredit(l: Limiter, now: int, key: string, t: int)
    requires Bounded(l) && now <= t
    ensures Credit(WithoutIdle(l, now), key, t) == Credit(l, key, t)
  {
    if key in l.buckets && key !in WithoutIdle(l, now).buckets {
      RefilledFull(l.rate, l.burst, l.buckets[key], t);
    }
  }

  /** Only a new key makes room, so the key asking is never its own victim. */
  lemma VictimIsAnother(l: Limiter, key: string, victim: Option<string>)
    requires ValidVictim(l, key, victim)
    ensures victim != Some(key)
  {
  }

  lemma TakenSpends(l: Limiter, key: string, now: int)
    ensures var (l', ok) := Taken(l, key, now);
            (ok <==> Credit(l, key, now) >= 1.0) &&
            Credit(l', key, now) == Credit(l, key, now) - (if ok then 1.0 else 0.0)
  {
    var b := Refilled(l.rate, l.burst, BucketOf(l, key, now), now);
    assert now <= b.last;
  }

  /** A request is admitted exactly when its key has a whole token of credit, and
      it spends that token. */
  lemma RequestSpendsCredit(l: Limiter, key: string, now: int, victim: Option<string>)
    requires Bounded(l) && ValidVictim(WithoutIdle(l, now), Rename(key), victim)
    ensures var k := Rename(key);
            var (l', ok) := Allowed(l, key, now, victim);
            (ok <==> Credit(l, k, now) >= 1.0) &&
            Credit(l', k, now) == Credit(l, k, now) - (if ok then 1.0 else 0.0)
  {
    var k, m := Rename(key), WithoutIdle(l, now);
    VictimIsAnother(m, k, victim);
    IdleKeepsCredit(l, now, k, now);
    var r := WithoutVictim(m, victim);
    assert BucketOf(r, k, now) == BucketOf(m, k, now);
    TakenSpends(r, k, now);
  }

  /** A request changes no other key's credit, unless that key was evicted for
      capacity, which leaves it with the full burst. */
  lemma OthersKeepCredit(l: Limiter, key: string, now: int, victim: Option<string>, other: string, t: int)
    requires Bounded(l) && other != Rename(key) && now <= t
    ensures Credit(Allowed(l, key, now, victim).0, other, t) ==
            if victim == Some(other) then l.burst else Credit(l, other, t)
  {
    var m := WithoutIdle(l, now);
    IdleKeepsCredit(l, now, other, t);
    var l' := Allowed(l, key, now, victim).0;
    if victim == Some(other) {
      assert BucketOf(l', other, t) == Bucket(l.burst, t);
    } else {
      assert BucketOf(l', other, t) == BucketOf(m, other, t);
    }
  }

  lemma RefilledGrowth(rate: real, burst: real, b: Bucket, s: int, t: int)
    requires rate > 0.0 && 0.0 <= b.tokens <= burst && s <= t
    ensures var x, y := Refilled(rate, burst, b, s).tokens, Refilled(rate, burst, b, t).tokens;
            0.0 <= x <= y <= x + Earned(rate, t - s) && y <= burst
  {
    EarnedNonNegative(rate, t - s);
    if s > b.last {
      EarnedAdds(rate, s - b.last, t - s);
      EarnedNonNegative(rate, s - b.last);
    } else if t > b.last {
      EarnedMonotone(rate, t - b.last, t - s);
      EarnedNonNegative(rate, t - b.last);
    }
  }

  /** Credit grows with time: up to the burst, as fast as the rate and no faster. */
  lemma CreditGrowth(l: Limiter, key: string, s: int, t: int)
    requires Bounded(l) && Capped(l) && s <= t
    ensures 0.0 <= Credit(l, key, s) <= Credit(l, key, t) <= l.burst
    ensures Credit(l, key, t) <= Credit(l, key, s) + l.rate * (t - s) as real / 1_000_000_000.0
    ensures key in l.buckets && l.buckets[key].last <= s && Credit(l, key, t) < l.burst ==>
              Credit(l, key, t) == Credit(l, key, s) + l.rate * (t - s) as real / 1_000_000_000.0
  {
    hide *;
    GrowthEarned(l, key, s, t);
    EarnedIs(l.rate, t - s);
  }

  lemma GrowthEarned(l: Limiter, key: string, s: int, t: int)
    requires Bounded(l) && Capped(l) && s <= t
    ensures 0.0 <= Credit(l, key, s) <= Credit(l, key, t) <= l.burst
    ensures Credit(l, key, t) <= Credit(l, key, s) + Earned(l.rate, t - s)
    ensures key in l.buckets && l.buckets[key].last <= s && Credit(l, key, t) < l.burst ==>
              Credit(l, key, t) == Credit(l, key, s) + Earned(l.rate, t - s)
  {
    if key in l.buckets {
      RefilledGrowth(l.rate, l.burst, l.buckets[key], s, t);
      EarnedAdds(l.rate, s - l.buckets[key].last, t - s);
    } else {
      EarnedNonNegative(l.rate, t - s);
    }
  }

  lemma AllowedKeepsCapped(l: Limiter, key: string, now: int, victim: Option<string>)
    requires Bounded(l) && Capped(l) && ValidVictim(WithoutIdle(l, now), Rename(key), victim)
    ensures Capped(Allowed(l, key, now, victim).0)
  {
  }

  lemma AllowedKeepsRate(l: Limiter, key: string, now: int, victim: Option<string>)
    requires l.rate > 0.0
    ensures var l' := Allowed(l, key, now, victim).0; l'.rate == l.rate && l'.burst == l.burst
  {
  }

  // ----- the rate bound over whole runs

  /** Requests only, with a clock that does not run back, between two instants. */
  ghost predicate Within(ops: seq<Op>, from: int, to: int)
    decreases |ops|
  {
    if ops == [] then from <= to
    else ops[0].Request? && from <= ops[0].now && Within(ops[1..], ops[0].now, to)
  }

  function Bursts(n: nat, burst: real): real { n as real * burst }

  lemma BurstsAdd(j: nat, k: nat, burst: real)
    ensures Bursts(j + k, burst) == Bursts(j, burst) + Bursts(k, burst)
    ensures Bursts(0, burst) == 0.0 && Bursts(1, burst) == burst
  {
  }

  lemma BurstsIs(n: nat, burst: real)
    ensures Bursts(n, burst) == n as real * burst
  {
  }

  /** How often the key was evicted for capacity. */
  function Evictions(ops: seq<Op>, key: string): nat
  {
    if ops == [] then 0 else Evicts(ops[0], key) + Evictions(ops[1..], key)
  }

  function Evicts(op: Op, key: string): nat { if op.Request? && op.victim == Some(key) then 1 else 0 }

  ghost predicate Admits(l: Limiter, op: Op, key: string)
    requires op.Request? && l.rate > 0.0
  {
    Rename(op.key) == key && Allowed(l, op.key, op.now, op.victim).1
  }

  ghost function Admitted(l: Limiter, ops: seq<Op>, key: string): nat
    requires Runs(l, ops)
    decreases |ops|
  {
    if ops == [] then 0
    else
      var op := ops[0];
      (if op.Request? && Admits(l, op, key) then 1 else 0) + Admitted(Step(l, op), ops[1..], key)
  }

  /** One request, seen from a key's balance. */
  lemma StepBalance(l: Limiter, op: Op, key: string, from: int)
    requires Bounded(l) && Capped(l) && op.Request? && Enabled(l, op) && from <= op.now
    ensures var l' := Step(l, op);
            Bounded(l') && Capped(l') && l'.rate == l.rate && l'.burst == l.burst &&
            (if Admits(l, op, key) then 1.0 else 0.0) + Credit(l', key, op.now)
              <= Credit(l, key, from) + Earned(l.rate, op.now - from) + Bursts(Evicts(op, key), l.burst)
  {
    hide Earned, Credit, Bursts, Allowed, Capped, Oldest, WithoutIdle;
    AllowedKeepsBounded(l, op.key, op.now, op.victim);
    AllowedKeepsCapped(l, op.key, op.now, op.victim);
    AllowedKeepsRate(l, op.key, op.now, op.victim);
    GrowthEarned(l, key, from, op.now);
    BurstsAdd(0, 1, l.burst);
    if Rename(op.key) == key {
      RequestSpendsCredit(l, op.key, op.now, op.victim);
    } else {
      OthersKeepCredit(l, op.key, op.now, op.victim, key, op.now);
    }
  }

  lemma {:induction false} BalanceEarned(l: Limiter, ops: seq<Op>, key: string, from: int, to: int)
    requires Bounded(l) && Capped(l) && Runs(l, ops) && Within(ops, from, to)
    ensures from <= to
    ensures Admitted(l, ops, key) as real + Credit(Final(l, ops), key, to)
              <= Credit(l, key, from) + Earned(l.rate, to - from) + Bursts(Evictions(ops, key), l.burst)
    decreases |ops|
  {
    hide Earned, Step, Credit, Bounded, Capped, Enabled, Admits, Bursts, Evicts;
    if ops == [] {
      GrowthEarned(l, key, from, to);
      BurstsAdd(0, 0, l.burst);
    } else {
      var op := ops[0];
      StepBalance(l, op, key, from);
      BurstsAdd(Evicts(op, key), Evictions(ops[1..], key), l.burst);
      BalanceEarned(Step(l, op), ops[1..], key, op.now, to);
      EarnedAdds(l.rate, op.now - from, to - op.now);
    }
  }

  /** Conservation: what was admitted plus what is left never exceeds what there
      was plus what the rate has earned plus one burst for every capacity eviction. */
  lemma CreditBalance(l: Limiter, ops: seq<Op>, key: string, from: int, to: int)
    requires Bounded(l) && Capped(l) && Runs(l, ops) && Within(ops, from, to)
    ensures Admitted(l, ops, key) as real + Credit(Final(l, ops), key, to)
              <= Credit(l, key, from) + l.rate * (to - from) as real / 1_000_000_000.0
                 + Evictions(ops, key) as real * l.burst
  {
    hide *;
    BalanceEarned(l, ops, key, from, to);
    EarnedIs(l.rate, to - from);
    BurstsIs(Evictions(ops, key), l.burst);
  }

  /** In any window of any run at a fixed rate, a key that is evicted k times for
      capacity is admitted at most (k + 1) * burst + rate * d times, where the window is
      d seconds long. */
  lemma RateBound(l: Limiter, ops: seq<Op>, key: string, from: int, to: int)
    requires Bounded(l) && Capped(l) && Runs(l, ops) && Within(ops, from, to)
    ensures Admitted(l, ops, key) as real
              <= (Evictions(ops, key) + 1) as real * l.burst + l.rate * (to - from) as real / 1_000_000_000.0
  {
    hide *;
    BalanceEarned(l, ops, key, from, to);
    GrowthEarned(l, key, from, to);
    OnlyRequests(ops, from, to);
    FinalState(l, ops);
    GrowthEarned(Final(l, ops), key, to, to);
    BurstsAdd(Evictions(ops, key), 1, l.burst);
    BurstsIs(Evictions(ops, key) + 1, l.burst);
    assert Admitted(l, ops, key) as real <= l.burst + Earned(l.rate, to - from) + Bursts(Evictions(ops, key), l.burst);
    assert Admitted(l, ops, key) as real <= Earned(l.rate, to - from) + Bursts(Evictions(ops, key) + 1, l.burst);
    EarnedIs(l.rate, to - from);
  }

  lemma OnlyRequests(ops: seq<Op>, from: int, to: int)
    requires Within(ops, from, to)
    ensures forall op :: op in ops ==> op.Request?
    decreases |ops|
  {
    if ops != [] {
      OnlyRequests(ops[1..], ops[0].now, to);
    }
  }

  lemma {:induction false} FinalState(l: Limiter, ops: seq<Op>)
    requires Bounded(l) && Capped(l) && Runs(l, ops) && forall op :: op in ops ==> op.Request?
    ensures var f := Final(l, ops); Bounded(f) && Capped(f) && f.rate == l.rate && f.burst == l.burst
    decreases |ops|
  {
    if ops != [] {
      var op := ops[0];
      AllowedKeepsBounded(l, op.key, op.now, op.victim);
      AllowedKeepsCapped(l, op.key, op.now, op.victim);
      FinalState(Step(l, op), ops[1..]);
    }
  }

  // ----- a client that keeps to its rate is never refused

  /** Every request of key comes at ready or later, and the next one not before
      a gap has passed. */
  ghost predicate Paced(ops: seq<Op>, key: string, ready: int, gap: int)
    decreases |ops|
  {
    if ops == [] then true
    else if ops[0].Request? && Rename(ops[0].key) == key
    then ready <= ops[0].now && Paced(ops[1..], key, ops[0].now + gap, gap)
    else Paced(ops[1..], key, ready, gap)
  }

  /** No bucket was touched in the future. */
  ghost predicate Settled(l: Limiter, now: int)
  {
    forall k :: k in l.buckets ==> l.buckets[k].last <= now
  }

  ghost function Requests(ops: seq<Op>, key: string): nat
  {
    if ops == [] then 0
    else (if ops[0].Request? && Rename(ops[0].key) == key then 1 else 0) + Requests(ops[1..], key)
  }

  function Later(a: int, b: int): int { if a < b then b else a }

  lemma TakenIsCurrent(l: Limiter, key: string, now: int)
    requires Settled(l, now)
    ensures var l' := Taken(l, key, now).0; Settled(l', now) && key in l'.buckets && l'.buckets[key].last == now
  {
  }

  /** After a gap of 1/rate a key has a token again. */
  lemma CreditReturns(l: Limiter, key: string, now: int, gap: int)
    requires Bounded(l) && Capped(l) && l.burst >= 1.0 && 0 <= gap && Earned(l.rate, gap) >= 1.0
    requires key in l.buckets && l.buckets[key].last == now
    ensures Credit(l, key, now + gap) >= 1.0
  {
  }

  /** One request, seen from a paced key: its own is admitted and leaves it ready
      again a gap later; another's leaves it as ready as it was. */
  lemma StepPaced(l: Limiter, op: Op, key: string, from: int, ready: int, gap: int)
    requires Bounded(l) && Capped(l) && Settled(l, from) && l.burst >= 1.0
    requires op.Request? && Enabled(l, op) && from <= op.now && 0 <= gap && Earned(l.rate, gap) >= 1.0
    requires Credit(l, key, Later(from, ready)) >= 1.0
    ensures var l' := Step(l, op);
            Bounded(l') && Capped(l') && Settled(l', op.now) && l'.rate == l.rate && l'.burst == l.burst
    ensures Rename(op.key) == key && ready <= op.now ==>
              Admits(l, op, key) && Credit(Step(l, op), key, Later(op.now, op.now + gap)) >= 1.0
    ensures Rename(op.key) != key ==> Credit(Step(l, op), key, Later(op.now, ready)) >= 1.0
  {
    var l' := Step(l, op);
    AllowedKeepsBounded(l, op.key, op.now, op.victim);
    AllowedKeepsCapped(l, op.key, op.now, op.victim);
    TakenIsCurrent(WithoutVictim(WithoutIdle(l, op.now), op.victim), Rename(op.key), op.now);
    GrowthEarned(l, key, Later(from, ready), Later(op.now, ready));
    if Rename(op.key) == key {
      RequestSpendsCredit(l, op.key, op.now, op.victim);
      CreditReturns(l', key, op.now, gap);
    } else {
      OthersKeepCredit(l, op.key, op.now, op.victim, key, Later(op.now, ready));
    }
  }

  /** Whatever the other keys do, and whoever is evicted, a key whose requests are
      at least 1/rate apart has every one of them admitted. */
  lemma PacedIsAdmitted(
    l: Limiter, ops: seq<Op>, key: string, from: int, to: int, ready: int, gap: int)
    requires Bounded(l) && Capped(l) && Settled(l, from) && l.burst >= 1.0
    requires Runs(l, ops) && Within(ops, from, to) && Paced(ops, key, ready, gap)
    requires 0 <= gap && gap as real * l.rate >= 1_000_000_000.0
    requires Credit(l, key, Later(from, ready)) >= 1.0
    ensures Admitted(l, ops, key) == Requests(ops, key)
  {
    hide *;
    EarnedIs(l.rate, gap);
    PacedEarned(l, ops, key, from, to, ready, gap);
  }

  /** From the start: every request of a key that keeps to the rate is admitted, the
      first one whenever it comes. */
  lemma PacedFromTheStart(rate: real, burst: real, ops: seq<Op>, key: string, from: int, to: int, gap: int)
    requires rate > 0.0 && burst >= 1.0 && 0 <= gap && gap as real * rate >= 1_000_000_000.0
    requires Runs(Fresh(rate, burst), ops) && Within(ops, from, to) && Paced(ops, key, from, gap)
    ensures Admitted(Fresh(rate, burst), ops, key) == Requests(ops, key)
  {
    FreshIsBounded(rate, burst);
    PacedIsAdmitted(Fresh(rate, burst), ops, key, from, to, from, gap);
  }

  lemma {:induction false} PacedEarned(
    l: Limiter, ops: seq<Op>, key: string, from: int, to: int, ready: int, gap: int)
    requires Bounded(l) && Capped(l) && Settled(l, from) && l.burst >= 1.0
    requires Runs(l, ops) && Within(ops, from, to) && Paced(ops, key, ready, gap)
    requires 0 <= gap && Earned(l.rate, gap) >= 1.0
    requires Credit(l, key, Later(from, ready)) >= 1.0
    ensures Admitted(l, ops, key) == Requests(ops, key)
    decreases |ops|
  {
    hide Earned, Refilled, Step;
    if ops != [] {
      var op := ops[0];
      StepPaced(l, op, key, from, ready, gap);
      PacedEarned(Step(l, op), ops[1..], key, op.now, to, if Rename(op.key) == key then op.now + gap else ready,
                      gap);
    }
  }

  // ----- idle eviction is unobservable

  /** The limiter that never evicts. */
  function Plain(l: Limiter, key: string, now: int): (Limiter, bool) { Taken(l, Rename(key), now) }

  function PlainAnswers(l: Limiter, trace: seq<(string, int)>): seq<bool>
    decreases |trace|
  {
    if trace == [] then []
    else
      var (l', ok) := Plain(l, trace[0].0, trace[0].1);
      [ok] + PlainAnswers(l', trace[1..])
  }

  ghost function Answers(l: Limiter, trace: seq<(string, int)>): seq<bool>
    requires l.rate > 0.0
    decreases |trace|
  {
    if trace == [] then []
    else
      var (l', ok) := Allowed(l, trace[0].0, trace[0].1, None);
      [ok] + Answers(l', trace[1..])
  }

  ghost function AsOps(trace: seq<(string, int)>): seq<Op>
  {
    if trace == [] then [] else [Request(trace[0].0, trace[0].1, None)] + AsOps(trace[1..])
  }

  ghost function Keys(trace: seq<(string, int)>): set<string>
  {
    set i | 0 <= i < |trace| :: Rename(trace[i].0)
  }

  ghost predicate NonDecreasing(trace: seq<(string, int)>, from: int)
  {
    trace != [] ==> from <= trace[0].1 && NonDecreasing(trace[1..], trace[0].1)
  }

  /** e is n with some buckets missing that would by now be full anyway. */
  ghost predicate SameButIdle(e: Limiter, n: Limiter, now: int)
  {
    && e.rate == n.rate && e.burst == n.burst
    && (forall k :: k in e.buckets ==> k in n.buckets && e.buckets[k] == n.buckets[k])
    && forall k :: k in n.buckets && k !in e.buckets ==>
         n.buckets[k].last < now && 0.0 <= n.buckets[k].tokens && Earned(n.rate, now - n.buckets[k].last) >= n.burst
  }

  lemma SimulateOne(e: Limiter, n: Limiter, from: int, key: string, now: int)
    requires Bounded(e) && Capped(e) && SameButIdle(e, n, from) && from <= now
    ensures var (e', a) := Allowed(e, key, now, None);
            var (n', b) := Plain(n, key, now);
            a == b && SameButIdle(e', n', now)
  {
    var m, k0 := WithoutIdle(e, now), Rename(key);
    forall k | k in n.buckets && k !in m.buckets
      ensures n.buckets[k].last < now && 0.0 <= n.buckets[k].tokens
      ensures Earned(n.rate, now - n.buckets[k].last) >= n.burst
    {
      if k in e.buckets {
        IdleIsFull(e.rate, e.burst, now - e.buckets[k].last);
      } else {
        EarnedMonotone(n.rate, from - n.buckets[k].last, now - n.buckets[k].last);
      }
    }
    assert SameButIdle(m, n, now);
    SimulateTake(m, n, k0, now);
  }

  lemma SimulateTake(m: Limiter, n: Limiter, key: string, now: int)
    requires SameButIdle(m, n, now)
    ensures var (m', a) := Taken(m, key, now);
            var (n', b) := Taken(n, key, now);
            a == b && SameButIdle(m', n', now)
  {
    var b := Refilled(m.rate, m.burst, BucketOf(m, key, now), now);
    assert b == Refilled(n.rate, n.burst, BucketOf(n, key, now), now);
  }

  lemma NoVictimNeeded(e: Limiter, key: string, now: int, keys: set<string>)
    requires Bounded(e) && e.buckets.Keys <= keys && Rename(key) in keys && |keys| <= 1024
    ensures ValidVictim(WithoutIdle(e, now), Rename(key), None)
    ensures Allowed(e, key, now, None).0.buckets.Keys <= keys
  {
    var m := WithoutIdle(e, now);
    if Rename(key) !in m.buckets {
      SubsetSize(m.buckets.Keys + {Rename(key)}, keys);
      assert |m.buckets.Keys| == |m.buckets|;
    }
  }

  /** With at most 1024 keys in play, idle eviction cannot be observed: on every
      trace the limiter answers as one that never evicts. */
  lemma {:induction false} IdleEvictionUnobservable(
    e: Limiter, n: Limiter, trace: seq<(string, int)>, from: int, keys: set<string>)
    requires Bounded(e) && Capped(e) && SameButIdle(e, n, from) && NonDecreasing(trace, from)
    requires e.buckets.Keys + Keys(trace) <= keys && |keys| <= 1024
    ensures Runs(e, AsOps(trace))
    ensures Answers(e, trace) == PlainAnswers(n, trace)
    decreases |trace|
  {
    hide Earned, Refilled, Taken, WithoutIdle, IdleFor;
    if trace != [] {
      var (key, now) := trace[0];
      assert Rename(trace[0].0) in Keys(trace);
      NoVictimNeeded(e, key, now, keys);
      SimulateOne(e, n, from, key, now);
      AllowedKeepsBounded(e, key, now, None);
      AllowedKeepsCapped(e, key, now, None);
      forall k | k in Keys(trace[1..])
        ensures k in Keys(trace)
      {
        var i :| 0 <= i < |trace[1..]| && Rename(trace[1..][i].0) == k;
        assert Rename(trace[i + 1].0) == k;
      }
      var e', n' := Allowed(e, key, now, None).0, Plain(n, key, now).0;
      IdleEvictionUnobservable(e', n', trace[1..], now, keys);
      assert AsOps(trace)[0] == Request(key, now, None) && AsOps(trace)[1..] == AsOps(trace[1..]);
    }
  }
}
