/** internal/ntpview/view.go: a compiled virtual clock and its served time. */
module View {
  import opened Wrappers
  import opened NtpTime

  const MAX_DURATION := TWO63 - 1
  const MIN_DURATION := -TWO63

  /** A reading of the process clock: wall time and the monotonic reading that
      time.Now keeps beside it, both in nanoseconds. */
  datatype Instant = Instant(wall: int, mono: int)

  predicate NotAfter(a: Instant, b: Instant) { a.wall <= b.wall && a.mono <= b.mono }

  function SaturateDuration(d: int): int
  {
    if d > MAX_DURATION then MAX_DURATION else if d < MIN_DURATION then MIN_DURATION else d
  }

  /** time.Time.Sub between two readings that both carry a monotonic part. */
  function Sub(a: Instant, b: Instant): int { SaturateDuration(a.mono - b.mono) }

  datatype Mode = FollowReal | Offset | Absolute | Freeze | Rate | OtherMode(name: string)

  datatype Leap = NoLeap | Insert | Delete | Unsync | OtherLeap(name: string)

  datatype View = View(
    name: string, generation: nat, mode: Mode,
    offset: int, absolute: int, freezeAt: int, rate: real, hasRate: bool,
    epochVirtual: int, epochMono: Instant, epochWall: int,
    leap: Leap, stratum: int, refId: string, precision: int,
    rootDelay: int, rootDispersion: int, jitter: int,
    minPoll: Option<int>, maxPoll: Option<int>)

  function Seconds(d: int): real { d as real / SECOND as real }

  /** saturatingDuration. float64(math.MaxInt64) is 2^63, so both limits are
      exact powers of two over 10^9. */
  function SaturatingDuration(seconds: real): int
  {
    if seconds >= TWO63 as real / SECOND as real then MAX_DURATION
    else if seconds <= -(TWO63 as real) / SECOND as real then MIN_DURATION
    else Truncate(seconds * SECOND as real)
  }

  /** The exact, unrounded product of a real time span and a rate. */
  function Scaled(span: int, rate: real): real { span as real * rate }

  function RateDelta(elapsed: int, rate: real): int { SaturatingDuration(Seconds(elapsed) * rate) }

  function ServedUnclamped(v: View, t: Instant): int
  {
    match v.mode
    case FollowReal => t.wall
    case Offset => t.wall + v.offset
    case Absolute => v.absolute + Sub(t, v.epochMono)
    case Freeze => v.freezeAt
    case Rate => v.epochVirtual + RateDelta(Sub(t, v.epochMono), v.rate)
    case OtherMode(_) => t.wall
  }

  function Served(v: View, t: Instant): int { ClampServed(ServedUnclamped(v, t)) }

  predicate ServedClamped(v: View, t: Instant) { Clamped(ServedUnclamped(v, t)) }

  /** The fraction u in [0, 1] that SHA-256 yields for (name, generation, second). */
  type Wander = (string, nat, int) -> real

  ghost predicate ValidWander(w: Wander)
  {
    forall name, generation, second :: 0.0 <= w(name, generation, second) <= 1.0
  }

  function JitterDelta(v: View, second: int, w: Wander): int
  {
    if v.jitter == 0 then 0
    else Truncate((2.0 * w(v.name, v.generation, second) - 1.0) * v.jitter as real)
  }

  function RefTime(v: View, xmit: int): int
  {
    match v.mode
    case Freeze => v.freezeAt
    case Rate => v.epochVirtual
    case _ => xmit
  }

  function ClampPoll(v: View, client: int): int
  {
    var p := if v.minPoll.Some? && client < v.minPoll.value then v.minPoll.value else client;
    var q := if v.maxPoll.Some? && p > v.maxPoll.value then v.maxPoll.value else p;
    if q < -128 then -128 else if q > 127 then 127 else q
  }

  // ----- truncation and saturation

  lemma TruncateBounds(x: real)
    ensures x >= 0.0 ==> 0 <= Truncate(x) && x - 1.0 < Truncate(x) as real <= x
    ensures x < 0.0 ==> Truncate(x) <= 0 && x <= Truncate(x) as real < x + 1.0
  {
  }

  lemma TruncateMonotone(x: real, y: real)
    requires x <= y
    ensures Truncate(x) <= Truncate(y)
  {
  }

  lemma TruncateInt(n: int)
    ensures Truncate(n as real) == n
  {
  }

  lemma {:induction false} SecondsTimes(elapsed: int, rate: real)
    ensures Seconds(elapsed) * rate * SECOND as real == Scaled(elapsed, rate)
  {
    var e := elapsed as real;
    assert Seconds(elapsed) * SECOND as real == e;
    assert Seconds(elapsed) * rate * SECOND as real == (Seconds(elapsed) * SECOND as real) * rate;
  }

  /** The saturating duration is exactly the truncation limited to int64. */
  lemma RateDeltaIs(elapsed: int, rate: real)
    ensures RateDelta(elapsed, rate) == SaturateDuration(Truncate(Scaled(elapsed, rate)))
    ensures MIN_DURATION <= RateDelta(elapsed, rate) <= MAX_DURATION
  {
    SecondsTimes(elapsed, rate);
    var s := Seconds(elapsed) * rate;
    var x := elapsed as real * rate;
    assert s * SECOND as real == x;
    TruncateInt(TWO63);
    TruncateInt(-TWO63);
    if s >= TWO63 as real / SECOND as real {
      assert x >= TWO63 as real;
      TruncateMonotone(TWO63 as real, x);
    } else if s <= -(TWO63 as real) / SECOND as real {
      assert x <= -TWO63 as real;
      TruncateMonotone(x, -TWO63 as real);
    } else {
      assert -TWO63 as real < x < TWO63 as real;
      TruncateBounds(x);
    }
  }

  lemma ScaleMonotone(x: real, y: real, k: real)
    requires x <= y
    ensures k >= 0.0 ==> x * k <= y * k
    ensures k <= 0.0 ==> x * k >= y * k
  {
    assert (y - x) * k == y * k - x * k;
  }

  lemma ScaledMonotone(e1: int, e2: int, rate: real)
    requires e1 <= e2
    ensures rate >= 0.0 ==> Scaled(e1, rate) <= Scaled(e2, rate)
    ensures rate <= 0.0 ==> Scaled(e1, rate) >= Scaled(e2, rate)
  {
    ScaleMonotone(e1 as real, e2 as real, rate);
  }

  lemma SaturatedTruncateMonotone(x: real, y: real)
    requires x <= y
    ensures SaturateDuration(Truncate(x)) <= SaturateDuration(Truncate(y))
  {
    TruncateMonotone(x, y);
  }

  lemma RateDeltaMonotone(e1: int, e2: int, rate: real)
    requires e1 <= e2
    ensures rate >= 0.0 ==> RateDelta(e1, rate) <= RateDelta(e2, rate)
    ensures rate <= 0.0 ==> RateDelta(e1, rate) >= RateDelta(e2, rate)
  {
    var x, y := Scaled(e1, rate), Scaled(e2, rate);
    var d1, d2 := RateDelta(e1, rate), RateDelta(e2, rate);
    RateDeltaIs(e1, rate);
    RateDeltaIs(e2, rate);
    ScaledMonotone(e1, e2, rate);
    if x <= y {
      SaturatedTruncateMonotone(x, y);
    }
    if y <= x {
      SaturatedTruncateMonotone(y, x);
    }
  }

  // ----- main results

  predicate Rewinds(v: View) { v.mode == Rate && v.rate < 0.0 }

  /** Through saturation and clamp, a served clock never runs backwards unless
      it is a negative-rate clock, which never runs forwards; either way it
      stays in [1900-01-01, 2172-03-15T12:56:32). */
  lemma ServedMonotone(v: View, a: Instant, b: Instant)
    requires NotAfter(a, b)
    ensures InRange(Served(v, a)) && InRange(Served(v, b))
    ensures !Rewinds(v) ==> Served(v, a) <= Served(v, b)
    ensures Rewinds(v) ==> Served(v, a) >= Served(v, b)
  {
    assert Sub(a, v.epochMono) <= Sub(b, v.epochMono);
    RateDeltaMonotone(Sub(a, v.epochMono), Sub(b, v.epochMono), v.rate);
  }

  /** Neither a clamp nor a saturation is hit when a rate clock is read at t. */
  predicate Unclipped(v: View, t: Instant)
  {
    var e := t.mono - v.epochMono.mono;
    MIN_DURATION <= e <= MAX_DURATION && MIN_DURATION <= Truncate(Scaled(e, v.rate)) <= MAX_DURATION &&
    InRange(v.epochVirtual + Truncate(Scaled(e, v.rate)))
  }

  lemma UnclippedServed(v: View, t: Instant)
    requires v.mode == Rate && Unclipped(v, t)
    ensures Served(v, t) == v.epochVirtual + Truncate(Scaled(t.mono - v.epochMono.mono, v.rate))
  {
    RateDeltaIs(t.mono - v.epochMono.mono, v.rate);
  }

  lemma ScaledSplits(d: int, e: int, rate: real)
    ensures Scaled(d + e, rate) == Scaled(d, rate) + Scaled(e, rate)
  {
    assert (d as real + e as real) * rate == d as real * rate + e as real * rate;
  }

  lemma ScaledSign(e: int, rate: real)
    ensures e >= 0 && rate <= 0.0 ==> Scaled(e, rate) <= 0.0
    ensures e >= 0 && rate >= 0.0 ==> Scaled(e, rate) >= 0.0
  {
    if e >= 0 {
      ScaledMonotone(0, e, rate);
    }
  }

  /** Between any two readings a rate clock moves by its rate times the real time
      between them, to less than a nanosecond on one side of its anchor and less
      than two across it, where both truncations are towards the anchor. */
  lemma RateServesRate(v: View, a: Instant, b: Instant)
    requires v.mode == Rate && Unclipped(v, a) && Unclipped(v, b)
    ensures var off := (Served(v, b) - Served(v, a)) as real - (b.mono - a.mono) as real * v.rate;
            -2.0 < off < 2.0 &&
            (v.epochMono.mono <= a.mono && v.epochMono.mono <= b.mono ==> -1.0 < off < 1.0)
  {
    hide *;
    ScaledIs(b.mono - a.mono, v.rate);
    ServesScaled(v, a, b);
  }

  lemma ScaledIs(span: int, rate: real)
    ensures Scaled(span, rate) == span as real * rate
  {
  }

  lemma ServesScaled(v: View, a: Instant, b: Instant)
    requires v.mode == Rate && Unclipped(v, a) && Unclipped(v, b)
    ensures var off := (Served(v, b) - Served(v, a)) as real - Scaled(b.mono - a.mono, v.rate);
            -2.0 < off < 2.0 &&
            (v.epochMono.mono <= a.mono && v.epochMono.mono <= b.mono ==> -1.0 < off < 1.0)
  {
    var d, e := a.mono - v.epochMono.mono, b.mono - v.epochMono.mono;
    UnclippedServed(v, a);
    UnclippedServed(v, b);
    ScaledSplits(d, e - d, v.rate);
    ScaledSign(d, v.rate);
    ScaledSign(e, v.rate);
    hide Served, Unclipped;
    TruncateBounds(Scaled(d, v.rate));
    TruncateBounds(Scaled(e, v.rate));
  }

  /** A negative rate really does rewind: as soon as the clock has a whole
      nanosecond to lose between two readings it serves an earlier time. */
  lemma NegativeRateRewinds(v: View, a: Instant, b: Instant)
    requires Rewinds(v) && Unclipped(v, a) && Unclipped(v, b)
    requires v.epochMono.mono <= a.mono <= b.mono && Scaled(b.mono - a.mono, v.rate) <= -1.0
    ensures Served(v, b) < Served(v, a)
  {
    ServesScaled(v, a, b);
  }

  /** A step of the host's wall clock cannot be seen through an absolute, rate
      or freeze view; it moves a follow-real or offset view by the same amount
      while no clamp is hit (ADR 0013). */
  lemma HostStep(v: View, t: Instant, step: int)
    ensures v.mode.Absolute? || v.mode.Rate? || v.mode.Freeze? ==>
              Served(v, t.(wall := t.wall + step)) == Served(v, t)
    ensures (v.mode.FollowReal? || v.mode.Offset?) &&
            !ServedClamped(v, t) && !ServedClamped(v, t.(wall := t.wall + step)) ==>
              Served(v, t.(wall := t.wall + step)) == Served(v, t) + step
  {
  }

  /** Follow-real serves the host's time, offset the host's time moved by the offset,
      freeze its instant, and absolute its instant plus what the monotonic clock has
      counted since the anchor, as far as a duration can. */
  lemma ServedAgainstHost(v: View, t: Instant)
    requires InRange(Served(v, t)) && !ServedClamped(v, t)
    ensures v.mode.FollowReal? ==> Served(v, t) == t.wall
    ensures v.mode.Offset? ==> Served(v, t) - t.wall == v.offset
    ensures v.mode.Freeze? ==> Served(v, t) == v.freezeAt
    ensures var since := t.mono - v.epochMono.mono;
            v.mode.Absolute? ==>
              Served(v, t) - v.absolute ==
              if since > 0x7FFF_FFFF_FFFF_FFFF then 0x7FFF_FFFF_FFFF_FFFF
              else if since < -0x8000_0000_0000_0000 then -0x8000_0000_0000_0000
              else since
    ensures v.mode.OtherMode? ==> Served(v, t) == t.wall
  {
  }

  /** Absolute mode is step-then-follow at rate 1 (ADR 0008), and an explicit
      rate of zero is a freeze at the epoch, at every instant. */
  lemma ModesCoincide(v: View, t: Instant)
    ensures Served(v.(mode := Absolute), t) ==
            Served(v.(mode := Rate, rate := 1.0, epochVirtual := v.absolute), t)
    ensures Served(v.(mode := Rate, rate := 0.0), t) ==
            Served(v.(mode := Freeze, freezeAt := v.epochVirtual), t)
  {
    var e := Sub(t, v.epochMono);
    RateDeltaIs(e, 1.0);
    assert e as real * 1.0 == e as real;
    TruncateInt(e);
    RateDeltaIs(e, 0.0);
    assert e as real * 0.0 == 0.0;
    TruncateInt(0);
  }

  lemma ProductWithin(c: real, r: real)
    requires -1.0 <= c <= 1.0 && r >= 0.0
    ensures -r <= c * r <= r
  {
  }

  lemma TruncateWithin(x: real, j: int)
    requires -(j as real) <= x <= j as real
    ensures -j <= Truncate(x) <= j
  {
  }

  /** The wander of a view never exceeds its configured jitter, either way. */
  lemma JitterBounded(v: View, second: int, w: Wander)
    requires ValidWander(w) && v.jitter >= 0
    ensures -v.jitter <= JitterDelta(v, second, w) <= v.jitter
  {
    var c := 2.0 * w(v.name, v.generation, second) - 1.0;
    ProductWithin(c, v.jitter as real);
    TruncateWithin(c * v.jitter as real, v.jitter);
  }

  /** The wander is the configured jitter times the fraction spread from -1 to 1, cut
      to whole nanoseconds towards zero: without jitter none, and both ends are
      reached. */
  lemma WanderSpread(v: View, second: int, w: Wander)
    requires v.jitter >= 0
    ensures var u, delta := w(v.name, v.generation, second), JitterDelta(v, second, w) as real;
            var exact := (u + u - 1.0) * v.jitter as real;
            -1.0 < delta - exact < 1.0 && (exact >= 0.0 ==> 0.0 <= delta <= exact) &&
            (exact <= 0.0 ==> exact <= delta <= 0.0) &&
            (u == 0.0 ==> delta == -v.jitter as real) && (u == 1.0 ==> delta == v.jitter as real)
  {
    var u := w(v.name, v.generation, second);
    var exact := (u + u - 1.0) * v.jitter as real;
    assert 2.0 * u - 1.0 == u + u - 1.0;
    TruncateBounds(exact);
    TruncateInt(v.jitter);
    TruncateInt(-v.jitter);
    if v.jitter == 0 {
      assert exact == 0.0;
    }
    if u == 0.0 {
      assert exact == (-v.jitter) as real;
    }
    if u == 1.0 {
      assert exact == v.jitter as real;
    }
    hide Truncate;
  }

  /** The poll exponent fits int8 and is the client's own, or the nearer of the
      configured bounds when that lies outside them. */
  lemma PollClamped(v: View, client: int)
    requires -128 <= client < 128
    requires v.minPoll.Some? ==> -6 <= v.minPoll.value <= 17
    requires v.maxPoll.Some? ==> -6 <= v.maxPoll.value <= 17
    requires v.minPoll.Some? && v.maxPoll.Some? ==> v.minPoll.value <= v.maxPoll.value
    ensures -128 <= ClampPoll(v, client) < 128
    ensures v.minPoll.Some? ==> v.minPoll.value <= ClampPoll(v, client)
    ensures v.maxPoll.Some? ==> ClampPoll(v, client) <= v.maxPoll.value
    ensures v.minPoll.Some? && client < v.minPoll.value ==> ClampPoll(v, client) == v.minPoll.value
    ensures v.maxPoll.Some? && client > v.maxPoll.value ==> ClampPoll(v, client) == v.maxPoll.value
    ensures ((v.minPoll.None? || v.minPoll.value <= client) &&
             (v.maxPoll.None? || client <= v.maxPoll.value)) ==> ClampPoll(v, client) == client
  {
  }

  /** A reply whose receive instant is not after its transmit instant carries a
      receive timestamp not after its transmit timestamp in era order, with the
      same wander added to both. */
  lemma ReplyOrdered(v: View, recv: Instant, xmit: Instant, delta: int)
    requires NotAfter(recv, xmit) && !Rewinds(v)
    ensures var r := Served(v, recv) + delta;
            var x := Served(v, xmit) + delta;
            WireAtMost(Era(r), FromTime(r), Era(x), FromTime(x))
  {
    ServedMonotone(v, recv, xmit);
    WireMonotone(Served(v, recv) + delta, Served(v, xmit) + delta);
  }
}
