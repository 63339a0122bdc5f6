/** internal/ntpwire/time.go: 32.32 timestamps with eras (RFC 5905 section 6).
    An instant is an integer number of nanoseconds since the Unix epoch. */
module NtpTime {

  const SECOND := 1_000_000_000
  const TWO32 := 0x1_0000_0000
  const TWO63 := 0x8000_0000_0000_0000
  const TWO64 := 0x1_0000_0000_0000_0000

  /** Seconds from 1900-01-01 to 1970-01-01. */
  const UNIX_DELTA := 2_208_988_800

  const ERA0_START := -UNIX_DELTA * SECOND
  const ERA0_END := (TWO32 - UNIX_DELTA) * SECOND
  const ERA1_END := (2 * TWO32 - UNIX_DELTA) * SECOND

  newtype uint32 = x: int | 0 <= x < TWO32

  datatype Timestamp = Timestamp(seconds: uint32, fraction: uint32)

  predicate Zero(ts: Timestamp) { ts.seconds == 0 && ts.fraction == 0 }

  predicate InRange(t: int) { ERA0_START <= t < ERA1_END }

  /** time.Time.Unix and time.Time.Nanosecond: floor division, so the nanosecond
      part is never negative. */
  function Unix(t: int): int { t / SECOND }

  function Nanosecond(t: int): int { t % SECOND }

  function ClampServed(t: int): (c: int)
    ensures InRange(c)
    ensures InRange(t) ==> c == t
    ensures !InRange(t) ==> c == ERA0_START || c == ERA1_END - 1
  {
    if t < ERA0_START then ERA0_START
    else if t >= ERA1_END then ERA1_END - 1
    else t
  }

  predicate Clamped(t: int) { t < ERA0_START || t >= ERA1_END }

  function Era(t: int): int
  {
    if ClampServed(t) < ERA0_END then 0 else 1
  }

  /** The 64-bit product and the truncations are written out as in the source. */
  function FromTime(t: int): Timestamp
  {
    var c := ClampServed(t);
    var sec := Unix(c) + UNIX_DELTA;
    var frac := (Nanosecond(c) * TWO32 % TWO64) / SECOND;
    Timestamp((sec % TWO32) as uint32, (frac % TWO32) as uint32)
  }

  /** Decodes a timestamp in the given era. */
  function ToTime(ts: Timestamp, era: int): int
  {
    var sec := era * TWO32 + ts.seconds as int - UNIX_DELTA;
    var nsec := ts.fraction as int * SECOND / TWO32;
    sec * SECOND + nsec
  }

  /** Eras order the wire: (era, seconds, fraction) lexicographically. */
  predicate WireBefore(e1: int, a: Timestamp, e2: int, b: Timestamp)
  {
    e1 < e2 ||
    (e1 == e2 && (a.seconds < b.seconds || (a.seconds == b.seconds && a.fraction < b.fraction)))
  }

  predicate WireAtMost(e1: int, a: Timestamp, e2: int, b: Timestamp)
  {
    (e1 == e2 && a == b) || WireBefore(e1, a, e2, b)
  }

  // ----- fraction arithmetic

  /** Scaling a nanosecond count to 2^-32 seconds and back loses at most one
      nanosecond, and loses none exactly when 10^9 divides ns * 2^32. */
  lemma FractionRoundTrip(ns: int)
    requires 0 <= ns < SECOND
    ensures var f := ns * TWO32 / SECOND;
            0 <= f < TWO32 &&
            f * SECOND / TWO32 == (if ns * TWO32 % SECOND == 0 then ns else ns - 1)
  {
    var f := ns * TWO32 / SECOND;
    var r := ns * TWO32 % SECOND;
    assert ns * TWO32 == f * SECOND + r;
    assert f * SECOND == ns * TWO32 - r;
    if r == 0 {
    } else {
      assert (ns - 1) * TWO32 < f * SECOND < ns * TWO32;
    }
  }

  /** 10^9 divides ns * 2^32 exactly when 5^9 divides ns; 1241897 inverts 2^23
      modulo 5^9. */
  lemma ExactFraction(ns: int)
    requires 0 <= ns
    ensures ns * TWO32 % SECOND == 0 <==> ns % 1_953_125 == 0
  {
    if ns % 1_953_125 == 0 {
      var k := ns / 1_953_125;
      assert ns * TWO32 == (k * 8_388_608) * SECOND;
    }
    if ns * TWO32 % SECOND == 0 {
      var q := ns * TWO32 / SECOND;
      assert ns * 8_388_608 == q * 1_953_125;
      assert 8_388_608 * 1_241_897 == 1_953_125 * 5_333_907 + 1;
      assert ns == 1_953_125 * (q * 1_241_897 - ns * 5_333_907);
    }
  }

  lemma FractionIncreases(a: int, b: int)
    requires 0 <= a < b < SECOND
    ensures a * TWO32 / SECOND < b * TWO32 / SECOND
  {
    var f := a * TWO32 / SECOND;
    assert f * SECOND <= a * TWO32;
    assert (f + 1) * SECOND <= b * TWO32;
  }

  // ----- main results

  /** What an in-range instant becomes on the wire, and that neither product
      leaves 64 bits: uint64(ns) << 32 when encoding, int64(fraction) * 10^9
      when decoding. */
  lemma EncodeInRange(t: int)
    requires InRange(t)
    ensures var ts := FromTime(t);
            Unix(t) + UNIX_DELTA == Era(t) * TWO32 + ts.seconds as int &&
            ts.fraction as int == Nanosecond(t) * TWO32 / SECOND
    ensures 0 <= Nanosecond(t) * TWO32 < TWO64
    ensures 0 <= FromTime(t).fraction as int * SECOND < TWO63
  {
    FractionRoundTrip(Nanosecond(t));
    assert 0 <= Unix(t) + UNIX_DELTA < 2 * TWO32;
  }

  /** Decoding with the right era gives the instant back, one nanosecond early
      unless 5^9 divides the nanosecond part, and never late. */
  lemma RoundTrip(t: int)
    requires InRange(t)
    ensures ToTime(FromTime(t), Era(t)) == t || ToTime(FromTime(t), Era(t)) == t - 1
    ensures ToTime(FromTime(t), Era(t)) == t <==> Nanosecond(t) % 1_953_125 == 0
  {
    EncodeInRange(t);
    FractionRoundTrip(Nanosecond(t));
    ExactFraction(Nanosecond(t));
    assert t == Unix(t) * SECOND + Nanosecond(t);
  }

  /** The Unix epoch lies 25567 days after 1900-01-01: 70 years, 17 of them leap years.
      The range ends 73853 days, 12 hours, 56 minutes and 32 seconds after it, and
      era 1 begins 24143 days, 6 hours, 28 minutes and 16 seconds after it. */
  lemma UnixEpochOnWire(t: int)
    ensures 25_567 == 70 * 365 + 17 && FromTime(0) == Timestamp(2_208_988_800, 0) && 25_567 * 86_400 == 2_208_988_800
    ensures InRange(t) <==>
            -25_567 * 86_400 * 1_000_000_000 <= t <
            (73_853 * 86_400 + 12 * 3_600 + 56 * 60 + 32) * 1_000_000_000
    ensures Era(t) == if t < (24_143 * 86_400 + 6 * 3_600 + 28 * 60 + 16) * 1_000_000_000 then 0 else 1
  {
  }

  /** An out-of-range instant is encoded as its clamp. */
  lemma OutOfRangeEncodesAsClamp(t: int)
    requires !InRange(t)
    ensures Clamped(t)
    ensures t < ERA0_START ==> Era(t) == 0 && FromTime(t) == Timestamp(0, 0)
    ensures t >= ERA1_END ==> Era(t) == 1 && FromTime(t) == Timestamp(0xFFFF_FFFF, 0xFFFF_FFFB)
  {
    if t < ERA0_START {
      EncodeInRange(ERA0_START);
    } else {
      EncodeInRange(ERA1_END - 1);
    }
  }

  /** The wire form is strictly increasing in the instant, so two distinct
      nanosecond instants never collide. */
  lemma WireStrictlyIncreasing(a: int, b: int)
    requires InRange(a) && InRange(b)
    ensures a < b <==> WireBefore(Era(a), FromTime(a), Era(b), FromTime(b))
    ensures a == b <==> Era(a) == Era(b) && FromTime(a) == FromTime(b)
  {
    EncodeInRange(a);
    EncodeInRange(b);
    if a < b {
      WireOrdered(a, b);
    } else if b < a {
      WireOrdered(b, a);
    }
  }

  lemma WireOrdered(a: int, b: int)
    requires InRange(a) && InRange(b) && a < b
    ensures WireBefore(Era(a), FromTime(a), Era(b), FromTime(b))
  {
    EncodeInRange(a);
    EncodeInRange(b);
    if Unix(a) == Unix(b) {
      FractionIncreases(Nanosecond(a), Nanosecond(b));
    } else {
      assert Unix(a) < Unix(b);
    }
  }

  /** Clamping is monotone, so the order survives on the wire for every pair of
      instants, in range or not. */
  lemma WireMonotone(a: int, b: int)
    requires a <= b
    ensures WireAtMost(Era(a), FromTime(a), Era(b), FromTime(b))
  {
    WireStrictlyIncreasing(ClampServed(a), ClampServed(b));
  }

  // ----- 16.16 short format

  /** Conversion of a float to an integer in Go truncates toward zero. */
  function Truncate(x: real): int
  {
    if x >= 0.0 then x.Floor else -((-x).Floor)
  }

  function Short16(d: int): real { (d as real / SECOND as real) * 65536.0 }

  function ShortFromDuration(d: int): int
  {
    var sec := Short16(d);
    if sec > 2147483647.0 then 2147483647
    else if sec < -2147483648.0 then -2147483648
    else Truncate(sec)
  }

  function UShortFromDuration(d: int): int
  {
    if d <= 0 then 0
    else
      var sec := Short16(d);
      if sec > 4294967295.0 then 4294967295 else Truncate(sec)
  }

  /** The signed form fits 32 bits, is within one unit of the exact value unless
      it saturates, saturates only past the ends, and agrees with the unsigned
      form on every duration both can hold. */
  lemma ShortFormats(d: int)
    ensures -TWO32 / 2 <= ShortFromDuration(d) < TWO32 / 2
    ensures 0 <= UShortFromDuration(d) < TWO32
    ensures var exact := d as real * 65_536.0 / 1_000_000_000.0;
            && (-2147483648.0 <= exact <= 2147483647.0 ==> exact - 1.0 < ShortFromDuration(d) as real < exact + 1.0)
            && (0 <= d && exact <= 4294967295.0 ==> exact - 1.0 < UShortFromDuration(d) as real <= exact)
            && (0 <= d && exact <= 2147483647.0 ==> ShortFromDuration(d) == UShortFromDuration(d))
            && (exact >= 0.0 ==> ShortFromDuration(d) as real <= exact)
            && (exact <= 0.0 ==> ShortFromDuration(d) as real >= exact)
            && (exact > 2147483647.0 ==> ShortFromDuration(d) == 0x7FFF_FFFF)
            && (exact < -2147483648.0 ==> ShortFromDuration(d) == -0x8000_0000)
            && (exact > 4294967295.0 ==> UShortFromDuration(d) == 0xFFFF_FFFF)
            && (d <= 0 ==> UShortFromDuration(d) == 0)
  {
    assert Short16(d) == d as real * 65_536.0 / 1_000_000_000.0;
    if d >= 0 {
      assert Short16(d) >= 0.0;
    }
  }
}
