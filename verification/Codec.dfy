/** internal/ntpwire/codec.go and mac.go: the 48-byte header of RFC 5905
    section 7.3 and the keyed trailer behind it. */
module Codec {
  import opened Wrappers
  import opened NtpTime

  const PACKET_SIZE := 48

  newtype byte = x: int | 0 <= x < 256
  newtype int8 = x: int | -128 <= x < 128
  newtype int32 = x: int | -0x8000_0000 <= x < 0x8000_0000

  /** LI, VN and Mode are uint8 fields in the source that share one octet. */
  datatype Packet = Packet(
    li: byte, vn: byte, mode: byte,
    stratum: byte, poll: int8, precision: int8,
    rootDelay: int32, rootDisp: uint32, refId: seq<byte>,
    refTime: Timestamp, orgTime: Timestamp, recTime: Timestamp, xmtTime: Timestamp)
  {
    ghost predicate Valid() { |refId| == 4 }

    /** Each of the three fits the bits the header gives it. */
    predicate FitsOctet() { li < 4 && vn < 8 && mode < 8 }
  }

  // ----- bit operations on octets

  function Or(a: nat, b: nat): nat
  {
    if a == 0 && b == 0 then 0 else 2 * Or(a / 2, b / 2) + (if a % 2 + b % 2 == 0 then 0 else 1)
  }

  function Xor(a: nat, b: nat): nat
  {
    if a == 0 && b == 0 then 0 else 2 * Xor(a / 2, b / 2) + (if a % 2 == b % 2 then 0 else 1)
  }

  function Pow2(k: nat): (p: nat)
    ensures p > 0
  {
    if k == 0 then 1 else 2 * Pow2(k - 1)
  }

  lemma OrBounds(a: nat, b: nat, k: nat)
    requires a < Pow2(k) && b < Pow2(k)
    ensures Or(a, b) < Pow2(k)
  {
    if k > 0 {
      OrBounds(a / 2, b / 2, k - 1);
    }
  }

  lemma OrEven(h: nat, low: nat)
    ensures Or(2 * h, low) == 2 * Or(h, low / 2) + low % 2
  {
    assert 2 * h / 2 == h && 2 * h % 2 == 0;
  }

  lemma PowTimes(high: nat, k: nat)
    requires k > 0
    ensures high * Pow2(k) == 2 * (high * Pow2(k - 1))
  {
    var p := Pow2(k - 1);
    assert Pow2(k) == 2 * p;
  }

  /** Or of operands that share no bit position is their sum. */
  lemma {:induction false} OrDisjoint(high: nat, low: nat, k: nat)
    requires low < Pow2(k)
    ensures Or(high * Pow2(k), low) == high * Pow2(k) + low
  {
    if k == 0 {
      OrZeroRight(high);
      assert high * Pow2(0) == high;
    } else {
      assert low / 2 < Pow2(k - 1);
      OrDisjoint(high, low / 2, k - 1);
      PowTimes(high, k);
      var h := high * Pow2(k - 1);
      OrEven(h, low);
      hide Or, Pow2;
    }
  }

  lemma OrZeroRight(a: nat)
    ensures Or(a, 0) == a
  {
  }

  lemma OrIsZero(a: nat, b: nat)
    ensures Or(a, b) == 0 <==> a == 0 && b == 0
  {
  }

  lemma XorIsZero(a: nat, b: nat)
    ensures Xor(a, b) == 0 <==> a == b
  {
  }

  // ----- big-endian words and two's complement

  function GetU32(b: seq<byte>): uint32
    requires |b| == 4
  {
    b[0] as uint32 * 0x100_0000 + b[1] as uint32 * 0x1_0000 + b[2] as uint32 * 0x100 + b[3] as uint32
  }

  lemma OctetsOf(x: nat)
    ensures x / 0x1_0000 == x / 0x100 / 0x100 && x / 0x100_0000 == x / 0x1_0000 / 0x100
    ensures ((x / 0x100_0000 * 0x100 + x / 0x1_0000 % 0x100) * 0x100 + x / 0x100 % 0x100) * 0x100 + x % 0x100 == x
  {
    var a, b := x / 0x100, x / 0x1_0000;
    assert x == a * 0x100 + x % 0x100;
    assert a == b * 0x100 + a % 0x100;
    assert b == x / 0x100_0000 * 0x100 + b % 0x100;
  }

  /** Four octets, the most significant first. */
  function PutU32(x: uint32): (b: seq<byte>)
    ensures |b| == 4
    ensures ((b[0] as int * 0x100 + b[1] as int) * 0x100 + b[2] as int) * 0x100 + b[3] as int == x as int
  {
    OctetsOf(x as int);
    [(x / 0x100_0000) as byte, (x / 0x1_0000 % 0x100) as byte, (x / 0x100 % 0x100) as byte, (x % 0x100) as byte]
  }

  function AsInt8(b: byte): int8 { (if b < 128 then b as int else b as int - 256) as int8 }

  function FromInt8(x: int8): byte { (if x < 0 then x as int + 256 else x as int) as byte }

  function AsInt32(u: uint32): int32
  {
    (if u < 0x8000_0000 then u as int else u as int - TWO32) as int32
  }

  function FromInt32(x: int32): uint32
  {
    (if x < 0 then x as int + TWO32 else x as int) as uint32
  }

  function GetTS(b: seq<byte>): Timestamp
    requires |b| == 8
  {
    Timestamp(GetU32(b[0..4]), GetU32(b[4..8]))
  }

  function PutTS(ts: Timestamp): (b: seq<byte>)
    ensures |b| == 8
  {
    PutU32(ts.seconds) + PutU32(ts.fraction)
  }

  // ----- Parse and Encode

  /** The shifts drop the bits that leave the octet. */
  function Octet(li: nat, vn: nat, mode: nat): (o: nat)
    requires li < 256 && vn < 256 && mode < 256
    ensures o < 256
  {
    OctetBound(li * 64 % 256, vn * 8 % 256, mode);
    Or(Or(li * 64 % 256, vn * 8 % 256), mode)
  }

  function FirstOctet(p: Packet): byte { Octet(p.li as nat, p.vn as nat, p.mode as nat) as byte }

  lemma Powers()
    ensures Pow2(3) == 8 && Pow2(6) == 64 && Pow2(8) == 256
  {
    assert Pow2(3) == 8;
    assert Pow2(5) == 32;
    assert Pow2(7) == 128;
  }

  lemma OctetBound(li: nat, vn: nat, mode: nat)
    requires li < 256 && vn < 256 && mode < 256
    ensures Or(Or(li, vn), mode) < 256
  {
    Powers();
    OrBounds(li, vn, 8);
    OrBounds(Or(li, vn), mode, 8);
  }

  function Parse(b: seq<byte>): Option<Packet>
  {
    if |b| < PACKET_SIZE then None
    else
      Some(Packet(
        b[0] / 64, b[0] / 8 % 8, b[0] % 8,
        b[1], AsInt8(b[2]), AsInt8(b[3]),
        AsInt32(GetU32(b[4..8])), GetU32(b[8..12]), b[12..16],
        GetTS(b[16..24]), GetTS(b[24..32]), GetTS(b[32..40]), GetTS(b[40..48])))
  }

  function EncodeHead(p: Packet): (b: seq<byte>)
    ensures |b| == 4
  {
    [FirstOctet(p), p.stratum, FromInt8(p.poll), FromInt8(p.precision)]
  }

  function EncodeRoot(p: Packet): (b: seq<byte>)
    requires p.Valid()
    ensures |b| == 12
  {
    PutU32(FromInt32(p.rootDelay)) + PutU32(p.rootDisp) + p.refId
  }

  function EncodeTimes(p: Packet): (b: seq<byte>)
    ensures |b| == 32
  {
    PutTS(p.refTime) + PutTS(p.orgTime) + PutTS(p.recTime) + PutTS(p.xmtTime)
  }

  function Encode(p: Packet): (b: seq<byte>)
    requires p.Valid()
    ensures |b| == PACKET_SIZE
  {
    EncodeHead(p) + EncodeRoot(p) + EncodeTimes(p)
  }

  const LI_UNSYNC: byte := 3
  const MODE_CLIENT: byte := 3
  const MODE_SERVER: byte := 4
  const KISS_RATE: seq<byte> := [82, 65, 84, 69]

  /** Kiss-of-death reply of RFC 5905 section 7.4. */
  function KoD(req: Packet, code: seq<byte>): Packet
  {
    var zero := Timestamp(0, 0);
    Packet(LI_UNSYNC, req.vn, MODE_SERVER, 0, 0, 0, 0, 0, code, zero, req.xmtTime, zero, zero)
  }

  // ----- round trips, field by field

  lemma U32RoundTrip(x: uint32, b: seq<byte>)
    requires |b| == 4
    ensures GetU32(PutU32(x)) == x
    ensures PutU32(GetU32(b)) == b
  {
    var y := GetU32(b);
    var b0, b1, b2, b3 := b[0] as int, b[1] as int, b[2] as int, b[3] as int;
    assert y as int == b0 * 0x100_0000 + b1 * 0x1_0000 + b2 * 0x100 + b3;
    assert y as int / 0x100 == b0 * 0x1_0000 + b1 * 0x100 + b2;
    assert y as int / 0x1_0000 == b0 * 0x100 + b1;
    assert y as int / 0x100_0000 == b0;
  }

  lemma TSRoundTrip(ts: Timestamp, b: seq<byte>)
    requires |b| == 8
    ensures GetTS(PutTS(ts)) == ts
    ensures PutTS(GetTS(b)) == b
  {
    U32RoundTrip(ts.seconds, b[0..4]);
    U32RoundTrip(ts.fraction, b[4..8]);
    assert PutTS(ts)[0..4] == PutU32(ts.seconds) && PutTS(ts)[4..8] == PutU32(ts.fraction);
    assert b == b[0..4] + b[4..8];
  }

  lemma OrShifted(li: nat, vn: nat, mode: nat)
    requires vn < 8 && mode < 8
    ensures Or(li * 64, vn * 8) == li * 64 + vn * 8
    ensures Or(li * 64 + vn * 8, mode) == li * 64 + vn * 8 + mode
  {
    Powers();
    OrDisjoint(li, vn * 8, 6);
    OrDisjoint(li * 8 + vn, mode, 3);
    assert (li * 8 + vn) * 8 == li * 64 + vn * 8;
  }

  lemma NothingShiftedOut(li: nat, vn: nat)
    requires li < 4 && vn < 8
    ensures li * 64 % 256 == li * 64 && vn * 8 % 256 == vn * 8
  {
  }

  lemma OctetSum(li: nat, vn: nat, mode: nat)
    requires li < 4 && vn < 8 && mode < 8
    ensures Octet(li, vn, mode) == li * 64 + vn * 8 + mode
  {
    NothingShiftedOut(li, vn);
    OrShifted(li, vn, mode);
    var a, b := li * 64 % 256, vn * 8 % 256;
    assert Or(a, b) == li * 64 + vn * 8;
  }

  lemma OctetOut(p: Packet)
    requires p.FitsOctet()
    ensures var o := FirstOctet(p); o / 64 == p.li && o / 8 % 8 == p.vn && o % 8 == p.mode
  {
    OctetSum(p.li as nat, p.vn as nat, p.mode as nat);
    var o, li, vn, mode := FirstOctet(p) as int, p.li as int, p.vn as int, p.mode as int;
    assert o == li * 64 + vn * 8 + mode;
    assert o / 8 == li * 8 + vn;
  }

  lemma OctetIn(p: Packet, b0: byte)
    requires p.li == b0 / 64 && p.vn == b0 / 8 % 8 && p.mode == b0 % 8
    ensures p.FitsOctet() && FirstOctet(p) == b0
  {
    var o := b0 as nat;
    OctetParts(o);
    OctetSum(o / 64, o / 8 % 8, o % 8);
    hide Octet;
    assert p.li as nat == o / 64 && p.mode as nat == o % 8 && p.vn as nat == o / 8 % 8;
  }

  lemma OctetParts(o: nat)
    requires o < 256
    ensures o / 64 < 4 && o / 64 * 64 + o / 8 % 8 * 8 + o % 8 == o
  {
    var q := o / 8;
    assert o == q * 8 + o % 8;
    assert q == q / 8 * 8 + q % 8 && q / 8 == o / 64;
  }

  /** The three parts of a header lie one behind the other. */
  lemma EncodedParts(p: Packet)
    requires p.Valid()
    ensures var b := Encode(p);
            b[..4] == EncodeHead(p) && b[4..16] == EncodeRoot(p) && b[16..48] == EncodeTimes(p)
  {
  }

  lemma EncodedRoot(p: Packet)
    requires p.Valid()
    ensures var b := Encode(p);
            b[4..8] == PutU32(FromInt32(p.rootDelay)) && b[8..12] == PutU32(p.rootDisp) && b[12..16] == p.refId
  {
    EncodedParts(p);
    var b, r := Encode(p), EncodeRoot(p);
    assert b[4..8] == b[4..16][..4] && b[8..12] == b[4..16][4..8] && b[12..16] == b[4..16][8..12];
    assert r[..4] == PutU32(FromInt32(p.rootDelay)) && r[4..8] == PutU32(p.rootDisp) && r[8..12] == p.refId;
  }

  lemma EncodedTimes(p: Packet)
    requires p.Valid()
    ensures var b := Encode(p);
            b[16..24] == PutTS(p.refTime) && b[24..32] == PutTS(p.orgTime) &&
            b[32..40] == PutTS(p.recTime) && b[40..48] == PutTS(p.xmtTime)
  {
    EncodedParts(p);
    var b, t := Encode(p), EncodeTimes(p);
    assert b[16..24] == b[16..48][..8] && b[24..32] == b[16..48][8..16];
    assert b[32..40] == b[16..48][16..24] && b[40..48] == b[16..48][24..32];
    assert t[..8] == PutTS(p.refTime) && t[8..16] == PutTS(p.orgTime);
    assert t[16..24] == PutTS(p.recTime) && t[24..32] == PutTS(p.xmtTime);
  }

  lemma ParsedRoot(b: seq<byte>)
    requires |b| >= PACKET_SIZE
    ensures EncodeRoot(Parse(b).value) == b[4..16]
  {
    U32RoundTrip(0, b[4..8]);
    U32RoundTrip(0, b[8..12]);
    assert b[4..16] == b[4..8] + b[8..12] + b[12..16];
  }

  lemma ParsedTimes(b: seq<byte>)
    requires |b| >= PACKET_SIZE
    ensures EncodeTimes(Parse(b).value) == b[16..48]
  {
    var zero := Timestamp(0, 0);
    TSRoundTrip(zero, b[16..24]);
    TSRoundTrip(zero, b[24..32]);
    TSRoundTrip(zero, b[32..40]);
    TSRoundTrip(zero, b[40..48]);
    assert b[16..48] == b[16..24] + b[24..32] + b[32..40] + b[40..48];
  }

  // ----- main results

  /** Parsing loses nothing of the header. */
  lemma EncodeParse(b: seq<byte>)
    requires |b| >= PACKET_SIZE
    ensures var p := Parse(b);
            p.Some? && p.value.Valid() && p.value.FitsOctet() && Encode(p.value) == b[..PACKET_SIZE]
  {
    var p := Parse(b).value;
    OctetIn(p, b[0]);
    ParsedRoot(b);
    ParsedTimes(b);
    assert EncodeHead(p) == b[..4];
    assert b[..PACKET_SIZE] == b[..4] + b[4..16] + b[16..48];
  }

  /** Encoding loses nothing exactly of the packets whose LI, VN and Mode fit
      their bits: an oversized one is mangled into another packet. */
  lemma ParseEncode(p: Packet)
    requires p.Valid()
    ensures Parse(Encode(p)).Some?
    ensures p.FitsOctet() <==> Parse(Encode(p)) == Some(p)
  {
    hide PutTS, GetTS, PutU32, GetU32, Encode, EncodeRoot, EncodeTimes, FirstOctet;
    var b := Encode(p);
    EncodedParts(p);
    EncodedRoot(p);
    EncodedTimes(p);
    EncodeParse(b);
    assert b[0] == b[..4][0] && b[1] == b[..4][1] && b[2] == b[..4][2] && b[3] == b[..4][3];
    if p.FitsOctet() {
      OctetOut(p);
    }
    var four: seq<byte> := [0, 0, 0, 0];
    U32RoundTrip(FromInt32(p.rootDelay), four);
    U32RoundTrip(p.rootDisp, four);
    TSRoundTrip(p.refTime, four + four);
    TSRoundTrip(p.orgTime, four + four);
    TSRoundTrip(p.recTime, four + four);
    TSRoundTrip(p.xmtTime, four + four);
  }

  /** The originate field of any reply built from a request's transmit time is
      the request's bytes 40 to 47. */
  lemma OriginateIsTransmit(b: seq<byte>, reply: Packet)
    requires |b| >= PACKET_SIZE && reply.Valid()
    requires reply.orgTime == Parse(b).value.xmtTime
    ensures Encode(reply)[24..32] == b[40..48]
  {
    EncodedTimes(reply);
    TSRoundTrip(reply.orgTime, b[40..48]);
  }
}
