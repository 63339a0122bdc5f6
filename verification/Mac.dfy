/** internal/ntpwire/mac.go: the ntpd concatenation MAC. */
module Mac {
  import opened Wrappers
  import opened NtpTime
  import opened Codec

  datatype Algorithm = MD5 | SHA1 | SHA256

  function DigestLen(alg: Algorithm): (n: nat)
    ensures n == 16 || n == 20 || n == 32
  {
    match alg case MD5 => 16 case SHA1 => 20 case SHA256 => 32
  }

  /** The hash functions themselves, each with its standard output length. */
  type Hash = (Algorithm, seq<byte>) -> seq<byte>

  ghost predicate ValidHash(h: Hash)
  {
    forall alg, text :: |h(alg, text)| == DigestLen(alg)
  }

  /** ALG(key || header[0:48]), not HMAC (ADR 0012). */
  function MAC(h: Hash, alg: Algorithm, key: seq<byte>, header: seq<byte>): Option<seq<byte>>
  {
    if |header| < PACKET_SIZE then None else Some(h(alg, key + header[..PACKET_SIZE]))
  }

  function AppendMAC(pkt: seq<byte>, keyId: uint32, digest: seq<byte>): seq<byte>
  {
    pkt + PutU32(keyId) + digest
  }

  /** A packet split into header and trailer; ok is false when the trailer is
      not four bytes and a digest of a known length. */
  datatype Split = Split(header: seq<byte>, keyId: uint32, digest: seq<byte>, ok: bool)

  function SplitMAC(pkt: seq<byte>): Split
  {
    if |pkt| < PACKET_SIZE then Split([], 0, [], false)
    else if |pkt| == PACKET_SIZE then Split(pkt, 0, [], true)
    else
      var header, rest := pkt[..PACKET_SIZE], pkt[PACKET_SIZE..];
      if |rest| < 4 then Split(header, 0, [], false)
      else
        var n := |rest| - 4;
        if n != 16 && n != 20 && n != 32 then Split(header, 0, [], false)
        else Split(header, GetU32(rest[..4]), rest[4..], true)
  }

  predicate DigestSized(n: int) { n == 16 || n == 20 || n == 32 }

  /** SplitMAC undoes AppendMAC on a bare header exactly for the three digest
      lengths; AppendMAC puts back whatever SplitMAC took apart. */
  lemma SplitAppend(header: seq<byte>, keyId: uint32, digest: seq<byte>)
    requires |header| == PACKET_SIZE
    ensures DigestSized(|digest|) <==>
            SplitMAC(AppendMAC(header, keyId, digest)) == Split(header, keyId, digest, true)
  {
    var pkt := AppendMAC(header, keyId, digest);
    assert pkt[..PACKET_SIZE] == header;
    assert pkt[PACKET_SIZE..] == PutU32(keyId) + digest;
    assert (PutU32(keyId) + digest)[..4] == PutU32(keyId);
    assert (PutU32(keyId) + digest)[4..] == digest;
    U32RoundTrip(keyId, PutU32(keyId));
  }

  lemma AppendSplit(pkt: seq<byte>)
    requires SplitMAC(pkt).ok && |pkt| > PACKET_SIZE
    ensures var s := SplitMAC(pkt); DigestSized(|s.digest|) && AppendMAC(s.header, s.keyId, s.digest) == pkt
  {
    var rest := pkt[PACKET_SIZE..];
    U32RoundTrip(0, rest[..4]);
    assert rest == rest[..4] + rest[4..];
    assert pkt == pkt[..PACKET_SIZE] + rest;
  }

  ghost predicate Authentic(h: Hash, alg: Algorithm, key: seq<byte>, pkt: seq<byte>)
  {
    |pkt| >= PACKET_SIZE &&
    exists keyId: uint32 :: pkt == AppendMAC(pkt[..PACKET_SIZE], keyId, h(alg, key + pkt[..PACKET_SIZE]))
  }

  /** Accumulating the XOR of every byte pair accepts exactly the packets made
      of a header, some key id and the digest of key and header. */
  method VerifyMAC(h: Hash, alg: Algorithm, key: seq<byte>, pkt: seq<byte>) returns (ok: bool)
    requires ValidHash(h)
    ensures ok <==> Authentic(h, alg, key, pkt)
    ensures ok ==> |pkt| == 52 + if alg.MD5? then 16 else if alg.SHA1? then 20 else 32
  {
    AuthenticShape(h, alg, key, pkt);
    var s := SplitMAC(pkt);
    if !s.ok || |s.digest| == 0 {
      return false;
    }
    var mac := MAC(h, alg, key, s.header);
    assert s.header[..PACKET_SIZE] == s.header;
    if mac.None? || |mac.value| != |s.digest| {
      return false;
    }
    var want := mac.value;
    var diff: nat := 0;
    for i := 0 to |want|
      invariant diff == 0 <==> want[..i] == s.digest[..i]
    {
      XorIsZero(want[i] as nat, s.digest[i] as nat);
      OrIsZero(diff, Xor(want[i] as nat, s.digest[i] as nat));
      diff := Or(diff, Xor(want[i] as nat, s.digest[i] as nat));
      assert want[..i + 1] == want[..i] + [want[i]];
      assert s.digest[..i + 1] == s.digest[..i] + [s.digest[i]];
    }
    assert want[..|want|] == want && s.digest[..|want|] == s.digest;
    ok := diff == 0;
  }

  /** An authentic packet splits into the parts it was made of. */
  lemma AuthenticShape(h: Hash, alg: Algorithm, key: seq<byte>, pkt: seq<byte>)
    requires ValidHash(h)
    ensures Authentic(h, alg, key, pkt) <==>
            var s := SplitMAC(pkt);
            s.ok && |s.digest| > 0 && s.digest == h(alg, key + s.header)
  {
    if Authentic(h, alg, key, pkt) {
      var header := pkt[..PACKET_SIZE];
      var keyId :| pkt == AppendMAC(header, keyId, h(alg, key + header));
      SplitAppend(header, keyId, h(alg, key + header));
    }
    var s := SplitMAC(pkt);
    if s.ok && |s.digest| > 0 && s.digest == h(alg, key + s.header) {
      AppendSplit(pkt);
    }
  }
}
