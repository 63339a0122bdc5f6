/** internal/ntpserver/handle.go: what becomes of one datagram. */
module Responder {
  import opened Wrappers
  import opened NtpTime
  import opened Address
  import opened View
  import opened Model
  import opened Codec
  import opened Mac
  import opened Snapshot
  import RateLimit
  import QueryLog

  /** What the handler takes from outside: the hashes, the wander fraction, the
      four reference-id octets of a name and the text form of an address. */
  datatype Outside = Outside(hash: Hash, wander: Wander, refId: string -> seq<byte>, ipText: Addr -> string)

  ghost predicate ValidOutside(o: Outside)
  {
    ValidHash(o.hash) && forall s :: |o.refId(s)| == 4
  }

  /** The decision label of the packet counter. */
  datatype Decision =
    | TooLong | TooShort | BadVersion | BadMode | ZeroXmit
    | NotAllowed | NotAdmitted | Ignored | Kod | Drop | Unmatched | Serve
  {
    predicate Replies() { Kod? || Serve? }
  }

  /** A datagram with its sender, the instant it was received, the readings of the
      limiters' clock, the one later reading of the server's clock, and how the
      query log's lock went. */
  datatype Arrival = Arrival(
    pkt: seq<byte>, peer: Addr, recv: Instant,
    globalNow: int, perIpNow: int, limitedNow: int, later: Instant, locked: bool, counted: bool)
  {
    function Ip(): Addr { peer.Unmap() }
  }

  /** The bucket each limiter evicts for capacity, if any. */
  datatype Victims = Victims(global: Option<string>, perIp: Option<string>, limited: Option<string>)

  datatype Traffic = Traffic(
    global: RateLimit.Limiter, perIp: RateLimit.Limiter, limited: RateLimit.Limiter,
    decisions: seq<(Decision, string)>, sent: seq<seq<byte>>, log: QueryLog.Log, dropped: nat)

  // ----- up to the parsed request

  function VnLabel(vn: byte): string { if vn == 3 then "3" else if vn == 4 then "4" else "other" }

  function Sync(st: Traffic, snap: Snapshot): Traffic
  {
    st.(global := RateLimit.WithRate(st.global, snap.maxPacketsPerSec as real, (snap.maxPacketsPerSec * 2) as real),
        perIp := RateLimit.WithRate(st.perIp, snap.maxPacketsPerIp as real, (snap.maxPacketsPerIp * 2) as real))
  }

  predicate KeysOn(snap: Snapshot) { snap.keys.Some? && snap.keys.value != map[] }

  /** The key whose digest the packet must carry, as its trailer names it. */
  function NamedKey(keys: KeyTable, pkt: seq<byte>): Option<Key>
  {
    var s := SplitMAC(pkt);
    if s.ok && |s.digest| > 0 && s.keyId in keys then Some(keys[s.keyId]) else None
  }

  datatype Screened = Silent | Reject(d: Decision, vn: string) | Pass(p: Packet, key: Option<Key>)

  function ScreenHeader(snap: Snapshot, p: Packet, key: Option<Key>): Screened
  {
    if !VersionOk(snap, p.vn as int) then Reject(BadVersion, VnLabel(p.vn))
    else if p.mode != MODE_CLIENT then Reject(BadMode, VnLabel(p.vn))
    else if Zero(p.xmtTime) then Reject(ZeroXmit, VnLabel(p.vn))
    else Pass(p, key)
  }

  ghost function Screen(o: Outside, snap: Snapshot, pkt: seq<byte>): Screened
    requires |pkt| >= PACKET_SIZE
  {
    var p := Parse(pkt[..PACKET_SIZE]).value;
    if !KeysOn(snap) then ScreenHeader(snap, p, None)
    else
      var k := NamedKey(snap.keys.value, pkt);
      if k.Some? && Authentic(o.hash, k.value.alg, k.value.secret, pkt) then ScreenHeader(snap, p, k) else Silent
  }

  // ----- admission, restriction and matching

  datatype Judgement = Refuse(d: Decision) | Kiss | Answer(filter: nat)

  function Judge(o: Outside, snap: Snapshot, st: Traffic, a: Arrival, v: Victims): (r: (Traffic, Judgement))
    requires st.global.rate > 0.0 && st.perIp.rate > 0.0 && st.limited.rate > 0.0
    ensures r.1.Answer? ==> r.1.filter < |snap.filters|
  {
    var ip := a.Ip();
    if !Allowed(snap, ip) then (st, Refuse(NotAllowed))
    else
      var (global, okGlobal) := RateLimit.Allowed(st.global, "global", a.globalNow, v.global);
      var st1 := st.(global := global);
      if !okGlobal then (st1, Refuse(NotAdmitted))
      else
        var (perIp, okIp) := RateLimit.Allowed(st.perIp, o.ipText(ip), a.perIpNow, v.perIp);
        var st2 := st1.(perIp := perIp);
        if !okIp then (st2, Refuse(NotAdmitted))
        else if snap.restrictDefault == "ignore" then (st2, Refuse(Ignored))
        else if snap.restrictDefault == "limited" then
          var (limited, ok) := RateLimit.Allowed(st.limited, o.ipText(ip), a.limitedNow, v.limited);
          var st3 := st2.(limited := limited);
          if ok then (st3, Routed(snap, ip)) else (st3, if snap.kod then Kiss else Refuse(Drop))
        else (st2, Routed(snap, ip))
  }

  function Routed(snap: Snapshot, ip: Addr): (j: Judgement)
    ensures j.Answer? ==> j.filter < |snap.filters|
  {
    var m := Match(snap.filters, ip);
    if m.None? then Refuse(Unmatched) else Answer(m.value)
  }

  // ----- the reply

  function LeapLI(l: Leap): byte
  {
    match l case Insert => 1 case Delete => 2 case Unsync => 3 case _ => 0
  }

  /** Go's conversion of an int to int8 keeps the low eight bits. */
  function LowInt8(x: int): int8 { ((x + 128) % 256 - 128) as int8 }

  function Jitter(o: Outside, v: View, recv: Instant): int { JitterDelta(v, Unix(recv.wall), o.wander) }

  function Reply(o: Outside, v: View, p: Packet, recv: Instant, xmit: Instant): (r: Packet)
  {
    var jit := Jitter(o, v, recv);
    var sent := Served(v, xmit) + jit;
    ShortFormats(v.rootDelay);
    ShortFormats(v.rootDispersion);
    Packet(
      LeapLI(v.leap), p.vn, MODE_SERVER, (v.stratum % 256) as byte,
      ClampPoll(v, p.poll as int) as int8, LowInt8(v.precision),
      ShortFromDuration(v.rootDelay) as int32, UShortFromDuration(v.rootDispersion) as uint32, o.refId(v.refId),
      FromTime(RefTime(v, sent) + jit), p.xmtTime, FromTime(Served(v, recv) + jit), FromTime(sent))
  }

  /** With keys on, a reply carries the digest under the request's key. */
  function Sign(o: Outside, key: Option<Key>, out: seq<byte>): seq<byte>
  {
    if key.None? then out
    else AppendMAC(out, key.value.id, o.hash(key.value.alg, key.value.secret + out))
  }

  function ServedEntry(o: Outside, f: CompiledFilter, p: Packet, a: Arrival): QueryLog.Entry
  {
    QueryLog.Entry(
      o.ipText(a.Ip()), f.name, Served(f.view, a.later) + Jitter(o, f.view, a.recv),
      LeapText(f.view.leap), ModeText(f.view.mode), p.vn as int, a.later.wall)
  }

  function KodEntry(p: Packet, a: Arrival): QueryLog.Entry
  {
    QueryLog.Entry("", "", 0, "unsync", "kod", p.vn as int, a.later.wall)
  }

  // ----- the whole handler

  function Decide(st: Traffic, d: Decision, vn: string): Traffic { st.(decisions := st.decisions + [(d, vn)]) }

  function Logged(st: Traffic, e: QueryLog.Entry, a: Arrival): Traffic
  {
    st.(log := if a.locked then QueryLog.Inserted(st.log, e) else st.log,
        dropped := st.dropped + if !a.locked && a.counted then 1 else 0)
  }

  function Finish(
    o: Outside, snap: Snapshot, st: Traffic, j: Judgement, p: Packet, key: Option<Key>, a: Arrival): Traffic
    requires ValidOutside(o) && p.Valid() && (j.Answer? ==> j.filter < |snap.filters|)
  {
    match j
    case Refuse(d) => Decide(st, d, VnLabel(p.vn))
    case Kiss =>
      var out := Sign(o, key, Encode(KoD(p, KISS_RATE)));
      Logged(Decide(st, Kod, VnLabel(p.vn)).(sent := st.sent + [out]), KodEntry(p, a), a)
    case Answer(i) =>
      var out := Sign(o, key, Encode(Reply(o, snap.filters[i].view, p, a.recv, a.later)));
      Logged(Decide(st, Serve, VnLabel(p.vn)).(sent := st.sent + [out]), ServedEntry(o, snap.filters[i], p, a), a)
  }

  ghost function Handle(
    o: Outside, maxSize: nat, st: Traffic, loaded: Option<Snapshot>, a: Arrival, v: Victims): Traffic
    requires ValidOutside(o) && st.limited.rate > 0.0
  {
    if |a.pkt| > maxSize then Decide(st, TooLong, "other")
    else if |a.pkt| < PACKET_SIZE then Decide(st, TooShort, "other")
    else if loaded.None? then st
    else
      var snap := loaded.value;
      var st1 := Sync(st, snap);
      match Screen(o, snap, a.pkt)
      case Silent => st1
      case Reject(d, vn) => Decide(st1, d, vn)
      case Pass(p, key) =>
        var (st2, j) := Judge(o, snap, st1, a, v);
        Finish(o, snap, st2, j, p, key, a)
  }

  // ----- which packets are heard

  /** The packet is a header followed by the id of a configured key and the digest
      under that key. */
  ghost predicate SignedBy(o: Outside, keys: KeyTable, pkt: seq<byte>, id: uint32)
  {
    id in keys && |pkt| >= PACKET_SIZE &&
    pkt == AppendMAC(pkt[..PACKET_SIZE], id, o.hash(keys[id].alg, keys[id].secret + pkt[..PACKET_SIZE]))
  }

  lemma NamedKeySigned(o: Outside, keys: KeyTable, pkt: seq<byte>)
    requires ValidOutside(o)
    ensures var k := NamedKey(keys, pkt);
            k.Some? && Authentic(o.hash, k.value.alg, k.value.secret, pkt) <==> exists id :: SignedBy(o, keys, pkt, id)
    ensures var k := NamedKey(keys, pkt);
            k.Some? && Authentic(o.hash, k.value.alg, k.value.secret, pkt) ==>
              SignedBy(o, keys, pkt, SplitMAC(pkt).keyId) && k.value == keys[SplitMAC(pkt).keyId]
  {
    var k, s := NamedKey(keys, pkt), SplitMAC(pkt);
    if k.Some? && Authentic(o.hash, k.value.alg, k.value.secret, pkt) {
      AuthenticShape(o.hash, k.value.alg, k.value.secret, pkt);
      AppendSplit(pkt);
      assert SignedBy(o, keys, pkt, s.keyId);
    }
    if id :| SignedBy(o, keys, pkt, id) {
      var header := pkt[..PACKET_SIZE];
      var digest := o.hash(keys[id].alg, keys[id].secret + header);
      assert |digest| == DigestLen(keys[id].alg);
      SplitAppend(header, id, digest);
      assert SplitMAC(pkt) == Split(header, id, digest, true);
      assert Authentic(o.hash, keys[id].alg, keys[id].secret, pkt);
    }
  }

  /** Nothing is recorded about a packet exactly when it has a legal size but no
      snapshot is loaded, or keys are on and no configured key signed it. */
  ghost predicate Unheard(o: Outside, maxSize: nat, loaded: Option<Snapshot>, pkt: seq<byte>)
  {
    PACKET_SIZE <= |pkt| <= maxSize &&
    (loaded.None? || (KeysOn(loaded.value) && !exists id :: SignedBy(o, loaded.value.keys.value, pkt, id)))
  }

  lemma ScreenedSilent(o: Outside, snap: Snapshot, pkt: seq<byte>)
    requires ValidOutside(o) && |pkt| >= PACKET_SIZE
    ensures Screen(o, snap, pkt).Silent? <==> KeysOn(snap) && !exists id :: SignedBy(o, snap.keys.value, pkt, id)
    ensures Screen(o, snap, pkt).Reject? ==> !Screen(o, snap, pkt).d.Replies()
  {
    if KeysOn(snap) {
      NamedKeySigned(o, snap.keys.value, pkt);
    }
    hide NamedKey, Authentic, SignedBy, Parse, VersionOk, Zero;
  }

  lemma JudgeKeeps(o: Outside, snap: Snapshot, st: Traffic, a: Arrival, v: Victims)
    requires st.global.rate > 0.0 && st.perIp.rate > 0.0 && st.limited.rate > 0.0
    ensures var (st', j) := Judge(o, snap, st, a, v);
            st'.(global := st.global, perIp := st.perIp, limited := st.limited) == st && (j.Refuse? ==> !j.d.Replies())
  {
  }

  lemma FinishDecides(o: Outside, snap: Snapshot, st: Traffic, j: Judgement, p: Packet, key: Option<Key>, a: Arrival)
    requires ValidOutside(o) && p.Valid() && (j.Answer? ==> j.filter < |snap.filters|) && (j.Refuse? ==> !j.d.Replies())
    ensures var st' := Finish(o, snap, st, j, p, key, a);
            |st'.decisions| == |st.decisions| + 1 && st.decisions <= st'.decisions && st.sent <= st'.sent &&
            |st'.sent| == |st.sent| + (if st'.decisions[|st.decisions|].0.Replies() then 1 else 0)
  {
  }

  /** Every packet that is heard yields exactly one decision, and a reply exactly
      if that decision is to serve or to send a kiss; one that is not heard yields
      neither. */
  lemma OneDecision(o: Outside, maxSize: nat, st: Traffic, loaded: Option<Snapshot>, a: Arrival, v: Victims)
    requires ValidOutside(o) && st.limited.rate > 0.0
    ensures var st' := Handle(o, maxSize, st, loaded, a, v);
            st.decisions <= st'.decisions && st.sent <= st'.sent &&
            if Unheard(o, maxSize, loaded, a.pkt) then st'.decisions == st.decisions && st'.sent == st.sent
            else |st'.decisions| == |st.decisions| + 1 &&
                 |st'.sent| == |st.sent| + if st'.decisions[|st.decisions|].0.Replies() then 1 else 0
  {
    if PACKET_SIZE <= |a.pkt| <= maxSize && loaded.Some? {
      var snap := loaded.value;
      var st1 := Sync(st, snap);
      ScreenedSilent(o, snap, a.pkt);
      var sc := Screen(o, snap, a.pkt);
      if sc.Pass? {
        RequestFits(a.pkt);
        ScreenedPass(o, snap, a.pkt);
        hide Screen, Judge, Finish, KeysOn, SignedBy, ValidOutside, Request, RightKey;
        var (st2, j) := Judge(o, snap, st1, a, v);
        JudgeKeeps(o, snap, st1, a, v);
        FinishDecides(o, snap, st2, j, sc.p, sc.key, a);
      }
    }
    hide Screen, Judge, Finish, RateLimit.WithRate, KeysOn, SignedBy, ValidOutside;
  }

  // ----- what a reply is

  /** A key file stores every key under its own id. */
  ghost predicate ValidKeys(snap: Snapshot)
  {
    snap.keys.Some? ==> forall id :: id in snap.keys.value ==> snap.keys.value[id].id == id
  }

  /** The request as it is read from the first 48 bytes. */
  function Request(pkt: seq<byte>): Packet
    requires |pkt| >= PACKET_SIZE
  {
    Parse(pkt[..PACKET_SIZE]).value
  }

  lemma RequestFits(pkt: seq<byte>)
    requires |pkt| >= PACKET_SIZE
    ensures Request(pkt).Valid() && Request(pkt).FitsOctet() && Encode(Request(pkt)) == pkt[..PACKET_SIZE]
  {
    EncodeParse(pkt[..PACKET_SIZE]);
    assert pkt[..PACKET_SIZE][..PACKET_SIZE] == pkt[..PACKET_SIZE];
  }

  /** A server's answer to p. */
  predicate Answers(q: Packet, p: Packet)
  {
    q.mode == MODE_SERVER && q.vn == p.vn && q.orgTime == p.xmtTime && q.li < 4
  }

  ghost predicate RightKey(o: Outside, snap: Snapshot, pkt: seq<byte>, key: Option<Key>)
  {
    if KeysOn(snap) then
      key.Some? && exists id :: SignedBy(o, snap.keys.value, pkt, id) && key.value == snap.keys.value[id]
    else key.None?
  }

  lemma ScreenedPass(o: Outside, snap: Snapshot, pkt: seq<byte>)
    requires ValidOutside(o) && |pkt| >= PACKET_SIZE && Screen(o, snap, pkt).Pass?
    ensures var sc := Screen(o, snap, pkt);
            sc.p == Request(pkt) && RightKey(o, snap, pkt, sc.key) &&
            sc.p.mode == MODE_CLIENT && VersionOk(snap, sc.p.vn as int) && !Zero(sc.p.xmtTime)
  {
    if KeysOn(snap) {
      NamedKeySigned(o, snap.keys.value, pkt);
    }
    hide Authentic, SignedBy, Parse, VersionOk, Zero;
  }

  lemma ReplyAnswers(o: Outside, v: View, p: Packet, recv: Instant, xmit: Instant)
    requires ValidOutside(o)
    ensures Reply(o, v, p, recv, xmit).Valid() && Answers(Reply(o, v, p, recv, xmit), p)
    ensures KoD(p, KISS_RATE).Valid() && Answers(KoD(p, KISS_RATE), p)
  {
  }

  lemma FinishSends(o: Outside, snap: Snapshot, st: Traffic, j: Judgement, p: Packet, key: Option<Key>, a: Arrival)
    returns (q: Packet)
    requires ValidOutside(o) && p.Valid() && (j.Answer? ==> j.filter < |snap.filters|)
    requires |Finish(o, snap, st, j, p, key, a).sent| > |st.sent|
    ensures q.Valid() && Answers(q, p) && Finish(o, snap, st, j, p, key, a).sent == st.sent + [Sign(o, key, Encode(q))]
  {
    q := KoD(p, KISS_RATE);
    if j.Answer? {
      q := Reply(o, snap.filters[j.filter].view, p, a.recv, a.later);
      ReplyAnswers(o, snap.filters[j.filter].view, p, a.recv, a.later);
    }
    hide Encode, Sign, Reply, ServedEntry, QueryLog.Inserted, Parse, ValidOutside;
  }

  lemma WhatIsSent(o: Outside, maxSize: nat, st: Traffic, loaded: Option<Snapshot>, a: Arrival, v: Victims)
    returns (q: Packet, key: Option<Key>)
    requires ValidOutside(o) && st.limited.rate > 0.0
    requires |Handle(o, maxSize, st, loaded, a, v).sent| > |st.sent|
    ensures |a.pkt| >= PACKET_SIZE && loaded.Some? && RightKey(o, loaded.value, a.pkt, key)
    ensures q.Valid() && Answers(q, Request(a.pkt)) && Request(a.pkt).mode == MODE_CLIENT
    ensures Handle(o, maxSize, st, loaded, a, v).sent == st.sent + [Sign(o, key, Encode(q))]
  {
    var snap := loaded.value;
    var st1 := Sync(st, snap);
    var sc := Screen(o, snap, a.pkt);
    ScreenedPass(o, snap, a.pkt);
    var (st2, j) := Judge(o, snap, st1, a, v);
    JudgeKeeps(o, snap, st1, a, v);
    q := FinishSends(o, snap, st2, j, sc.p, sc.key, a);
    key := sc.key;
    hide Screen, Judge, Finish, RateLimit.WithRate, RightKey, Sign, Answers, Request;
  }

  /** A signed reply is its header and the digest under the request's key. */
  lemma SignBytes(o: Outside, snap: Snapshot, pkt: seq<byte>, key: Option<Key>, head: seq<byte>)
    requires ValidOutside(o) && ValidKeys(snap) && RightKey(o, snap, pkt, key) && |pkt| >= PACKET_SIZE == |head|
    ensures var r := Sign(o, key, head);
            r[..PACKET_SIZE] == head && (if KeysOn(snap) then |r| == |pkt| else r == head)
    ensures KeysOn(snap) ==>
            exists id :: SignedBy(o, snap.keys.value, pkt, id) && SignedBy(o, snap.keys.value, Sign(o, key, head), id)
  {
  }

  /** r answers pkt and gives nobody more bytes than they sent. */
  ghost predicate Mirrors(o: Outside, snap: Snapshot, pkt: seq<byte>, r: seq<byte>)
  {
    PACKET_SIZE <= |r| <= |pkt| && r[24..32] == pkt[40..48] &&
    Request(r).mode == MODE_SERVER && Request(r).vn == Request(pkt).vn &&
    (KeysOn(snap) ==>
       |r| == |pkt| && exists id :: SignedBy(o, snap.keys.value, pkt, id) && SignedBy(o, snap.keys.value, r, id))
  }

  lemma HeaderEchoes(q: Packet, pkt: seq<byte>)
    requires |pkt| >= PACKET_SIZE && q.Valid() && Answers(q, Request(pkt))
    ensures Parse(Encode(q)) == Some(q) && Encode(q)[24..32] == pkt[40..48]
  {
    RequestFits(pkt);
    ParseEncode(q);
    OriginateIsTransmit(pkt[..PACKET_SIZE], q);
    assert pkt[..PACKET_SIZE][40..48] == pkt[40..48];
    hide Encode, Parse;
  }

  lemma SignMirrors(o: Outside, snap: Snapshot, pkt: seq<byte>, key: Option<Key>, q: Packet)
    requires ValidOutside(o) && ValidKeys(snap) && |pkt| >= PACKET_SIZE && RightKey(o, snap, pkt, key)
    requires q.Valid() && Answers(q, Request(pkt))
    ensures Mirrors(o, snap, pkt, Sign(o, key, Encode(q)))
  {
    var head := Encode(q);
    var r := Sign(o, key, head);
    SignBytes(o, snap, pkt, key, head);
    HeaderEchoes(q, pkt);
    assert r[24..32] == r[..PACKET_SIZE][24..32];
    hide Encode, Parse, Sign, RightKey, SignedBy, ValidOutside, ValidKeys, KeysOn;
  }

  /** Whatever is sent is no longer than the packet it answers, echoes that
      packet's transmit field as its originate field and its version, is in server
      mode, and with keys on is signed by the key that signed the request. */
  lemma ReplyMirrorsRequest(o: Outside, maxSize: nat, st: Traffic, loaded: Option<Snapshot>, a: Arrival, v: Victims)
    requires ValidOutside(o) && st.limited.rate > 0.0 && (loaded.Some? ==> ValidKeys(loaded.value))
    requires |Handle(o, maxSize, st, loaded, a, v).sent| > |st.sent|
    ensures |a.pkt| >= PACKET_SIZE && loaded.Some?
    ensures Mirrors(o, loaded.value, a.pkt, Handle(o, maxSize, st, loaded, a, v).sent[|st.sent|])
  {
    var q, key := WhatIsSent(o, maxSize, st, loaded, a, v);
    hide *;
    SignMirrors(o, loaded.value, a.pkt, key, q);
  }

  /** No reply draws a reply: sent back, to this server or to one with any other
      snapshot, it is never answered. */
  lemma NoReplyToReply(
    o: Outside, maxSize: nat, st: Traffic, loaded: Option<Snapshot>, a: Arrival, v: Victims,
    maxSize2: nat, st2: Traffic, loaded2: Option<Snapshot>, b: Arrival, w: Victims)
    requires ValidOutside(o) && st.limited.rate > 0.0 && st2.limited.rate > 0.0
    requires loaded.Some? ==> ValidKeys(loaded.value)
    requires |Handle(o, maxSize, st, loaded, a, v).sent| > |st.sent|
    requires b.pkt == Handle(o, maxSize, st, loaded, a, v).sent[|st.sent|]
    ensures Handle(o, maxSize2, st2, loaded2, b, w).sent == st2.sent
  {
    ReplyMirrorsRequest(o, maxSize, st, loaded, a, v);
    OneDecision(o, maxSize2, st2, loaded2, b, w);
    if |Handle(o, maxSize2, st2, loaded2, b, w).sent| > |st2.sent| {
      var q, key := WhatIsSent(o, maxSize2, st2, loaded2, b, w);
    }
    hide Handle, Unheard;
  }
}
