/** internal/ntpserver/handle.go, octet by octet: where every field of a reply stands on
    the wire, what it says, which decision each packet draws, and what is logged. */
module OnTheWire {
  import opened Wrappers
  import opened NtpTime
  import opened Address
  import opened View
  import opened Codec
  import opened Mac
  import opened Snapshot
  import opened Responder
  import opened Preview
  import RateLimit
  import QueryLog

  // ----- the header of RFC 5905 section 7.3

  /** Four octets, the most significant first. */
  function Word(b: seq<byte>, i: nat): int
    requires i + 4 <= |b|
  {
    ((b[i] as int * 0x100 + b[i + 1] as int) * 0x100 + b[i + 2] as int) * 0x100 + b[i + 3] as int
  }

  /** A signed octet. */
  function Signed(b: byte): int { if b < 128 then b as int else b as int - 256 }

  /** An instant at an offset: seconds and fraction. */
  predicate Stamp(b: seq<byte>, i: nat, ts: Timestamp)
    requires i + 8 <= |b|
  {
    Word(b, i) == ts.seconds as int && Word(b, i + 4) == ts.fraction as int
  }

  lemma WordAt(b: seq<byte>, i: nat, x: uint32)
    requires i + 4 <= |b| && b[i..i + 4] == PutU32(x)
    ensures Word(b, i) == x as int
  {
    var p := PutU32(x);
    assert b[i] == b[i..i + 4][0] && b[i + 1] == b[i..i + 4][1] && b[i + 2] == b[i..i + 4][2] &&
           b[i + 3] == b[i..i + 4][3];
    hide PutU32;
  }

  lemma StampAt(b: seq<byte>, i: nat, ts: Timestamp)
    requires i + 8 <= |b| && b[i..i + 8] == PutTS(ts)
    ensures Stamp(b, i, ts)
  {
    var p := PutTS(ts);
    assert p[..4] == PutU32(ts.seconds) && p[4..8] == PutU32(ts.fraction);
    assert b[i..i + 4] == b[i..i + 8][..4] && b[i + 4..i + 8] == b[i..i + 8][4..8];
    hide PutU32, PutTS, Word;
    WordAt(b, i, ts.seconds);
    WordAt(b, i + 4, ts.fraction);
  }

  /** Each field of an encoded packet, by its offset. */
  ghost predicate LaidOut(b: seq<byte>, q: Packet)
    requires |b| >= PACKET_SIZE
  {
    && b[0] as int == q.li as int * 64 + q.vn as int * 8 + q.mode as int
    && b[1] == q.stratum && Signed(b[2]) == q.poll as int && Signed(b[3]) == q.precision as int
    && (Word(b, 4) - q.rootDelay as int == 0 || Word(b, 4) - q.rootDelay as int == 0x1_0000_0000)
    && Word(b, 8) == q.rootDisp as int && b[12..16] == q.refId
    && Stamp(b, 16, q.refTime) && Stamp(b, 24, q.orgTime) && Stamp(b, 32, q.recTime) && Stamp(b, 40, q.xmtTime)
  }

  lemma EncodeLaysOut(q: Packet)
    requires q.Valid() && q.FitsOctet()
    ensures LaidOut(Encode(q), q)
  {
    var b := Encode(q);
    EncodedParts(q);
    EncodedRoot(q);
    EncodedTimes(q);
    OctetSum(q.li as nat, q.vn as nat, q.mode as nat);
    assert b[0] == b[..4][0] && b[1] == b[..4][1] && b[2] == b[..4][2] && b[3] == b[..4][3];
    assert EncodeHead(q) == [FirstOctet(q), q.stratum, FromInt8(q.poll), FromInt8(q.precision)];
    hide Encode, EncodeRoot, EncodeTimes, PutU32, PutTS, Word, Stamp, Octet;
    WordAt(b, 4, FromInt32(q.rootDelay));
    WordAt(b, 8, q.rootDisp);
    StampAt(b, 16, q.refTime);
    StampAt(b, 24, q.orgTime);
    StampAt(b, 32, q.recTime);
    StampAt(b, 40, q.xmtTime);
  }

  // ----- what a reply says

  function LeapBits(l: Leap): int
  {
    match l case NoLeap => 0 case Insert => 1 case Delete => 2 case Unsync => 3 case OtherLeap(_) => 0
  }

  /** The datagram r answers the request pkt, received at recv, from the view at xmit. */
  ghost predicate SaysServed(o: Outside, v: View, pkt: seq<byte>, recv: Instant, xmit: Instant, r: seq<byte>)
  {
    |pkt| >= PACKET_SIZE && |r| >= PACKET_SIZE &&
    var wander := JitterDelta(v, recv.wall / 1_000_000_000, o.wander);
    var sent := Served(v, xmit) + wander;
    && r[0] as int == LeapBits(v.leap) * 64 + pkt[0] as int / 8 % 8 * 8 + 4
    && (r[1] as int - v.stratum) % 256 == 0
    && Signed(r[2]) == ClampPoll(v, Signed(pkt[2]))
    && (r[3] as int - v.precision) % 256 == 0
    && (Word(r, 4) - ShortFromDuration(v.rootDelay)) % 0x1_0000_0000 == 0
    && Word(r, 8) == UShortFromDuration(v.rootDispersion)
    && r[12..16] == o.refId(v.refId)
    && Stamp(r, 16, FromTime(if v.mode.Freeze? then v.freezeAt + wander
                             else if v.mode.Rate? then v.epochVirtual + wander
                             else sent + wander))
    && r[24..32] == pkt[40..48]
    && Stamp(r, 32, FromTime(Served(v, recv) + wander))
    && Stamp(r, 40, FromTime(sent))
  }

  /** A kiss: unsynchronized, stratum 0, the code RATE, and nothing but the request's
      transmit time for time. */
  ghost predicate SaysKiss(pkt: seq<byte>, r: seq<byte>)
  {
    && |pkt| >= PACKET_SIZE && |r| >= PACKET_SIZE
    && r[0] as int == 3 * 64 + pkt[0] as int / 8 % 8 * 8 + 4
    && (forall i :: 1 <= i < 12 || 16 <= i < 24 || 32 <= i < 48 ==> r[i] == 0)
    && r[12..16] == ['R' as byte, 'A' as byte, 'T' as byte, 'E' as byte]
    && r[24..32] == pkt[40..48]
  }

  lemma WordIsZero(b: seq<byte>)
    requires |b| == 4
    ensures GetU32(b) == 0 <==> b[0] == 0 && b[1] == 0 && b[2] == 0 && b[3] == 0
  {
    var x := GetU32(b) as int;
    assert x == b[0] as int * 0x100_0000 + b[1] as int * 0x1_0000 + b[2] as int * 0x100 + b[3] as int;
  }

  lemma StampIsZero(t: seq<byte>)
    requires |t| == 8
    ensures Zero(GetTS(t)) <==> forall i :: 0 <= i < 8 ==> t[i] == 0
  {
    hide GetU32;
    WordIsZero(t[0..4]);
    WordIsZero(t[4..8]);
    assert forall i :: 0 <= i < 4 ==> t[0..4][i] == t[i] && t[4..8][i] == t[i + 4];
  }

  lemma RequestSays(pkt: seq<byte>)
    requires |pkt| >= PACKET_SIZE
    ensures var p := Request(pkt);
            p.vn as int == pkt[0] as int / 8 % 8 && p.mode as int == pkt[0] as int % 8 &&
            p.poll as int == Signed(pkt[2]) && (Zero(p.xmtTime) <==> forall i :: 40 <= i < 48 ==> pkt[i] == 0) &&
            p.Valid()
  {
    hide GetU32;
    assert pkt[..PACKET_SIZE][40..48] == pkt[40..48];
    var t := pkt[40..48];
    StampIsZero(t);
    assert forall i :: 0 <= i < 8 ==> t[i] == pkt[i + 40];
    if forall i :: 0 <= i < 8 ==> t[i] == 0 {
      assert forall i :: 40 <= i < 48 ==> pkt[i] == t[i - 40];
    }
    hide GetTS;
  }

  /** The fields of a reply to p. */
  predicate FieldsServed(o: Outside, v: View, p: Packet, recv: Instant, xmit: Instant, q: Packet)
  {
    var wander := JitterDelta(v, recv.wall / 1_000_000_000, o.wander);
    var sent := Served(v, xmit) + wander;
    && q.li as int == LeapBits(v.leap) && q.vn == p.vn && q.mode as int == 4
    && (q.stratum as int - v.stratum) % 256 == 0
    && q.poll as int == ClampPoll(v, p.poll as int)
    && (q.precision as int - v.precision) % 256 == 0
    && q.rootDelay as int == ShortFromDuration(v.rootDelay)
    && q.rootDisp as int == UShortFromDuration(v.rootDispersion)
    && q.refId == o.refId(v.refId)
    && q.refTime == FromTime(if v.mode.Freeze? then v.freezeAt + wander
                             else if v.mode.Rate? then v.epochVirtual + wander
                             else sent + wander)
    && q.recTime == FromTime(Served(v, recv) + wander) && q.xmtTime == FromTime(sent)
  }

  lemma ReplyIs(o: Outside, v: View, p: Packet, recv: Instant, xmit: Instant)
    requires ValidOutside(o)
    ensures FieldsServed(o, v, p, recv, xmit, Reply(o, v, p, recv, xmit))
  {
    hide FromTime, Served, JitterDelta, ClampPoll, ShortFromDuration, UShortFromDuration;
  }

  /** Reading a prefix is reading the whole. */
  lemma Prefixed(r: seq<byte>, q: Packet)
    requires |r| >= PACKET_SIZE && LaidOut(r[..PACKET_SIZE], q)
    ensures LaidOut(r, q)
  {
    var b := r[..PACKET_SIZE];
    assert b[12..16] == r[12..16];
    assert forall i: nat :: i + 4 <= PACKET_SIZE ==> Word(b, i) == Word(r, i);
    hide Word;
  }

  lemma FieldsOnWire(o: Outside, v: View, pkt: seq<byte>, recv: Instant, xmit: Instant, p: Packet, q: Packet,
                     r: seq<byte>)
    requires |pkt| >= PACKET_SIZE && |r| >= PACKET_SIZE && LaidOut(r, q) && FieldsServed(o, v, p, recv, xmit, q)
    requires p.vn as int == pkt[0] as int / 8 % 8 && p.poll as int == Signed(pkt[2]) && r[24..32] == pkt[40..48]
    ensures SaysServed(o, v, pkt, recv, xmit, r)
  {
    hide FromTime, Served, JitterDelta, ClampPoll, ShortFromDuration, UShortFromDuration, Word, Stamp, LeapBits;
    SignedSame(r[3], q.precision as int, v.precision);
    assert Word(r, 4) == ShortFromDuration(v.rootDelay) || Word(r, 4) == ShortFromDuration(v.rootDelay) + 0x1_0000_0000;
  }

  lemma SignedSame(b: byte, x: int, y: int)
    requires Signed(b) == x && (x - y) % 256 == 0
    ensures (b as int - y) % 256 == 0
  {
  }

  lemma ReplySays(o: Outside, v: View, pkt: seq<byte>, recv: Instant, xmit: Instant, r: seq<byte>)
    requires ValidOutside(o) && |pkt| >= PACKET_SIZE && |r| >= PACKET_SIZE
    requires r[..PACKET_SIZE] == Encode(Reply(o, v, Request(pkt), recv, xmit))
    ensures SaysServed(o, v, pkt, recv, xmit, r)
  {
    hide *;
    var q := Reply(o, v, Request(pkt), recv, xmit);
    RequestSays(pkt);
    ReplyAnswers(o, v, Request(pkt), recv, xmit);
    AnswerFits(q, Request(pkt));
    HeaderEchoes(q, pkt);
    EncodeLaysOut(q);
    Prefixed(r, q);
    ReplyIs(o, v, Request(pkt), recv, xmit);
    SliceOf(r);
    FieldsOnWire(o, v, pkt, recv, xmit, Request(pkt), q, r);
  }

  lemma AnswerFits(q: Packet, p: Packet)
    requires Answers(q, p)
    ensures q.vn < 8 ==> q.FitsOctet()
  {
  }

  lemma SliceOf(r: seq<byte>)
    requires |r| >= PACKET_SIZE
    ensures |r| >= 48 && r[..PACKET_SIZE][24..32] == r[24..32]
  {
  }

  lemma KissSays(pkt: seq<byte>, r: seq<byte>)
    requires |pkt| >= PACKET_SIZE && |r| >= PACKET_SIZE
    requires KoD(Request(pkt), KISS_RATE).Valid() && r[..PACKET_SIZE] == Encode(KoD(Request(pkt), KISS_RATE))
    ensures SaysKiss(pkt, r)
  {
    var q := KoD(Request(pkt), KISS_RATE);
    assert q.li == 3 && q.vn == Request(pkt).vn && q.mode == 4 && q.stratum == 0 && q.poll == 0 && q.precision == 0 &&
           q.rootDelay == 0 && q.rootDisp == 0 && q.refId == [82, 65, 84, 69] && q.refTime == q.recTime == q.xmtTime ==
           Timestamp(0, 0);
    assert Answers(q, Request(pkt));
    RequestSays(pkt);
    hide *;
    AnswerFits(q, Request(pkt));
    HeaderEchoes(q, pkt);
    EncodeLaysOut(q);
    Prefixed(r, q);
    SliceOf(r);
    KissOnWire(pkt, r, q);
  }

  lemma WordZero(b: seq<byte>, i: nat)
    requires i + 4 <= |b| && Word(b, i) == 0
    ensures b[i] == 0 && b[i + 1] == 0 && b[i + 2] == 0 && b[i + 3] == 0
  {
  }

  lemma StampZero(b: seq<byte>, i: nat)
    requires i + 8 <= |b| && Stamp(b, i, Timestamp(0, 0))
    ensures forall j :: i <= j < i + 8 ==> b[j] == 0
  {
    hide Word;
    WordZero(b, i);
    WordZero(b, i + 4);
  }

  lemma KissOnWire(pkt: seq<byte>, r: seq<byte>, q: Packet)
    requires |pkt| >= PACKET_SIZE && |r| >= PACKET_SIZE && LaidOut(r, q) && r[24..32] == pkt[40..48]
    requires q.li == 3 && q.vn as int == pkt[0] as int / 8 % 8 && q.mode == 4
    requires q.stratum == 0 && q.poll == 0 && q.precision == 0 && q.rootDelay == 0 && q.rootDisp == 0
    requires q.refId == [82, 65, 84, 69] && q.refTime == q.recTime == q.xmtTime == Timestamp(0, 0)
    ensures SaysKiss(pkt, r)
  {
    assert 0 <= Word(r, 4) < 0x1_0000_0000;
    hide Word, Stamp;
    assert Word(r, 4) == 0;
    WordZero(r, 4);
    WordZero(r, 8);
    StampZero(r, 16);
    StampZero(r, 32);
    StampZero(r, 40);
  }

  // ----- what the handler sends, and what it logs

  lemma SignedHeader(o: Outside, key: Option<Key>, q: Packet)
    requires q.Valid()
    ensures var r := Sign(o, key, Encode(q)); |r| >= PACKET_SIZE && r[..PACKET_SIZE] == Encode(q)
  {
    hide Encode, PutU32;
    var head := Encode(q);
    if key.Some? {
      assert Sign(o, key, head)[..PACKET_SIZE] == head;
    }
  }

  /** The text a log entry gives the leap and the mode of a view. */
  predicate Texts(v: View, leap: string, mode: string)
  {
    && (v.leap.NoLeap? ==> leap == "none") && (v.leap.Insert? ==> leap == "insert")
    && (v.leap.Delete? ==> leap == "delete") && (v.leap.Unsync? ==> leap == "unsync")
    && (v.leap.OtherLeap? ==> leap == v.leap.name)
    && (v.mode.FollowReal? ==> mode == "follow-real") && (v.mode.Offset? ==> mode == "offset")
    && (v.mode.Absolute? ==> mode == "absolute") && (v.mode.Rate? ==> mode == "rate")
    && (v.mode.Freeze? ==> mode == "freeze") && (v.mode.OtherMode? ==> mode == v.mode.name)
  }

  lemma EntryIs(o: Outside, f: CompiledFilter, p: Packet, a: Arrival)
    ensures var e := ServedEntry(o, f, p, a);
            e == QueryLog.Entry(
                   o.ipText(a.peer.Unmap()), f.name,
                   Served(f.view, a.later) + JitterDelta(f.view, a.recv.wall / 1_000_000_000, o.wander),
                   e.leap, e.mode, p.vn as int, a.later.wall) &&
            Texts(f.view, e.leap, e.mode)
  {
    hide Served, JitterDelta;
  }

  /** A served packet is answered by one datagram that says what the matched view serves,
      field by field, and is logged under its client with what it was told. */
  lemma ServedSays(o: Outside, maxSize: nat, st: Traffic, loaded: Option<Snapshot>, a: Arrival, v: Victims)
    returns (f: CompiledFilter)
    requires ValidOutside(o) && st.limited.rate > 0.0 && Decided(o, maxSize, st, loaded, a, v, Serve)
    ensures |a.pkt| >= PACKET_SIZE && loaded.Some?
    ensures var m := Match(loaded.value.filters, a.peer.Unmap()); m.Some? && f == loaded.value.filters[m.value]
    ensures var st' := Handle(o, maxSize, st, loaded, a, v);
            |st'.sent| == |st.sent| + 1 && st'.sent[..|st.sent|] == st.sent &&
            SaysServed(o, f.view, a.pkt, a.recv, a.later, st'.sent[|st.sent|])
    ensures a.locked ==>
              exists leap, mode ::
                Texts(f.view, leap, mode) &&
                Handle(o, maxSize, st, loaded, a, v).log ==
                QueryLog.Inserted(
                  st.log,
                  QueryLog.Entry(
                    o.ipText(a.peer.Unmap()), f.name,
                    Served(f.view, a.later) + JitterDelta(f.view, a.recv.wall / 1_000_000_000, o.wander),
                    leap, mode, a.pkt[0] as int / 8 % 8, a.later.wall))
  {
    assert a.Ip() == a.peer.Unmap();
    hide *;
    var key: Option<Key>;
    f, key := HandleServes(o, maxSize, st, loaded, a, v);
    var q := Reply(o, f.view, Request(a.pkt), a.recv, a.later);
    RequestSays(a.pkt);
    ReplyAnswers(o, f.view, Request(a.pkt), a.recv, a.later);
    SignedHeader(o, key, q);
    ReplySays(o, f.view, a.pkt, a.recv, a.later, Sign(o, key, Encode(q)));
    EntryIs(o, f, Request(a.pkt), a);
  }

  /** The wander is added to the reference time twice where that follows the transmit
      time, in every mode but freeze and rate: such a reply claims to have been set
      after it was sent if and only if the wander is forwards. */
  lemma ReferenceAhead(o: Outside, v: View, p: Packet, recv: Instant, xmit: Instant)
    requires ValidOutside(o) && !v.mode.Freeze? && !v.mode.Rate?
    requires var wander := JitterDelta(v, recv.wall / 1_000_000_000, o.wander);
             InRange(Served(v, xmit) + wander) && InRange(Served(v, xmit) + wander + wander)
    ensures var wander := JitterDelta(v, recv.wall / 1_000_000_000, o.wander);
            var sent := Served(v, xmit) + wander;
            var q := Reply(o, v, p, recv, xmit);
            WireBefore(Era(sent), q.xmtTime, Era(sent + wander), q.refTime) <==> wander > 0
  {
    hide Reply, FromTime, Era, Served, JitterDelta, WireBefore, InRange;
    var wander := JitterDelta(v, recv.wall / 1_000_000_000, o.wander);
    var sent := Served(v, xmit) + wander;
    ReplyIs(o, v, p, recv, xmit);
    WireStrictlyIncreasing(sent, sent + wander);
  }

  // ----- which decision each packet draws

  function Outcome(j: Judgement): Decision
  {
    match j case Refuse(d) => d case Kiss => Kod case Answer(_) => Serve
  }

  /** The transmit field is empty. */
  predicate NoTransmit(pkt: seq<byte>)
    requires |pkt| >= 48
  {
    forall i :: 40 <= i < 48 ==> pkt[i] == 0
  }

  /** The decision and version label a packet of legal size draws, in the order of the
      checks; past them it is as judged. */
  ghost predicate Drawn(
    o: Outside, snap: Snapshot, st: Traffic, a: Arrival, v: Victims, d: Decision, vnLabel: string)
    requires |a.pkt| >= 48 && st.limited.rate > 0.0
  {
    var vn, mode := a.pkt[0] as int / 8 % 8, a.pkt[0] as int % 8;
    SyncedRates(st);
    && vnLabel == (if vn == 3 then "3" else if vn == 4 then "4" else "other")
    && (!VersionOk(snap, vn) ==> d == BadVersion)
    && (VersionOk(snap, vn) && mode != 3 ==> d == BadMode)
    && (VersionOk(snap, vn) && mode == 3 && NoTransmit(a.pkt) ==> d == ZeroXmit)
    && (VersionOk(snap, vn) && mode == 3 && !NoTransmit(a.pkt) ==>
          d == Outcome(Judge(o, snap, Sync(st, snap), a, v).1))
  }

  lemma ScreenedAs(o: Outside, snap: Snapshot, st: Traffic, a: Arrival, v: Victims)
    requires ValidOutside(o) && |a.pkt| >= PACKET_SIZE && st.limited.rate > 0.0 && !Screen(o, snap, a.pkt).Silent?
    ensures var sc := Screen(o, snap, a.pkt);
            (sc.Reject? ==> Drawn(o, snap, st, a, v, sc.d, sc.vn)) &&
            (sc.Pass? ==> sc.p == Request(a.pkt) && sc.p.Valid() &&
                          (SyncedRates(st);
                           Drawn(o, snap, st, a, v, Outcome(Judge(o, snap, Sync(st, snap), a, v).1), VnLabel(sc.p.vn))))
  {
    RequestSays(a.pkt);
    SyncedRates(st);
    hide Authentic, NamedKey, KeysOn, VersionOk, Zero, Judge, Sync, Parse;
  }

  /** Every packet that is heard draws exactly the decision its size, version, mode,
      transmit field and judgement call for, counted under its version. */
  lemma DecisionDrawn(o: Outside, maxSize: nat, st: Traffic, loaded: Option<Snapshot>, a: Arrival, v: Victims)
    returns (d: Decision, vnLabel: string)
    requires ValidOutside(o) && st.limited.rate > 0.0 && !Unheard(o, maxSize, loaded, a.pkt)
    ensures Handle(o, maxSize, st, loaded, a, v).decisions == st.decisions + [(d, vnLabel)]
    ensures |a.pkt| > maxSize ==> d == TooLong && vnLabel == "other"
    ensures |a.pkt| <= maxSize && |a.pkt| < 48 ==> d == TooShort && vnLabel == "other"
    ensures 48 <= |a.pkt| <= maxSize ==> loaded.Some? && Drawn(o, loaded.value, st, a, v, d, vnLabel)
  {
    SyncedRates(st);
    if |a.pkt| > maxSize {
      d, vnLabel := TooLong, "other";
    } else if |a.pkt| < 48 {
      d, vnLabel := TooShort, "other";
    } else {
      var snap := loaded.value;
      ScreenedSilent(o, snap, a.pkt);
      ScreenedAs(o, snap, st, a, v);
      var sc := Screen(o, snap, a.pkt);
      if sc.Reject? {
        d, vnLabel := sc.d, sc.vn;
      } else {
        var (st2, j) := Judge(o, snap, Sync(st, snap), a, v);
        d, vnLabel := Outcome(j), VnLabel(sc.p.vn);
        JudgeKeeps(o, snap, Sync(st, snap), a, v);
        FinishLabels(o, snap, st2, j, sc.p, sc.key, a);
      }
    }
    hide Screen, Judge, Finish, RateLimit.WithRate, Drawn, SignedBy, KeysOn, VnLabel, Request, ValidOutside;
  }

  /** A kiss is one datagram that says so and nothing else, logged without a client. */
  lemma KissedSays(o: Outside, maxSize: nat, st: Traffic, loaded: Option<Snapshot>, a: Arrival, v: Victims)
    requires ValidOutside(o) && st.limited.rate > 0.0 && Decided(o, maxSize, st, loaded, a, v, Kod)
    ensures |a.pkt| >= PACKET_SIZE && loaded.Some?
    ensures var st' := Handle(o, maxSize, st, loaded, a, v);
            |st'.sent| == |st.sent| + 1 && st'.sent[..|st.sent|] == st.sent && SaysKiss(a.pkt, st'.sent[|st.sent|]) &&
            (a.locked ==>
               st'.log == QueryLog.Inserted(
                            st.log, QueryLog.Entry("", "", 0, "unsync", "kod", a.pkt[0] as int / 8 % 8, a.later.wall)))
  {
    var key := HandleKisses(o, maxSize, st, loaded, a, v);
    var p := Request(a.pkt);
    assert KodEntry(p, a) == QueryLog.Entry("", "", 0, "unsync", "kod", p.vn as int, a.later.wall);
    hide *;
    RequestSays(a.pkt);
    SignedHeader(o, key, KoD(p, KISS_RATE));
    KissSays(a.pkt, Sign(o, key, Encode(KoD(p, KISS_RATE))));
  }

  lemma HandleKisses(o: Outside, maxSize: nat, st: Traffic, loaded: Option<Snapshot>, a: Arrival, v: Victims)
    returns (key: Option<Key>)
    requires ValidOutside(o) && st.limited.rate > 0.0 && Decided(o, maxSize, st, loaded, a, v, Kod)
    ensures |a.pkt| >= PACKET_SIZE && loaded.Some? && Request(a.pkt).Valid()
    ensures KoD(Request(a.pkt), KISS_RATE).Valid()
    ensures var st' := Handle(o, maxSize, st, loaded, a, v);
            st'.sent == st.sent + [Sign(o, key, Encode(KoD(Request(a.pkt), KISS_RATE)))] &&
            (a.locked ==> st'.log == QueryLog.Inserted(st.log, KodEntry(Request(a.pkt), a)))
  {
    var snap := loaded.value;
    var st1 := Sync(st, snap);
    var sc := Screen(o, snap, a.pkt);
    RequestFits(a.pkt);
    ScreenedSilent(o, snap, a.pkt);
    if sc.Pass? {
      ScreenedPass(o, snap, a.pkt);
    }
    var (st2, j) := Judge(o, snap, st1, a, v);
    JudgeKeeps(o, snap, st1, a, v);
    hide Screen, Judge, Finish, RateLimit.WithRate, RightKey, Sign, Request, Encode, KodEntry;
    FinishKisses(o, snap, st2, j, sc.p, sc.key, a);
    key := sc.key;
  }

  lemma FinishKisses(o: Outside, snap: Snapshot, st: Traffic, j: Judgement, p: Packet, key: Option<Key>, a: Arrival)
    requires ValidOutside(o) && p.Valid() && (j.Answer? ==> j.filter < |snap.filters|)
    requires j.Refuse? ==> !j.d.Replies()
    requires var st' := Finish(o, snap, st, j, p, key, a);
             |st'.decisions| == |st.decisions| + 1 && st'.decisions[|st.decisions|].0 == Kod
    ensures KoD(p, KISS_RATE).Valid()
    ensures var st' := Finish(o, snap, st, j, p, key, a);
            st'.sent == st.sent + [Sign(o, key, Encode(KoD(p, KISS_RATE)))] &&
            (a.locked ==> st'.log == QueryLog.Inserted(st.log, KodEntry(p, a)))
  {
    hide Encode, Sign, Reply, ServedEntry, KodEntry, QueryLog.Inserted, Parse, ValidOutside;
  }
}
