/** internal/app/preview.go against internal/ntpserver/handle.go: the dry run and
    the real answer. */
module Preview {
  import opened Wrappers
  import opened NtpTime
  import opened Address
  import opened View
  import opened Codec
  import opened Snapshot
  import opened Responder
  import RateLimit
  import QueryLog

  datatype Shown =
    | Denied
    | NoFilter
    | Shows(filter: string, served: int, mode: Mode, leap: Leap, stratum: int, refId: string, offset: int)

  function Preview(snap: Snapshot, peer: Addr, host: Instant): Shown
  {
    var ip := peer.Unmap();
    if !Allowed(snap, ip) then Denied
    else
      var m := Match(snap.filters, ip);
      if m.None? then NoFilter
      else
        var f := snap.filters[m.value];
        var served := Served(f.view, host);
        Shows(f.name, served, f.view.mode, f.view.leap, f.view.stratum, f.view.refId,
              SaturateDuration(served - host.wall))
  }

  // ----- both callers unmap first

  lemma UnmapTwice(a: Addr)
    ensures a.Unmap().Unmap() == a.Unmap()
  {
  }

  lemma JudgedByIp(o: Outside, snap: Snapshot, st: Traffic, a: Arrival, b: Arrival, v: Victims)
    requires st.global.rate > 0.0 && st.perIp.rate > 0.0 && st.limited.rate > 0.0
    requires b == a.(peer := b.peer) && b.Ip() == a.Ip()
    ensures Judge(o, snap, st, b, v) == Judge(o, snap, st, a, v)
  {
    hide RateLimit.Allowed, Allowed, Match;
  }

  lemma FinishedByIp(
    o: Outside, snap: Snapshot, st: Traffic, j: Judgement, p: Packet, key: Option<Key>, a: Arrival, b: Arrival)
    requires ValidOutside(o) && p.Valid() && (j.Answer? ==> j.filter < |snap.filters|)
    requires b == a.(peer := b.peer) && b.Ip() == a.Ip()
    ensures Finish(o, snap, st, j, p, key, b) == Finish(o, snap, st, j, p, key, a)
  {
    hide Encode, Sign, Reply, QueryLog.Inserted, Served, Jitter;
  }

  lemma PreviewedByIp(snap: Snapshot, peer: Addr, host: Instant)
    ensures Preview(snap, peer.Unmap(), host) == Preview(snap, peer, host)
  {
    UnmapTwice(peer);
    hide Allowed, Match, Served;
  }

  lemma SyncedRates(st: Traffic)
    ensures forall snap {:trigger Sync(st, snap)} ::
              Sync(st, snap).global.rate > 0.0 && Sync(st, snap).perIp.rate > 0.0 &&
              Sync(st, snap).limited == st.limited
  {
  }

  /** An IPv4-mapped client is treated in every respect as its IPv4 address, by the
      handler and by the preview: decision, reply, tokens and log entry. */
  lemma MappedClientAlike(o: Outside, maxSize: nat, st: Traffic, loaded: Option<Snapshot>, a: Arrival, v: Victims)
    requires ValidOutside(o) && st.limited.rate > 0.0
    ensures Handle(o, maxSize, st, loaded, a.(peer := a.peer.Unmap()), v) == Handle(o, maxSize, st, loaded, a, v)
    ensures loaded.Some? ==> Preview(loaded.value, a.peer.Unmap(), a.later) == Preview(loaded.value, a.peer, a.later)
  {
    hide Screen, Judge, Finish, Sync, Preview, ValidOutside, Request, RightKey;
    var b := a.(peer := a.peer.Unmap());
    UnmapTwice(a.peer);
    SyncedRates(st);
    if loaded.Some? {
      PreviewedByIp(loaded.value, a.peer, a.later);
    }
    if PACKET_SIZE <= |a.pkt| <= maxSize && loaded.Some? && Screen(o, loaded.value, a.pkt).Pass? {
      var snap, sc := loaded.value, Screen(o, loaded.value, a.pkt);
      var st1 := Sync(st, snap);
      RequestFits(a.pkt);
      ScreenedPass(o, snap, a.pkt);
      JudgedByIp(o, snap, st1, a, b, v);
      var (st2, j) := Judge(o, snap, st1, a, v);
      FinishedByIp(o, snap, st2, j, sc.p, sc.key, a, b);
    }
  }

  /** The decision made about the packet. */
  ghost predicate Decided(
    o: Outside, maxSize: nat, st: Traffic, loaded: Option<Snapshot>, a: Arrival, v: Victims, d: Decision)
    requires ValidOutside(o) && st.limited.rate > 0.0
  {
    var st' := Handle(o, maxSize, st, loaded, a, v);
    |st'.decisions| == |st.decisions| + 1 && st'.decisions[|st.decisions|].0 == d
  }

  lemma JudgedAnswer(o: Outside, snap: Snapshot, st: Traffic, a: Arrival, v: Victims)
    requires st.global.rate > 0.0 && st.perIp.rate > 0.0 && st.limited.rate > 0.0
    ensures var j := Judge(o, snap, st, a, v).1;
            (j.Answer? ==> Allowed(snap, a.Ip()) && Match(snap.filters, a.Ip()) == Some(j.filter)) &&
            (j.Refuse? ==> j.d != Serve)
  {
  }

  lemma FinishServes(o: Outside, snap: Snapshot, st: Traffic, j: Judgement, p: Packet, key: Option<Key>, a: Arrival)
    requires ValidOutside(o) && p.Valid() && (j.Answer? ==> j.filter < |snap.filters|) && (j.Refuse? ==> j.d != Serve)
    requires var st' := Finish(o, snap, st, j, p, key, a);
             |st'.decisions| == |st.decisions| + 1 && st'.decisions[|st.decisions|].0 == Serve
    ensures j.Answer?
    ensures var f, st' := snap.filters[j.filter], Finish(o, snap, st, j, p, key, a);
            st'.sent == st.sent + [Sign(o, key, Encode(Reply(o, f.view, p, a.recv, a.later)))] &&
            (a.locked ==> st'.log == QueryLog.Inserted(st.log, ServedEntry(o, f, p, a)))
  {
    hide Encode, Sign, Reply, ServedEntry, QueryLog.Inserted, Parse, ValidOutside;
  }

  lemma HandleServes(o: Outside, maxSize: nat, st: Traffic, loaded: Option<Snapshot>, a: Arrival, v: Victims)
    returns (f: CompiledFilter, key: Option<Key>)
    requires ValidOutside(o) && st.limited.rate > 0.0 && Decided(o, maxSize, st, loaded, a, v, Serve)
    ensures |a.pkt| >= PACKET_SIZE && loaded.Some? && Request(a.pkt).Valid()
    ensures Allowed(loaded.value, a.Ip())
    ensures var m := Match(loaded.value.filters, a.Ip()); m.Some? && f == loaded.value.filters[m.value]
    ensures var st' := Handle(o, maxSize, st, loaded, a, v);
            st'.sent == st.sent + [Sign(o, key, Encode(Reply(o, f.view, Request(a.pkt), a.recv, a.later)))] &&
            (a.locked ==> st'.log == QueryLog.Inserted(st.log, ServedEntry(o, f, Request(a.pkt), a)))
  {
    var snap := loaded.value;
    var st1 := Sync(st, snap);
    var sc := Screen(o, snap, a.pkt);
    RequestFits(a.pkt);
    ScreenedSilent(o, snap, a.pkt);
    if sc.Pass? {
      ScreenedPass(o, snap, a.pkt);
    }
    var (st2, j) := Judge(o, snap, st1, a, v);
    JudgeKeeps(o, snap, st1, a, v);
    JudgedAnswer(o, snap, st1, a, v);
    hide Screen, Judge, Finish, RateLimit.WithRate, RightKey, Sign, Request, Encode, Reply, ServedEntry, Allowed, Match;
    FinishServes(o, snap, st2, j, sc.p, sc.key, a);
    f, key := snap.filters[j.filter], sc.key;
  }

  /** The transmit timestamp decodes to the served time plus the wander, at most a
      nanosecond early, and the receive timestamp is not after it. */
  predicate OnWire(v: View, recv: Instant, xmit: Instant, jit: int, q: Packet)
  {
    var r, x := Served(v, recv) + jit, Served(v, xmit) + jit;
    (InRange(x) ==> x - 1 <= ToTime(q.xmtTime, Era(x)) <= x) &&
    (NotAfter(recv, xmit) && !Rewinds(v) ==> WireAtMost(Era(r), q.recTime, Era(x), q.xmtTime))
  }

  lemma ReplyTimes(o: Outside, v: View, p: Packet, recv: Instant, xmit: Instant)
    requires ValidOutside(o)
    ensures var jit := JitterDelta(v, Unix(recv.wall), o.wander);
            var q := Reply(o, v, p, recv, xmit);
            q.Valid() && q.xmtTime == FromTime(Served(v, xmit) + jit) && OnWire(v, recv, xmit, jit, q)
  {
    hide Reply, FromTime, ToTime, Era, Served, JitterDelta, WireAtMost, InRange, Rewinds;
    var jit := JitterDelta(v, Unix(recv.wall), o.wander);
    var x := Served(v, xmit) + jit;
    ReplyFields(o, v, p, recv, xmit);
    if InRange(x) {
      RoundTrip(x);
    }
    if NotAfter(recv, xmit) && !Rewinds(v) {
      ReplyOrdered(v, recv, xmit, jit);
    }
  }

  lemma ReplyFields(o: Outside, v: View, p: Packet, recv: Instant, xmit: Instant)
    requires ValidOutside(o)
    ensures var jit := JitterDelta(v, Unix(recv.wall), o.wander);
            var q := Reply(o, v, p, recv, xmit);
            q.Valid() && q.recTime == FromTime(Served(v, recv) + jit) && q.xmtTime == FromTime(Served(v, xmit) + jit)
  {
  }

  /** A served packet is answered by the filter the preview of that client at that
      instant names, with the previewed time moved by exactly the wander of the
      second the packet came in; so says the query log too. The time on the wire
      decodes to it, to within a nanosecond below. */
  lemma PreviewPredictsAnswer(
    o: Outside, maxSize: nat, st: Traffic, loaded: Option<Snapshot>, a: Arrival, v: Victims)
    returns (f: CompiledFilter, q: Packet, key: Option<Key>)
    requires ValidOutside(o) && st.limited.rate > 0.0 && Decided(o, maxSize, st, loaded, a, v, Serve)
    ensures loaded.Some? && f in loaded.value.filters && q.Valid()
    ensures Handle(o, maxSize, st, loaded, a, v).sent == st.sent + [Sign(o, key, Encode(q))]
    ensures var shown := Preview(loaded.value, a.peer, a.later);
            var jit := JitterDelta(f.view, Unix(a.recv.wall), o.wander);
            var log := Handle(o, maxSize, st, loaded, a, v).log;
            shown.Shows? && shown.filter == f.name && q.xmtTime == FromTime(shown.served + jit) &&
            (a.locked ==> exists e ::
               log == QueryLog.Inserted(st.log, e) && e.filter == f.name && e.servedTime == shown.served + jit) &&
            OnWire(f.view, a.recv, a.later, jit, q)
  {
    hide *;
    f, key := HandleServes(o, maxSize, st, loaded, a, v);
    assert a.Ip() == a.peer.Unmap() by { PeerIp(a); }
    var e := ServedEntry(o, f, Request(a.pkt), a);
    q := Reply(o, f.view, Request(a.pkt), a.recv, a.later);
    ReplyTimes(o, f.view, Request(a.pkt), a.recv, a.later);
    MatchIsMember(loaded.value.filters, a.Ip());
    EntrySays(o, f, Request(a.pkt), a);
    PreviewShows(loaded.value, a.peer, a.later);
  }

  lemma PeerIp(a: Arrival)
    ensures a.Ip() == a.peer.Unmap()
  {
  }

  lemma MatchIsMember(fs: seq<CompiledFilter>, ip: Addr)
    ensures Match(fs, ip).Some? ==> fs[Match(fs, ip).value] in fs
  {
  }

  lemma EntrySays(o: Outside, f: CompiledFilter, p: Packet, a: Arrival)
    ensures var e := ServedEntry(o, f, p, a);
            e.filter == f.name &&
            e.servedTime == Served(f.view, a.later) + JitterDelta(f.view, Unix(a.recv.wall), o.wander)
  {
  }

  lemma PreviewShows(snap: Snapshot, peer: Addr, host: Instant)
    requires Allowed(snap, peer.Unmap()) && Match(snap.filters, peer.Unmap()).Some?
    ensures var f, shown := snap.filters[Match(snap.filters, peer.Unmap()).value], Preview(snap, peer, host);
            shown.Shows? && shown.filter == f.name && shown.served == Served(f.view, host)
  {
  }

  /** What a preview shows of the matched filter: its name, its mode, leap, stratum and
      reference id, the time it serves at that instant, and how far that is from the
      host's, as far as a duration can say. */
  lemma PreviewTells(snap: Snapshot, peer: Addr, host: Instant)
    requires Allowed(snap, peer.Unmap()) && Match(snap.filters, peer.Unmap()).Some?
    ensures var f := snap.filters[Match(snap.filters, peer.Unmap()).value];
            var shown := Preview(snap, peer, host);
            shown.Shows? && shown.filter == f.name && shown.mode == f.view.mode && shown.leap == f.view.leap &&
            shown.stratum == f.view.stratum && shown.refId == f.view.refId && shown.served == Served(f.view, host) &&
            var gap := shown.served - host.wall;
            shown.offset == if gap > 0x7FFF_FFFF_FFFF_FFFF then 0x7FFF_FFFF_FFFF_FFFF
                            else if gap < -0x8000_0000_0000_0000 then -0x8000_0000_0000_0000 else gap
  {
    hide Served;
  }

  /** Both limiters let the packet through. */
  predicate Admitted(o: Outside, snap: Snapshot, st: Traffic, a: Arrival, v: Victims)
    requires st.global.rate > 0.0 && st.perIp.rate > 0.0
  {
    RateLimit.Allowed(st.global, "global", a.globalNow, v.global).1 &&
    RateLimit.Allowed(st.perIp, o.ipText(a.Ip()), a.perIpNow, v.perIp).1
  }

  /** For a good request within the rate limits, on a server restricted to nobody,
      the preview says what the decision will be. */
  lemma PreviewDecides(o: Outside, maxSize: nat, st: Traffic, snap: Snapshot, a: Arrival, v: Victims)
    requires ValidOutside(o) && st.limited.rate > 0.0 && PACKET_SIZE <= |a.pkt| <= maxSize
    requires Screen(o, snap, a.pkt).Pass? && Admitted(o, snap, Sync(st, snap), a, v)
    requires snap.restrictDefault != "ignore" && snap.restrictDefault != "limited"
    ensures var shown := Preview(snap, a.peer, a.later);
            var d := if shown.Denied? then NotAllowed else if shown.NoFilter? then Unmatched else Serve;
            Decided(o, maxSize, st, Some(snap), a, v, d)
  {
    hide Screen, RateLimit.Allowed, Match, Allowed, Served, Encode, Sign, Reply, ServedEntry, QueryLog.Inserted;
    var st1 := Sync(st, snap);
    var sc := Screen(o, snap, a.pkt);
    ScreenedPass(o, snap, a.pkt);
    RequestFits(a.pkt);
    JudgedOpen(o, snap, st1, a, v);
    var (st2, j) := Judge(o, snap, st1, a, v);
    JudgeKeeps(o, snap, st1, a, v);
    PreviewMeans(snap, a.peer, a.later);
    hide Judge, Admitted, Finish, Sync, Preview;
    FinishLabels(o, snap, st2, j, sc.p, sc.key, a);
  }

  lemma PreviewMeans(snap: Snapshot, peer: Addr, host: Instant)
    ensures var ip := peer.Unmap();
            var j := if Allowed(snap, ip) then Routed(snap, ip) else Refuse(NotAllowed);
            match Preview(snap, peer, host)
            case Denied => j == Refuse(NotAllowed)
            case NoFilter => j == Refuse(Unmatched)
            case _ => j.Answer?
  {
  }

  lemma JudgedOpen(o: Outside, snap: Snapshot, st: Traffic, a: Arrival, v: Victims)
    requires st.global.rate > 0.0 && st.perIp.rate > 0.0 && st.limited.rate > 0.0 && Admitted(o, snap, st, a, v)
    requires snap.restrictDefault != "ignore" && snap.restrictDefault != "limited"
    ensures Judge(o, snap, st, a, v).1 == if Allowed(snap, a.Ip()) then Routed(snap, a.Ip()) else Refuse(NotAllowed)
  {
  }

  lemma FinishLabels(o: Outside, snap: Snapshot, st: Traffic, j: Judgement, p: Packet, key: Option<Key>, a: Arrival)
    requires ValidOutside(o) && p.Valid() && (j.Answer? ==> j.filter < |snap.filters|)
    ensures var d := match j case Refuse(d) => d case Kiss => Kod case Answer(_) => Serve;
            Finish(o, snap, st, j, p, key, a).decisions == st.decisions + [(d, VnLabel(p.vn))]
  {
  }
}
