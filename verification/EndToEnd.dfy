/** From the document to the datagram: what a client of the process is told after any run
    of changes is what the active document says. */
module EndToEnd {
  import opened Wrappers
  import opened Address
  import opened View
  import opened Model
  import opened Snapshot
  import opened Compiler
  import opened Routing
  import opened Codec
  import opened Responder
  import opened Preview
  import opened Pipeline
  import opened PipelineRuns
  import opened Mirror
  import opened OnTheWire
  import FreshReset

  /** The datagram r is what the document's filter w tells a client about itself. */
  ghost predicate Configured(o: Outside, w: ViewSpec, pkt: seq<byte>, r: seq<byte>)
  {
    && |pkt| >= PACKET_SIZE && |r| >= PACKET_SIZE
    && r[0] as int == LeapBits(w.leap) * 64 + pkt[0] as int / 8 % 8 * 8 + 4
    && r[1] as int == w.stratum
    && (r[3] as int - w.precision) % 256 == 0
    && r[12..16] == o.refId(w.refId)
    && (w.minPoll.Some? ==> w.minPoll.value <= Signed(r[2]))
    && (w.maxPoll.Some? ==> Signed(r[2]) <= w.maxPoll.value)
    && r[24..32] == pkt[40..48]
  }

  lemma SaidIsConfigured(
    o: Outside, ps: Validate.Parsers, name: string, w: ViewSpec, v: View, generation: nat, pkt: seq<byte>,
    recv: Instant, xmit: Instant, r: seq<byte>)
    requires Validate.ValidView(ps, w) && ViewAsWritten(ps, name, w, v, generation)
    requires SaysServed(o, v, pkt, recv, xmit, r)
    ensures Configured(o, w, pkt, r)
  {
    PollClamped(v, Signed(pkt[2]));
    hide Word, Stamp, NtpTime.FromTime, Served, JitterDelta, Validate.ValidMode, Blank, LeapBits, ClampPoll;
    assert (r[1] as int - w.stratum) % 256 == 0 && 1 <= w.stratum <= 16;
  }

  lemma ActiveIsValid(svc: Service, s: App, boot: string, i: nat)
    requires Inv(svc, s, boot) && i < |s.active.value.canonical.filters|
    ensures Validate.ValidView(svc.env.ps, s.active.value.canonical.filters[i].view)
  {
    assert SnapshotOk(svc, s.active.value);
    assert ValidState(svc.env, s.active.value.canonical);
    hide Inv, SnapshotOk, Validate.ValidView;
    assert Validate.ValidFilters(svc.env.ps, s.active.value.canonical.filters);
  }

  /** Boot a document and run any requests. A packet the server then answers with a served
      time comes from a listed address in a listed version, and is told the leap,
      stratum, precision, reference id and poll bounds of the first enabled filter of
      the active document meant for that address. */
  lemma ServedAsConfigured(
    svc: Service, st: State, now: Instant, keyFile: Option<KeyTable>, rs: seq<Request>,
    o: Outside, maxSize: nat, t: Traffic, a: Arrival, v: Victims)
    requires ValidService(svc) && Boot(svc, st, now, keyFile).Success? && ValidOutside(o) && t.limited.rate > 0.0
    requires Decided(o, maxSize, t, Run(svc, Boot(svc, st, now, keyFile).value, rs).active, a, v, Serve)
    ensures var s := Run(svc, Boot(svc, st, now, keyFile).value, rs);
            s.active.Some? && |a.pkt| >= PACKET_SIZE &&
            var doc, ip := s.active.value.canonical, a.peer.Unmap();
            var i, sent := FirstMeant(svc.env.ps, doc.filters, ip), Handle(o, maxSize, t, s.active, a, v).sent;
            doc.ntp.allowClientCidrs.Some? && Listed(svc.env.ps, doc.ntp.allowClientCidrs.value, ip) &&
            a.pkt[0] as int / 8 % 8 in doc.ntp.versions &&
            i.Some? && |sent| == |t.sent| + 1 && Configured(o, doc.filters[i.value].view, a.pkt, sent[|t.sent|])
  {
    hide *;
    var s0 := Boot(svc, st, now, keyFile).value;
    var s := Run(svc, s0, rs);
    BootHolds(svc, st, now, keyFile);
    FreshReset.BootIs(svc, st, now, keyFile);
    var boot := PipelineRuns.LastRevision([], s0.active.value.revision);
    RunKeepsInv(svc, s0, boot, rs);
    EveryRunAsWritten(svc, st, now, keyFile, rs);
    EveryClientMatched(svc, st, now, keyFile, rs, a.peer.Unmap());
    ServedGets(svc, s, boot, o, maxSize, t, a, v);
  }

  lemma ServedGets(
    svc: Service, s: App, boot: string, o: Outside, maxSize: nat, t: Traffic, a: Arrival, v: Victims)
    requires s.active.Some? && AsWritten(svc.env.ps, s.active.value) && ValidOutside(o) && t.limited.rate > 0.0
    requires Inv(svc, s, boot) && Decided(o, maxSize, t, s.active, a, v, Serve)
    requires var snap := s.active.value;
             Match(snap.filters, a.peer.Unmap()) ==
             FirstMeant(svc.env.ps, snap.canonical.filters, a.peer.Unmap())
    ensures |a.pkt| >= PACKET_SIZE
    ensures var doc, ip := s.active.value.canonical, a.peer.Unmap();
            var i, sent := FirstMeant(svc.env.ps, doc.filters, ip), Handle(o, maxSize, t, s.active, a, v).sent;
            doc.ntp.allowClientCidrs.Some? && Listed(svc.env.ps, doc.ntp.allowClientCidrs.value, ip) &&
            a.pkt[0] as int / 8 % 8 in doc.ntp.versions &&
            i.Some? && |sent| == |t.sent| + 1 && Configured(o, doc.filters[i.value].view, a.pkt, sent[|t.sent|])
  {
    var snap, ip := s.active.value, a.peer.Unmap();
    LetIn(o, maxSize, t, snap, a, v);
    hide *;
    var f := ServedSays(o, maxSize, t, s.active, a, v);
    var i := FirstMeant(svc.env.ps, snap.canonical.filters, ip).value;
    MirrorAt(svc.env.ps, snap, i, ip, a.pkt[0] as int / 8 % 8);
    ActiveIsValid(svc, s, boot, i);
    SaidIsConfigured(o, svc.env.ps, snap.canonical.filters[i].name, snap.canonical.filters[i].view, f.view,
                     snap.generation, a.pkt, a.recv, a.later, Handle(o, maxSize, t, s.active, a, v).sent[|t.sent|]);
  }

  lemma MirrorAt(ps: Validate.Parsers, snap: Snapshot, i: nat, ip: Addr, vn: int)
    requires AsWritten(ps, snap) && i < |snap.canonical.filters|
    ensures i < |snap.filters|
    ensures var f := snap.canonical.filters[i]; ViewAsWritten(ps, f.name, f.view, snap.filters[i].view, snap.generation)
    ensures snap.canonical.ntp.allowClientCidrs.Some?
    ensures Allowed(snap, ip) <==> Listed(ps, snap.canonical.ntp.allowClientCidrs.value, ip)
    ensures VersionOk(snap, vn) <==> vn in snap.canonical.ntp.versions
  {
    hide Allowed, Listed, VersionOk, ViewAsWritten;
    assert FilterAsWritten(ps, snap.canonical.filters[i], snap.filters[i], snap.generation);
  }

  /** What a served packet had passed. */
  lemma LetIn(o: Outside, maxSize: nat, t: Traffic, snap: Snapshot, a: Arrival, v: Victims)
    requires ValidOutside(o) && t.limited.rate > 0.0 && Decided(o, maxSize, t, Some(snap), a, v, Serve)
    ensures |a.pkt| >= PACKET_SIZE && Allowed(snap, a.peer.Unmap()) && VersionOk(snap, a.pkt[0] as int / 8 % 8)
  {
    var f, key := HandleServes(o, maxSize, t, Some(snap), a, v);
    assert a.Ip() == a.peer.Unmap();
    OneDecision(o, maxSize, t, Some(snap), a, v);
    var d, vnLabel := DecisionDrawn(o, maxSize, t, Some(snap), a, v);
    hide Handle, Judge, Sync, Allowed, VersionOk, Unheard;
  }
}
