/** A packet that a freshly started server answers: the assumptions about the
    handler can be met. */
module PacketWitness {
  import opened Wrappers
  import opened Address
  import opened View
  import opened Model
  import opened Snapshot
  import opened Compiler
  import opened Responder
  import Pipeline
  import PipelineRuns
  import Preview
  import RateBound
  import Witness
  import Codec
  import Mac
  import QueryLog
  import RateLimit
  import Validate
  import NtpTime
  import OnTheWire

  function Around(): Outside
  {
    Outside((alg, text) => seq(Mac.DigestLen(alg), _ => 0), (name, generation, second) => 0.5, s => [0, 0, 0, 0],
            a => "127.0.0.1")
  }

  /** Version 4, client mode, transmit seconds 2^24. */
  function Query(): seq<Codec.byte> { seq(Codec.PACKET_SIZE, i => if i == 0 then 35 else if i == 40 then 1 else 0) }

  function Idle(): Traffic
  {
    Traffic(RateLimit.Fresh(256.0, 512.0), RateLimit.Fresh(32.0, 64.0), RateLimit.Fresh(0.5, 1.0), [], [],
            QueryLog.Boot(64), 0)
  }

  function Arrives(now: Instant): Arrival
  {
    Arrival(Query(), V4(Zeros(32)), now, 0, 0, 0, now, true, true)
  }

  const NOBODY := Victims(None, None, None)

  lemma QueryParses()
    ensures |Query()| == Codec.PACKET_SIZE <= 576
    ensures var p := Request(Query()); p.vn == 4 && p.mode == Codec.MODE_CLIENT && p.xmtTime.seconds == 0x100_0000
  {
    var q := Query();
    assert q[0] == 35 && q[40] == 1 && q[41] == 0 && q[42] == 0 && q[43] == 0;
    var h := q[..Codec.PACKET_SIZE];
    assert h == q;
    var b := h[40..48][0..4];
    assert b[0] == q[40] && b[1] == q[41] && b[2] == q[42] && b[3] == q[43];
  }

  lemma QueryPasses(snap: Snapshot)
    requires snap.keys.None? && 4 in snap.versions
    ensures Screen(Around(), snap, Query()) == Pass(Request(Query()), None)
  {
    QueryParses();
    hide Query, Codec.Parse, Around;
  }

  /** A key nobody has used has its full burst. */
  lemma NewcomerAdmitted(l: RateLimit.Limiter, key: string, now: int)
    requires l.buckets == map[] && l.rate > 0.0 && l.burst >= 1.0
    ensures RateLimit.Allowed(l, key, now, None).1
  {
    RateBound.RequestSpendsCredit(l, key, now, None);
  }

  lemma NobodyOutside()
    ensures ValidOutside(Around())
  {
  }

  lemma RoutesAre(ps: Validate.Parsers)
    requires ps.prefix == Witness.Prefixes
    ensures ParsePrefixes(ps, UNIVERSAL) == Some([V4_DEFAULT, V6_DEFAULT])
  {
    assert UNIVERSAL[1..] == ["::/0"];
    assert UNIVERSAL[1..][1..] == [] && ps.prefix("::/0") == Some(V6_DEFAULT);
    assert ParsePrefixes(ps, UNIVERSAL[1..][1..]) == Some([]);
    assert [V6_DEFAULT] + [] == [V6_DEFAULT];
    assert ParsePrefixes(ps, UNIVERSAL[1..]) == Some([V6_DEFAULT]);
    assert [V4_DEFAULT] + [V6_DEFAULT] == [V4_DEFAULT, V6_DEFAULT];
  }

  lemma AllowIs()
    ensures CompileAllow(Witness.Serving().env.ps, Witness.Document(Witness.BASE).ntp.allowClientCidrs) ==
            Some(([V4_DEFAULT, V6_DEFAULT], false))
  {
    RoutesAre(Witness.Serving().env.ps);
    hide ParsePrefixes;
  }

  lemma DocumentSays()
    ensures var n := Witness.Document(Witness.BASE).ntp;
            n.keysFile == "" && 4 in n.versions && n.restrict.default == "serve" && n.admission == Admission(100, 10)
  {
  }

  lemma DefaultAllows(snap: Snapshot)
    requires snap.allow == [V4_DEFAULT, V6_DEFAULT] && !snap.allowDenyAll
    ensures Allowed(snap, V4(Zeros(32)))
  {
    assert Contains(snap.allow[0], V4(Zeros(32)));
  }

  lemma BootAllows(now: Instant)
    ensures var r := Pipeline.Boot(Witness.Serving(), Witness.Document(Witness.BASE), now, None);
            r.Success? && r.value.active.Some? &&
            var snap := r.value.active.value;
            snap.keys.None? && 4 in snap.versions && snap.restrictDefault == "serve" && Allowed(snap, V4(Zeros(32))) &&
            snap.maxPacketsPerSec == 100 && snap.maxPacketsPerIp == 10
  {
    hide Witness.Serving, Witness.Document, ValidState, CompileFilters, CompileAllow, Normalize, Allowed,
      Pipeline.EffectiveMgmt, Pipeline.EffectiveNtp;
    Witness.Boots(Witness.BASE, now);
    Witness.DocumentIsNormal(Witness.BASE);
    AllowIs();
    DocumentSays();
    DefaultAllows(Pipeline.Boot(Witness.Serving(), Witness.Document(Witness.BASE), now, None).value.active.value);
  }

  lemma ArrivesAdmitted(snap: Snapshot, now: Instant)
    requires snap.maxPacketsPerSec == 100 && snap.maxPacketsPerIp == 10
    ensures Idle().limited.rate > 0.0 && Preview.Admitted(Around(), snap, Sync(Idle(), snap), Arrives(now), NOBODY)
  {
    var st := Sync(Idle(), snap);
    NewcomerAdmitted(st.global, "global", 0);
    NewcomerAdmitted(st.perIp, "127.0.0.1", 0);
    hide RateLimit.Allowed;
  }

  lemma ArrivesIs(now: Instant)
    ensures var a := Arrives(now);
            a.pkt == Query() && a.later == now && a.peer == V4(Zeros(32)) && a.peer.Unmap() == V4(Zeros(32))
  {
  }

  lemma PreviewIs(snap: Snapshot, now: Instant)
    requires Allowed(snap, V4(Zeros(32))) && Match(snap.filters, V4(Zeros(32))).Some?
    ensures Preview.Preview(snap, V4(Zeros(32)), now).Shows?
  {
    hide Match, Allowed, Served;
  }

  /** A freshly started server with the booted snapshot serves the packet. */
  lemma PacketIsServed(now: Instant)
    ensures var r := Pipeline.Boot(Witness.Serving(), Witness.Document(Witness.BASE), now, None);
            r.Success? && r.value.active.Some? && ValidOutside(Around()) && Idle().limited.rate > 0.0 &&
            Preview.Decided(Around(), 576, Idle(), r.value.active, Arrives(now), NOBODY, Serve)
  {
    hide *;
    BootAllows(now);
    NobodyOutside();
    Witness.ServingIsValid();
    var s := Pipeline.Boot(Witness.Serving(), Witness.Document(Witness.BASE), now, None).value;
    var snap := s.active.value;
    QueryParses();
    QueryPasses(snap);
    ArrivesIs(now);
    ArrivesAdmitted(snap, now);
    Unrun(s);
    PipelineRuns.EveryClientMatched(Witness.Serving(), Witness.Document(Witness.BASE), now, None, [], V4(Zeros(32)));
    AnyRoutable();
    PreviewIs(snap, now);
    Preview.PreviewDecides(Around(), 576, Idle(), snap, Arrives(now), NOBODY);
  }

  lemma Unrun(s: Pipeline.App)
    ensures PipelineRuns.Run(Witness.Serving(), s, []) == s
  {
  }

  lemma AnyRoutable()
    ensures Routable(V4(Zeros(32)))
  {
  }

  // ----- a reply set after it was sent

  /** A follow-real view with eight nanoseconds of jitter. */
  function Jittery(): View
  {
    View("lan", 0, FollowReal, 0, 0, 0, 0.0, false, 0, Instant(0, 0), 0, NoLeap, 2, "LOCL", -20, 0, 0, 8, None, None)
  }

  /** At the wander's upper end the reply is sent eight nanoseconds into 1970 and claims
      to have been set sixteen into it. */
  lemma SetAfterSent(p: Codec.Packet)
    ensures var o := Around().(wander := (name, generation, second) => 1.0);
            ValidOutside(o) &&
            var q := Reply(o, Jittery(), p, Instant(0, 0), Instant(0, 0));
            q.xmtTime == NtpTime.FromTime(8) && q.refTime == NtpTime.FromTime(16) &&
            NtpTime.WireBefore(0, q.xmtTime, 0, q.refTime)
  {
    var o := Around().(wander := (name, generation, second) => 1.0);
    NobodyOutside();
    assert JitterDelta(Jittery(), 0, o.wander) == 8 by {
      WanderSpread(Jittery(), 0, o.wander);
    }
    OnTheWire.ReplyIs(o, Jittery(), p, Instant(0, 0), Instant(0, 0));
    NtpTime.WireStrictlyIncreasing(8, 16);
    hide Reply, JitterDelta, NtpTime.FromTime;
  }
}
