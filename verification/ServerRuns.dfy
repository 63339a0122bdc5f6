/** What the NTP server keeps over every run of packets, snapshots changing under
    it included. */
module ServerRuns {
  import opened Wrappers
  import opened Codec
  import opened Snapshot
  import opened Responder
  import opened NtpServer
  import opened RateBound
  import RateLimit

  /** A packet, the snapshot loaded when it is handled, and the evictions. */
  datatype Event = Event(loaded: Option<Snapshot>, a: Arrival, v: Victims)

  ghost predicate Ready(st: Traffic)
  {
    RateLimit.Bounded(st.global) && RateLimit.Bounded(st.perIp) && RateLimit.Bounded(st.limited)
  }

  ghost predicate Possible(o: Outside, maxSize: nat, st: Traffic, e: Event)
  {
    ValidOutside(o) && Ready(st) && (e.loaded.Some? ==> ValidKeys(e.loaded.value)) &&
    (Heard(o, maxSize, e.loaded, e.a.pkt) ==> Choices(o, e.loaded.value, Sync(st, e.loaded.value), e.a, e.v))
  }

  ghost function Next(o: Outside, maxSize: nat, st: Traffic, e: Event): Traffic
    requires Possible(o, maxSize, st, e)
  {
    Handle(o, maxSize, st, e.loaded, e.a, e.v)
  }

  ghost predicate Runs(o: Outside, maxSize: nat, st: Traffic, es: seq<Event>)
    decreases |es|
  {
    es != [] ==> Possible(o, maxSize, st, es[0]) && Runs(o, maxSize, Next(o, maxSize, st, es[0]), es[1..])
  }

  ghost function Final(o: Outside, maxSize: nat, st: Traffic, es: seq<Event>): Traffic
    requires Runs(o, maxSize, st, es)
    decreases |es|
  {
    if es == [] then st else Final(o, maxSize, Next(o, maxSize, st, es[0]), es[1..])
  }

  // ----- every run goes on

  lemma JudgeReady(o: Outside, snap: Snapshot, st: Traffic, a: Arrival, v: Victims)
    requires Ready(st) && Choices(o, snap, st, a, v)
    ensures Ready(Judge(o, snap, st, a, v).0)
  {
    if Allowed(snap, a.Ip()) {
      RateLimit.AllowedKeepsBounded(st.global, "global", a.globalNow, v.global);
      if RateLimit.Allowed(st.global, "global", a.globalNow, v.global).1 {
        var who := o.ipText(a.Ip());
        RateLimit.AllowedKeepsBounded(st.perIp, who, a.perIpNow, v.perIp);
        if RateLimit.Allowed(st.perIp, who, a.perIpNow, v.perIp).1 && snap.restrictDefault == "limited" {
          RateLimit.AllowedKeepsBounded(st.limited, who, a.limitedNow, v.limited);
        }
      }
    }
    hide Allowed, Match, RateLimit.Allowed, RateLimit.Bounded, RateLimit.ValidVictim, RateLimit.WithoutIdle;
  }

  // ----- who gets which answer

  /** There is a whole token for everybody and one for this client. */
  predicate Funded(o: Outside, st: Traffic, a: Arrival)
  {
    Credit(st.global, "global", a.globalNow) >= 1.0 &&
    Credit(st.perIp, RateLimit.Rename(o.ipText(a.Ip())), a.perIpNow) >= 1.0
  }

  /** Restriction to "limited" lets one packet through whenever its own bucket has
      a token. */
  predicate Calm(o: Outside, snap: Snapshot, st: Traffic, a: Arrival)
  {
    snap.restrictDefault == "limited" ==> Credit(st.limited, RateLimit.Rename(o.ipText(a.Ip())), a.limitedNow) >= 1.0
  }

  lemma AdmittedByCredit(l: RateLimit.Limiter, key: string, now: int, victim: Option<string>)
    requires RateLimit.Bounded(l) && Chosen(l, RateLimit.Rename(key), now, victim)
    ensures RateLimit.Allowed(l, key, now, victim).1 <==> Credit(l, RateLimit.Rename(key), now) >= 1.0
  {
    hide RateLimit.Allowed, Credit;
    RequestSpendsCredit(l, key, now, victim);
  }

  /** Each judgement in terms of the allowlist, the tokens there were, the
      restriction and the match, whatever buckets are evicted on the way. */
  lemma JudgedByCredit(o: Outside, snap: Snapshot, st: Traffic, a: Arrival, v: Victims)
    requires Ready(st) && Choices(o, snap, st, a, v)
    ensures var j, ok := Judge(o, snap, st, a, v).1, Allowed(snap, a.Ip());
            var open := ok && Funded(o, st, a) && snap.restrictDefault != "ignore";
            (j == Refuse(NotAllowed) <==> !ok) &&
            (j == Refuse(NotAdmitted) <==> ok && !Funded(o, st, a)) &&
            (j == Refuse(Ignored) <==> ok && Funded(o, st, a) && snap.restrictDefault == "ignore") &&
            (j == Kiss <==> open && !Calm(o, snap, st, a) && snap.kod) &&
            (j == Refuse(Drop) <==> open && !Calm(o, snap, st, a) && !snap.kod) &&
            (j == Refuse(Unmatched) <==> open && Calm(o, snap, st, a) && Match(snap.filters, a.Ip()).None?) &&
            (j.Answer? <==> open && Calm(o, snap, st, a) && Match(snap.filters, a.Ip()).Some?)
  {
    hide RateLimit.Allowed, Credit, Chosen, Allowed, Match, RateLimit.Bounded;
    var who := o.ipText(a.Ip());
    assert RateLimit.Rename("global") == "global";
    RatesArePositive(st);
    if Allowed(snap, a.Ip()) {
      AdmittedByCredit(st.global, "global", a.globalNow, v.global);
      if RateLimit.Allowed(st.global, "global", a.globalNow, v.global).1 {
        AdmittedByCredit(st.perIp, who, a.perIpNow, v.perIp);
        if RateLimit.Allowed(st.perIp, who, a.perIpNow, v.perIp).1 && snap.restrictDefault == "limited" {
          AdmittedByCredit(st.limited, who, a.limitedNow, v.limited);
        }
      }
    }
  }

  /** A packet spends a global token when it is allowed and there is one, then a
      token of its client, and nothing further down is touched before. */
  lemma SpendsInOrder(o: Outside, snap: Snapshot, st: Traffic, a: Arrival, v: Victims)
    requires Ready(st) && Choices(o, snap, st, a, v)
    ensures var st' := Judge(o, snap, st, a, v).0;
            var had := Credit(st.global, "global", a.globalNow);
            (!Allowed(snap, a.Ip()) ==> st' == st) && (had < 1.0 ==> st'.perIp == st.perIp) &&
            (!Funded(o, st, a) || snap.restrictDefault != "limited" ==> st'.limited == st.limited) &&
            Credit(st'.global, "global", a.globalNow) == if Allowed(snap, a.Ip()) && had >= 1.0 then had - 1.0 else had
  {
    hide RateLimit.Allowed, Credit, Chosen, Allowed, Match, RateLimit.Bounded;
    var who := o.ipText(a.Ip());
    assert RateLimit.Rename("global") == "global";
    RatesArePositive(st);
    if Allowed(snap, a.Ip()) {
      GlobalSpends(st.global, a.globalNow, v.global);
      AdmittedByCredit(st.global, "global", a.globalNow, v.global);
      if RateLimit.Allowed(st.global, "global", a.globalNow, v.global).1 {
        AdmittedByCredit(st.perIp, who, a.perIpNow, v.perIp);
      }
    }
  }

  lemma GlobalSpends(l: RateLimit.Limiter, now: int, victim: Option<string>)
    requires RateLimit.Bounded(l) && Chosen(l, "global", now, victim)
    ensures var (l', ok) := RateLimit.Allowed(l, "global", now, victim);
            Credit(l', "global", now) == Credit(l, "global", now) - if ok then 1.0 else 0.0
  {
    hide RateLimit.Allowed, Credit;
    assert RateLimit.Rename("global") == "global";
    RequestSpendsCredit(l, "global", now, victim);
  }

  lemma RatesArePositive(st: Traffic)
    requires Ready(st)
    ensures st.global.rate > 0.0 && st.perIp.rate > 0.0 && st.limited.rate > 0.0
  {
  }

  lemma FinishKeepsLimits(
    o: Outside, snap: Snapshot, st: Traffic, j: Judgement, p: Packet, key: Option<Key>, a: Arrival)
    requires ValidOutside(o) && p.Valid() && (j.Answer? ==> j.filter < |snap.filters|)
    ensures var st' := Finish(o, snap, st, j, p, key, a);
            st'.global == st.global && st'.perIp == st.perIp && st'.limited == st.limited
    ensures |Finish(o, snap, st, j, p, key, a).sent| > |st.sent| ==> !j.Refuse?
  {
  }

  /** What one packet can do to the global limiter: nothing, a rate update, or a
      rate update and a request; and only an admitted request is answered. */
  ghost predicate GlobalMove(st: Traffic, st': Traffic, e: Event)
    requires Ready(st)
  {
    (st'.global == st.global && st'.sent == st.sent) ||
    (e.loaded.Some? &&
     var g := Sync(st, e.loaded.value).global;
     (st'.global == g && st'.sent == st.sent) ||
     (Chosen(g, "global", e.a.globalNow, e.v.global) &&
      var (g', ok) := RateLimit.Allowed(g, "global", e.a.globalNow, e.v.global);
      st'.global == g' && (ok || st'.sent == st.sent)))
  }

  lemma UnheardStep(o: Outside, maxSize: nat, st: Traffic, e: Event)
    requires Possible(o, maxSize, st, e) && !Heard(o, maxSize, e.loaded, e.a.pkt)
    ensures Ready(Next(o, maxSize, st, e)) && GlobalMove(st, Next(o, maxSize, st, e), e)
  {
    if e.loaded.Some? {
      SyncReady(st, e.loaded.value);
    }
    hide Screen, RateLimit.Bounded, RateLimit.WithRate, RateLimit.Allowed, Chosen, Choices, ValidOutside, ValidKeys;
  }

  lemma HeardStep(o: Outside, maxSize: nat, st: Traffic, e: Event)
    requires Possible(o, maxSize, st, e) && Heard(o, maxSize, e.loaded, e.a.pkt)
    ensures Ready(Next(o, maxSize, st, e)) && GlobalMove(st, Next(o, maxSize, st, e), e)
  {
    var snap := e.loaded.value;
    var st1 := Sync(st, snap);
    SyncReady(st, snap);
    RequestFits(e.a.pkt);
    ScreenedPass(o, snap, e.a.pkt);
    JudgeReady(o, snap, st1, e.a, e.v);
    JudgeGlobal(o, snap, st1, e.a, e.v);
    var sc := Screen(o, snap, e.a.pkt);
    var (st2, j) := Judge(o, snap, st1, e.a, e.v);
    FinishKeepsLimits(o, snap, st2, j, sc.p, sc.key, e.a);
    assert Next(o, maxSize, st, e) == Finish(o, snap, st2, j, sc.p, sc.key, e.a) by {
      hide Screen, Judge, Finish, Sync, Ready, Choices, ValidOutside, ValidKeys;
    }
    hide Next, Screen, Judge, Finish, Sync, RateLimit.Bounded, RateLimit.Allowed, Choices, Chosen, ValidOutside,
         ValidKeys;
  }

  lemma SyncReady(st: Traffic, snap: Snapshot)
    requires Ready(st)
    ensures Ready(Sync(st, snap))
  {
  }

  lemma JudgeGlobal(o: Outside, snap: Snapshot, st: Traffic, a: Arrival, v: Victims)
    requires Ready(st) && Choices(o, snap, st, a, v)
    ensures var (st', j) := Judge(o, snap, st, a, v);
            st'.sent == st.sent && st'.decisions == st.decisions &&
            ((st'.global == st.global && j.Refuse?) ||
             (Chosen(st.global, "global", a.globalNow, v.global) &&
              var (g, ok) := RateLimit.Allowed(st.global, "global", a.globalNow, v.global);
              st'.global == g && (ok || j.Refuse?)))
  {
  }

  lemma StepMoves(o: Outside, maxSize: nat, st: Traffic, e: Event)
    requires Possible(o, maxSize, st, e)
    ensures Ready(Next(o, maxSize, st, e)) && GlobalMove(st, Next(o, maxSize, st, e), e)
  {
    if Heard(o, maxSize, e.loaded, e.a.pkt) {
      HeardStep(o, maxSize, st, e);
    } else {
      UnheardStep(o, maxSize, st, e);
    }
  }

  // ----- one reply per replying decision, and never more bytes out than in

  function Replying(ds: seq<(Decision, string)>): nat
  {
    if ds == [] then 0 else Replying(ds[..|ds| - 1]) + if ds[|ds| - 1].0.Replies() then 1 else 0
  }

  function Bytes(ps: seq<seq<byte>>): nat
  {
    if ps == [] then 0 else Bytes(ps[..|ps| - 1]) + |ps[|ps| - 1]|
  }

  function Received(es: seq<Event>): nat
  {
    if es == [] then 0 else |es[0].a.pkt| + Received(es[1..])
  }

  lemma ReplyingGrows(ds: seq<(Decision, string)>, more: seq<(Decision, string)>)
    requires ds <= more && |more| == |ds| + 1
    ensures Replying(more) == Replying(ds) + if more[|ds|].0.Replies() then 1 else 0
  {
  }

  lemma BytesGrow(ps: seq<seq<byte>>, more: seq<seq<byte>>)
    requires ps <= more && |more| == |ps| + 1
    ensures Bytes(more) == Bytes(ps) + |more[|ps|]|
  {
  }

  lemma MirrorIsShort(o: Outside, snap: Snapshot, pkt: seq<byte>, r: seq<byte>)
    requires Mirrors(o, snap, pkt, r)
    ensures |r| <= |pkt|
  {
  }

  lemma StepCounts(o: Outside, maxSize: nat, st: Traffic, e: Event)
    requires Possible(o, maxSize, st, e)
    ensures var st' := Next(o, maxSize, st, e);
            |st'.sent| - |st.sent| == Replying(st'.decisions) - Replying(st.decisions) &&
            Bytes(st'.sent) <= Bytes(st.sent) + |e.a.pkt|
  {
    var st' := Handle(o, maxSize, st, e.loaded, e.a, e.v);
    OneDecision(o, maxSize, st, e.loaded, e.a, e.v);
    if |st'.sent| > |st.sent| {
      ReplyMirrorsRequest(o, maxSize, st, e.loaded, e.a, e.v);
      MirrorIsShort(o, e.loaded.value, e.a.pkt, st'.sent[|st.sent|]);
      BytesGrow(st.sent, st'.sent);
    }
    assert st' == Next(o, maxSize, st, e);
    hide *;
    if |st'.decisions| > |st.decisions| {
      ReplyingGrows(st.decisions, st'.decisions);
    } else {
      assert st'.decisions == st.decisions;
    }
    if |st'.sent| == |st.sent| {
      assert st'.sent == st.sent;
    }
  }

  /** Over every run, snapshots swapped under it or not: replies and replying
      decisions go up together, and the server sends no more bytes than it was
      sent. */
  lemma {:induction false} NeverAmplifies(o: Outside, maxSize: nat, st: Traffic, es: seq<Event>)
    requires Runs(o, maxSize, st, es)
    ensures var t := Final(o, maxSize, st, es);
            |t.sent| - |st.sent| == Replying(t.decisions) - Replying(st.decisions) &&
            Bytes(t.sent) <= Bytes(st.sent) + Received(es)
    decreases |es|
  {
    hide Next, Possible, Replying, Bytes;
    if es != [] {
      StepCounts(o, maxSize, st, es[0]);
      NeverAmplifies(o, maxSize, Next(o, maxSize, st, es[0]), es[1..]);
    }
  }

  // ----- the reply rate

  /** Every loaded snapshot allows max packets a second, and the limiter's clock
      does not run back between two instants. */
  ghost predicate Window(es: seq<Event>, max: int, from: int, to: int)
    decreases |es|
  {
    if es == [] then from <= to
    else (es[0].loaded.Some? ==> es[0].loaded.value.maxPacketsPerSec == max) &&
         from <= es[0].a.globalNow && Window(es[1..], max, es[0].a.globalNow, to)
  }

  /** The global limiter as a packet will find it. */
  function Gate(st: Traffic, max: int): RateLimit.Limiter
  {
    RateLimit.WithRate(st.global, max as real, (max * 2) as real)
  }

  /** The packet limits of a snapshot are set before its packets are counted: as many
      tokens a second as the limit says, and two seconds' worth at once. */
  lemma LimitsFollowSnapshot(st: Traffic, snap: Snapshot)
    requires snap.maxPacketsPerSec >= 1 && snap.maxPacketsPerIp >= 1
    ensures var t := Sync(st, snap);
            && t.global.rate == snap.maxPacketsPerSec as real
            && t.global.burst == t.global.rate + t.global.rate
            && t.perIp.rate == snap.maxPacketsPerIp as real
            && t.perIp.burst == t.perIp.rate + t.perIp.rate
            && t.global.buckets == st.global.buckets && t.perIp.buckets == st.perIp.buckets
            && t.limited == st.limited
            && t.(global := st.global, perIp := st.perIp) == st
  {
  }

  lemma JudgeKeepsRates(o: Outside, snap: Snapshot, st: Traffic, a: Arrival, v: Victims)
    requires st.global.rate > 0.0 && st.perIp.rate > 0.0 && st.limited.rate > 0.0
    ensures SameRates(Judge(o, snap, st, a, v).0, st)
  {
    hide Allowed, Match, RateLimit.Allowed;
    forall l: RateLimit.Limiter, key, now, victim | l.rate > 0.0
      ensures var l' := RateLimit.Allowed(l, key, now, victim).0; l'.rate == l.rate && l'.burst == l.burst
    {
      AllowedKeepsRate(l, key, now, victim);
    }
  }

  predicate SameRates(st': Traffic, st: Traffic)
  {
    && st'.global.rate == st.global.rate && st'.global.burst == st.global.burst
    && st'.perIp.rate == st.perIp.rate && st'.perIp.burst == st.perIp.burst
    && st'.limited.rate == st.limited.rate && st'.limited.burst == st.limited.burst
  }

  /** Every packet of a legal size that finds a snapshot leaves the limits set to it, heard
      or not; any other leaves the limiters as they are. The built-in limiter behind
      "limited" keeps its rate. */
  lemma LimitsAfterPacket(o: Outside, maxSize: nat, st: Traffic, loaded: Option<Snapshot>, a: Arrival, v: Victims)
    requires ValidOutside(o) && st.limited.rate > 0.0
    requires loaded.Some? ==> loaded.value.maxPacketsPerSec >= 1 && loaded.value.maxPacketsPerIp >= 1
    ensures var t := Handle(o, maxSize, st, loaded, a, v);
            t.limited.rate == st.limited.rate && t.limited.burst == st.limited.burst &&
            if 48 <= |a.pkt| <= maxSize && loaded.Some? then
              var sec, ip := loaded.value.maxPacketsPerSec as real, loaded.value.maxPacketsPerIp as real;
              t.global.rate == sec && t.global.burst == sec + sec && t.perIp.rate == ip && t.perIp.burst == ip + ip
            else t.global == st.global && t.perIp == st.perIp && t.limited == st.limited
  {
    if 48 <= |a.pkt| <= maxSize && loaded.Some? {
      var snap := loaded.value;
      var st1 := Sync(st, snap);
      LimitsFollowSnapshot(st, snap);
      var sc := Screen(o, snap, a.pkt);
      if sc.Pass? {
        RequestFits(a.pkt);
        ScreenedPass(o, snap, a.pkt);
        JudgeKeepsRates(o, snap, st1, a, v);
        var (st2, j) := Judge(o, snap, st1, a, v);
        FinishKeepsLimits(o, snap, st2, j, sc.p, sc.key, a);
      }
    }
    hide Screen, Judge, Finish, Sync, ValidOutside, Request, RightKey, VersionOk;
  }

  lemma GateKeeps(st: Traffic, max: int)
    requires RateLimit.Bounded(st.global) && max >= 1
    ensures var g := Gate(st, max);
            RateLimit.Bounded(g) && g.rate == max as real && g.burst == (max * 2) as real &&
            Gate(st.(global := g), max) == g
  {
  }

  /** A request at the gate, in credit. */
  lemma GateRequest(g: RateLimit.Limiter, now: int, victim: Option<string>, from: int)
    requires RateLimit.Bounded(g) && RateLimit.Capped(g) && Chosen(g, "global", now, victim) && from <= now
    ensures var (g', ok) := RateLimit.Allowed(g, "global", now, victim);
            RateLimit.Bounded(g') && RateLimit.Capped(g') && g'.rate == g.rate && g'.burst == g.burst &&
            (if ok then 1.0 else 0.0) + Credit(g', "global", now)
              <= Credit(g, "global", from) + RateLimit.Earned(g.rate, now - from)
  {
    assert g.rate > 0.0;
    hide RateLimit.Earned, Credit, RateLimit.Bounded, RateLimit.Capped, RateLimit.WithoutIdle, RateLimit.Oldest,
         RateLimit.Taken;
    var op := RateLimit.Request("global", now, victim);
    VictimIsAnother(RateLimit.WithoutIdle(g, now), "global", victim);
    assert RateLimit.Rename("global") == "global";
    StepBalance(g, op, "global", from);
  }

  lemma StepGate(o: Outside, maxSize: nat, st: Traffic, e: Event, max: int, from: int)
    requires Possible(o, maxSize, st, e) && max >= 1 && RateLimit.Capped(Gate(st, max))
    requires (e.loaded.Some? ==> e.loaded.value.maxPacketsPerSec == max) && from <= e.a.globalNow
    ensures var st', now := Next(o, maxSize, st, e), e.a.globalNow;
            RateLimit.Capped(Gate(st', max)) && Ready(st') &&
            (|st'.sent| - |st.sent|) as real + Credit(Gate(st', max), "global", now)
              <= Credit(Gate(st, max), "global", from) + RateLimit.Earned(max as real, now - from)
  {
    hide Next, Credit, RateLimit.Bounded, RateLimit.Capped, RateLimit.Allowed, RateLimit.Earned, Chosen;
    var st', now, g := Next(o, maxSize, st, e), e.a.globalNow, Gate(st, max);
    StepMoves(o, maxSize, st, e);
    SentOneAtMost(o, maxSize, st, e);
    GateKeeps(st, max);
    hide Possible;
    GrowthEarned(g, "global", from, now);
    if Chosen(g, "global", now, e.v.global) {
      GateRequest(g, now, e.v.global, from);
      if st'.global == RateLimit.Allowed(g, "global", now, e.v.global).0 {
        AllowedAtRate(g, st', max);
      }
    }
  }

  lemma SentOneAtMost(o: Outside, maxSize: nat, st: Traffic, e: Event)
    requires Possible(o, maxSize, st, e)
    ensures |st.sent| <= |Next(o, maxSize, st, e).sent| <= |st.sent| + 1
  {
    OneDecision(o, maxSize, st, e.loaded, e.a, e.v);
    hide Handle, Unheard, RateLimit.Bounded;
  }

  lemma AllowedAtRate(g: RateLimit.Limiter, st': Traffic, max: int)
    requires max >= 1 && g.rate == max as real && g.burst == (max * 2) as real
    requires st'.global.rate == g.rate && st'.global.burst == g.burst
    ensures Gate(st', max) == st'.global
  {
  }

  lemma {:induction false} GateEarned(
    o: Outside, maxSize: nat, st: Traffic, es: seq<Event>, max: int, from: int, to: int)
    requires Runs(o, maxSize, st, es) && Window(es, max, from, to) && max >= 1
    requires Ready(st) && RateLimit.Capped(Gate(st, max))
    ensures from <= to
    ensures var t := Final(o, maxSize, st, es);
            Ready(t) && RateLimit.Capped(Gate(t, max)) &&
            (|t.sent| - |st.sent|) as real + Credit(Gate(t, max), "global", to)
              <= Credit(Gate(st, max), "global", from) + RateLimit.Earned(max as real, to - from)
    decreases |es|
  {
    hide Next, Possible, Credit, Gate, RateLimit.Earned, Ready, RateLimit.Capped;
    if es == [] {
      GateIdle(st, max, from, to);
    } else {
      var now := es[0].a.globalNow;
      StepGate(o, maxSize, st, es[0], max, from);
      GateEarned(o, maxSize, Next(o, maxSize, st, es[0]), es[1..], max, now, to);
      EarnedAdds(max as real, now - from, to - now);
    }
  }

  /** Replies sent plus global credit left never exceed the credit there was plus what
      the rate earned, d seconds long. */
  lemma GateBalance(
    o: Outside, maxSize: nat, st: Traffic, es: seq<Event>, max: int, from: int, to: int)
    requires Runs(o, maxSize, st, es) && Window(es, max, from, to) && max >= 1
    requires Ready(st) && RateLimit.Capped(Gate(st, max))
    ensures var t := Final(o, maxSize, st, es);
            Ready(t) && RateLimit.Capped(Gate(t, max)) &&
            (|t.sent| - |st.sent|) as real + Credit(Gate(t, max), "global", to)
              <= Credit(Gate(st, max), "global", from) + max as real * (to - from) as real / 1_000_000_000.0
  {
    hide *;
    GateEarned(o, maxSize, st, es, max, from, to);
    EarnedIs(max as real, to - from);
  }

  lemma GateIdle(st: Traffic, max: int, from: int, to: int)
    requires Ready(st) && RateLimit.Capped(Gate(st, max)) && max >= 1 && from <= to
    ensures var g := Gate(st, max);
            0.0 <= Credit(g, "global", to) <= Credit(g, "global", from) + RateLimit.Earned(max as real, to - from) &&
            Credit(g, "global", from) <= (max * 2) as real
  {
  }

  /** In any window of d seconds of any run whose snapshots all allow max packets a
      second, the server sends at most 2 max + max d replies, kisses included. */
  lemma ReplyRate(o: Outside, maxSize: nat, st: Traffic, es: seq<Event>, max: int, from: int, to: int)
    requires Runs(o, maxSize, st, es) && Window(es, max, from, to) && max >= 1
    requires Ready(st) && RateLimit.Capped(Gate(st, max))
    ensures (|Final(o, maxSize, st, es).sent| - |st.sent|) as real
              <= (max * 2) as real + max as real * (to - from) as real / 1_000_000_000.0
  {
    hide *;
    GateEarned(o, maxSize, st, es, max, from, to);
    EarnedIs(max as real, to - from);
    GateIdle(st, max, from, from);
    GateIdle(Final(o, maxSize, st, es), max, to, to);
  }
}
