/** internal/ntpserver/server.go and handle.go: the server object and the handler
    that updates its limiters, counts its decisions, writes the reply and logs. */
module NtpServer {
  import opened Wrappers
  import opened Codec
  import opened Mac
  import opened Snapshot
  import opened Responder
  import RateLimit
  import QueryLog

  const MAX_UDP_SIZE := 576

  /** The limiters evict for capacity whichever oldest bucket they come across. */
  ghost predicate Choices(o: Outside, snap: Snapshot, st: Traffic, a: Arrival, v: Victims)
    requires st.global.rate > 0.0 && st.perIp.rate > 0.0 && st.limited.rate > 0.0
  {
    var who := RateLimit.Rename(o.ipText(a.Ip()));
    Allowed(snap, a.Ip()) ==>
      Chosen(st.global, "global", a.globalNow, v.global) &&
      (RateLimit.Allowed(st.global, "global", a.globalNow, v.global).1 ==>
         Chosen(st.perIp, who, a.perIpNow, v.perIp) &&
         (RateLimit.Allowed(st.perIp, o.ipText(a.Ip()), a.perIpNow, v.perIp).1 && snap.restrictDefault == "limited" ==>
            Chosen(st.limited, who, a.limitedNow, v.limited)))
  }

  /** The packet passes every check on its contents. */
  ghost predicate Heard(o: Outside, maxSize: nat, loaded: Option<Snapshot>, pkt: seq<byte>)
  {
    PACKET_SIZE <= |pkt| <= maxSize && loaded.Some? && Screen(o, loaded.value, pkt).Pass?
  }

  ghost predicate Chosen(l: RateLimit.Limiter, key: string, now: int, victim: Option<string>)
    requires l.rate > 0.0
  {
    RateLimit.ValidVictim(RateLimit.WithoutIdle(l, now), key, victim)
  }

  lemma SyncedBounded(l: RateLimit.Limiter, rate: real, burst: real)
    requires RateLimit.Bounded(l)
    ensures RateLimit.Bounded(RateLimit.WithRate(l, rate, burst))
  {
  }

  class Server {
    const maxSize: nat
    const global: RateLimit.QueryLimiter
    const perIp: RateLimit.QueryLimiter
    const limited: RateLimit.QueryLimiter
    const log: QueryLog.Ring
    var decisions: seq<(Decision, string)>
    var sent: seq<seq<byte>>

    ghost predicate Valid()
      reads this, global, perIp, limited, log, log.items
    {
      && global != perIp && global != limited && perIp != limited
      && RateLimit.Bounded(global.View()) && RateLimit.Bounded(perIp.View()) && RateLimit.Bounded(limited.View())
      && log.Valid()
    }

    ghost function View(): Traffic
      reads this, global, perIp, limited, log
    {
      Traffic(global.View(), perIp.View(), limited.View(), decisions, sent, log.View(), log.dropped)
    }

    constructor (maxSize: int, logSize: int)
      ensures Valid() && this.maxSize == (if maxSize <= 0 then 576 else maxSize)
      ensures View() == Traffic(
                RateLimit.Fresh(256.0, 512.0), RateLimit.Fresh(32.0, 64.0), RateLimit.Fresh(0.5, 1.0), [], [],
                QueryLog.Boot(logSize), 0)
    {
      this.maxSize := if maxSize <= 0 then MAX_UDP_SIZE else maxSize;
      global := new RateLimit.QueryLimiter(256.0, 512.0);
      perIp := new RateLimit.QueryLimiter(32.0, 64.0);
      limited := new RateLimit.QueryLimiter(0.5, 1.0);
      log := new QueryLog.Ring(logSize);
      decisions, sent := [], [];
    }

    method Observe(d: Decision, vn: string)
      modifies this
      ensures View() == Decide(old(View()), d, vn)
      ensures decisions == old(decisions) + [(d, vn)] && sent == old(sent)
    {
      decisions := decisions + [(d, vn)];
    }

    method SyncAdmission(snap: Snapshot)
      requires Valid()
      modifies global, perIp
      ensures Valid() && View() == Sync(old(View()), snap)
    {
      SyncedBounded(global.View(), snap.maxPacketsPerSec as real, (snap.maxPacketsPerSec * 2) as real);
      SyncedBounded(perIp.View(), snap.maxPacketsPerIp as real, (snap.maxPacketsPerIp * 2) as real);
      hide RateLimit.Bounded, RateLimit.WithRate;
      global.SetRate(snap.maxPacketsPerSec as real, (snap.maxPacketsPerSec * 2) as real);
      perIp.SetRate(snap.maxPacketsPerIp as real, (snap.maxPacketsPerIp * 2) as real);
    }

    /** Everything up to the parsed request. */
    method ScreenPacket(o: Outside, snap: Snapshot, pkt: seq<byte>) returns (r: Screened)
      requires ValidOutside(o) && |pkt| >= PACKET_SIZE
      ensures r == Screen(o, snap, pkt)
    {
      var key := None;
      if snap.keys.Some? && snap.keys.value != map[] {
        key := NamedKey(snap.keys.value, pkt);
        if key.None? {
          return Silent;
        }
        var ok := VerifyMAC(o.hash, key.value.alg, key.value.secret, pkt);
        if !ok {
          return Silent;
        }
      }
      r := ScreenHeader(snap, Parse(pkt[..PACKET_SIZE]).value, key);
    }

    method TakeGlobal(key: string, now: int) returns (ok: bool, ghost x: Option<string>)
      requires Valid()
      modifies global
      ensures Valid() && View() == old(View()).(global := global.View()) && old(global.View()).rate > 0.0
      ensures (global.View(), ok) == RateLimit.Allowed(old(global.View()), key, now, x)
      ensures Chosen(old(global.View()), RateLimit.Rename(key), now, x)
    {
      ghost var was := global.View();
      ok, x := global.Allow(key, now);
      RateLimit.AllowedKeepsBounded(was, key, now, x);
    }

    method TakePerIp(key: string, now: int) returns (ok: bool, ghost x: Option<string>)
      requires Valid()
      modifies perIp
      ensures Valid() && View() == old(View()).(perIp := perIp.View()) && old(perIp.View()).rate > 0.0
      ensures (perIp.View(), ok) == RateLimit.Allowed(old(perIp.View()), key, now, x)
      ensures Chosen(old(perIp.View()), RateLimit.Rename(key), now, x)
    {
      ghost var was := perIp.View();
      ok, x := perIp.Allow(key, now);
      RateLimit.AllowedKeepsBounded(was, key, now, x);
    }

    method TakeLimited(key: string, now: int) returns (ok: bool, ghost x: Option<string>)
      requires Valid()
      modifies limited
      ensures Valid() && View() == old(View()).(limited := limited.View()) && old(limited.View()).rate > 0.0
      ensures (limited.View(), ok) == RateLimit.Allowed(old(limited.View()), key, now, x)
      ensures Chosen(old(limited.View()), RateLimit.Rename(key), now, x)
    {
      ghost var was := limited.View();
      ok, x := limited.Allow(key, now);
      RateLimit.AllowedKeepsBounded(was, key, now, x);
    }

    /** Allowlist, both rate limits, restriction and match. */
    method JudgePacket(o: Outside, snap: Snapshot, a: Arrival) returns (j: Judgement, ghost v: Victims)
      requires Valid()
      modifies global, perIp, limited
      ensures Valid() && old(View()).global.rate > 0.0 && old(View()).perIp.rate > 0.0 && old(View()).limited.rate > 0.0
      ensures (View(), j) == Judge(o, snap, old(View()), a, v)
      ensures Choices(o, snap, old(View()), a, v)
    {
      v := Victims(None, None, None);
      RatesPositive();
      hide Valid, Allowed, Match, Chosen, RateLimit.Allowed;
      if !Allowed(snap, a.Ip()) {
        return Refuse(NotAllowed), v;
      }
      ghost var st := View();
      var ok, x := TakeGlobal("global", a.globalNow);
      v := v.(global := x);
      if !ok {
        return Refuse(NotAdmitted), v;
      }
      ok, x := TakePerIp(o.ipText(a.Ip()), a.perIpNow);
      v := v.(perIp := x);
      if !ok {
        return Refuse(NotAdmitted), v;
      }
      if snap.restrictDefault == "ignore" {
        return Refuse(Ignored), v;
      }
      if snap.restrictDefault == "limited" {
        ok, x := TakeLimited(o.ipText(a.Ip()), a.limitedNow);
        v := v.(limited := x);
        if !ok {
          return if snap.kod then Kiss else Refuse(Drop), v;
        }
      }
      j := Routed(snap, a.Ip());
    }

    lemma RatesPositive()
      requires Valid()
      ensures View().global.rate > 0.0 && View().perIp.rate > 0.0 && View().limited.rate > 0.0
    {
    }

    method Log(e: QueryLog.Entry, a: Arrival)
      requires Valid()
      modifies log, log.items
      ensures Valid() && log.items == old(log.items) && View() == Logged(old(View()), e, a)
    {
      hide RateLimit.Bounded;
      var ok := log.TryInsert(e, a.locked, a.counted);
    }

    method Write(out: seq<byte>)
      modifies this
      ensures View() == old(View()).(sent := old(sent) + [out])
    {
      sent := sent + [out];
    }

    method FinishPacket(o: Outside, snap: Snapshot, j: Judgement, p: Packet, key: Option<Key>, a: Arrival)
      requires Valid() && ValidOutside(o) && p.Valid() && (j.Answer? ==> j.filter < |snap.filters|)
      modifies this, log, log.items
      ensures Valid() && log.items == old(log.items) && View() == Finish(o, snap, old(View()), j, p, key, a)
    {
      if j.Answer? {
        ReplyAnswers(o, snap.filters[j.filter].view, p, a.recv, a.later);
      }
      hide RateLimit.Bounded, Encode, Reply, Sign, ServedEntry, QueryLog.Inserted;
      match j
      case Refuse(d) =>
        Observe(d, VnLabel(p.vn));
      case Kiss =>
        Observe(Kod, VnLabel(p.vn));
        Write(Sign(o, key, Encode(KoD(p, KISS_RATE))));
        Log(KodEntry(p, a), a);
      case Answer(i) =>
        var f := snap.filters[i];
        Write(Sign(o, key, Encode(Reply(o, f.view, p, a.recv, a.later))));
        Observe(Serve, VnLabel(p.vn));
        Log(ServedEntry(o, f, p, a), a);
    }

    method Handle(o: Outside, loaded: Option<Snapshot>, a: Arrival) returns (ghost v: Victims)
      requires Valid() && ValidOutside(o)
      modifies this, global, perIp, limited, log, log.items
      ensures Valid() && log.items == old(log.items)
      ensures old(View()).limited.rate > 0.0
      ensures View() == Responder.Handle(o, maxSize, old(View()), loaded, a, v)
      ensures Heard(o, maxSize, loaded, a.pkt) ==> Choices(o, loaded.value, Sync(old(View()), loaded.value), a, v)
    {
      v := Victims(None, None, None);
      RatesPositive();
      if |a.pkt| > maxSize {
        Observe(TooLong, "other");
        return;
      }
      if |a.pkt| < PACKET_SIZE {
        Observe(TooShort, "other");
        return;
      }
      if loaded.None? {
        return;
      }
      var snap := loaded.value;
      SyncAdmission(snap);
      var sc := ScreenPacket(o, snap, a.pkt);
      hide Screen, Judge, Finish, Sync, Choices, Parse;
      match sc
      case Silent =>
      case Reject(d, vn) =>
        Observe(d, vn);
      case Pass(p, key) =>
        ScreenedPass(o, snap, a.pkt);
        RequestFits(a.pkt);
        var j;
        j, v := JudgePacket(o, snap, a);
        FinishPacket(o, snap, j, p, key, a);
    }
  }
}
