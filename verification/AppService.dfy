/** internal/app/mutate.go and reset.go: the service object whose methods swap
    snapshots, fill the cache and rebind listeners in place. */
module AppService {
  import opened Wrappers
  import opened View
  import opened Snapshot
  import opened Warnings
  import opened Compiler
  import opened Recency
  import opened JsonDiff
  import opened Pipeline
  import IdempotencyCache
  import QueryLog

  /** A plan that the cache answers. */
  lemma AnsweredPlan(svc: Pipeline.Service, s: App, req: ChangeIn, now: Instant, keyFile: Option<KeyTable>)
    ensures var (hit, cache) := Recency.Lookup(s.cache, req.idempotencyKey, Fingerprint(svc, req));
            var (s', r) := PlanStep(svc, s, req, now, keyFile);
            (hit.Conflict? ==> cache == s.cache && s' == s && r == Failure(IdempotencyConflict)) &&
            (hit.Found? && hit.r.plan.Some? ==> s' == s.(cache := cache) && r == Success(hit.r.plan.value))
  {
  }

  /** A plan that the cache does not answer builds or fails. */
  lemma MissedPlan(
    svc: Pipeline.Service, s: App, looked: seq<Record<Plan, ApplyResult>>, req: ChangeIn, now: Instant,
    keyFile: Option<KeyTable>)
    requires var (hit, cache) := Recency.Lookup(s.cache, req.idempotencyKey, Fingerprint(svc, req));
             looked == cache && !hit.Conflict? && !(hit.Found? && hit.r.plan.Some?)
    ensures PlanStep(svc, s, req, now, keyFile) ==
            var cand := BuildOn(svc, s.active, req, now, keyFile);
            if cand.Failure? then
              (s.(cache := AfterConflict(looked, req.idempotencyKey, cand.error)), Failure(cand.error))
            else
              var p := PlanFrom(cand.value);
              (s.(cache := Recency.StorePlan(looked, svc.max, req.idempotencyKey, Fingerprint(svc, req), p)),
               Success(p))
  {
  }

  /** An apply that the cache answers. */
  lemma AnsweredApply(svc: Pipeline.Service, s: App, req: ChangeIn, now: Instant, keyFile: Option<KeyTable>)
    ensures var (hit, cache) := Recency.Lookup(s.cache, req.idempotencyKey, Fingerprint(svc, req));
            var (s', r) := ApplyStep(svc, s, req, now, keyFile);
            (hit.Conflict? ==> cache == s.cache && s' == s && r == Applied(Failure(IdempotencyConflict), false)) &&
            (hit.Found? && hit.r.apply.Some? ==>
               s' == s.(cache := cache) && r == Applied(Success(hit.r.apply.value), false))
  {
  }

  /** An apply that the cache does not answer builds or fails. */
  lemma MissedApply(
    svc: Pipeline.Service, s: App, looked: seq<Record<Plan, ApplyResult>>, req: ChangeIn, now: Instant,
    keyFile: Option<KeyTable>)
    requires var (hit, cache) := Recency.Lookup(s.cache, req.idempotencyKey, Fingerprint(svc, req));
             looked == cache && !hit.Conflict? && !(hit.Found? && hit.r.apply.Some?)
    ensures ApplyStep(svc, s, req, now, keyFile) ==
            var cand := BuildOn(svc, s.active, req, now, keyFile);
            if cand.Success? then Pipeline.Commit(svc, s.(cache := looked), looked, cand.value, req)
            else (s.(cache := AfterConflict(looked, req.idempotencyKey, cand.error), applyError := s.applyError + 1),
                  Applied(Failure(cand.error), false))
  {
  }

  class Service {
    const svc: Pipeline.Service
    const cache: IdempotencyCache.Cache<Plan, ApplyResult>
    const log: QueryLog.Ring
    var active: Option<Snapshot>
    var previous: Option<Snapshot>
    var bootstrap: Option<Snapshot>
    var audit: seq<AuditEvent>
    var applyOk: nat
    var applyError: nat
    var mgmtEffective: Option<string>
    var ntpBound: string
    var mgmtBound: string

    ghost predicate Valid()
      reads this, cache, cache.nodes, log, log.items
    {
      cache.Valid() && log.Valid() && cache.max == svc.max
    }

    ghost function View(): App
      reads this, cache, log
    {
      App(active, previous, bootstrap, cache.view, log.View(), audit, applyOk, applyError, mgmtEffective, ntpBound,
          mgmtBound)
    }

    /** Wired up once the bootstrap document has compiled and both
        listeners are up. */
    constructor (svc: Pipeline.Service, boot: Snapshot)
      requires svc.max > 0
      ensures Valid() && this.svc == svc && fresh(cache) && fresh(log) && fresh(log.items)
      ensures var mgmt := EffectiveMgmt(svc, boot.managementAddress);
              View() == App(
                Some(boot), None, Some(boot), [], QueryLog.Boot(boot.queryLogSize), [], 0, 0,
                Some(mgmt), EffectiveNtp(svc, boot.ntpAddress), mgmt)
    {
      this.svc := svc;
      cache := new IdempotencyCache.Cache(svc.max);
      log := new QueryLog.Ring(boot.queryLogSize);
      active, previous, bootstrap := Some(boot), None, Some(boot);
      audit, applyOk, applyError := [], 0, 0;
      mgmtEffective := Some(EffectiveMgmt(svc, boot.managementAddress));
      ntpBound, mgmtBound := EffectiveNtp(svc, boot.ntpAddress), EffectiveMgmt(svc, boot.managementAddress);
    }

    method ForgetOnConflict(key: string, e: Error)
      requires Valid()
      modifies cache, cache.nodes
      ensures Valid() && View() == old(View()).(cache := AfterConflict(old(cache.view), key, e))
    {
      if e == RevisionConflict {
        cache.Evict(key);
      }
    }

    method Plan(req: ChangeIn, now: Instant, keyFile: Option<KeyTable>) returns (r: Result<Plan, Error>)
      requires Valid()
      modifies cache, cache.nodes
      ensures Valid() && (View(), r) == PlanStep(svc, old(View()), req, now, keyFile)
    {
      hide IdempotencyCache.Cache.Valid, QueryLog.Ring.Valid, PlanStep, BuildOn, Fingerprint, Recency.Lookup,
           Recency.StorePlan, PlanFrom, AfterConflict;
      var key, fp := req.idempotencyKey, Fingerprint(svc, req);
      AnsweredPlan(svc, View(), req, now, keyFile);
      var hit := cache.Lookup(key, fp);
      if hit.Conflict? {
        return Failure(IdempotencyConflict);
      }
      if hit.Found? && hit.r.plan.Some? {
        return Success(hit.r.plan.value);
      }
      ghost var s, looked := old(View()), cache.view;
      r := MakePlan(req, now, keyFile);
      MissedPlan(svc, s, looked, req, now, keyFile);
    }

    /** A plan that is not in the cache. */
    method MakePlan(req: ChangeIn, now: Instant, keyFile: Option<KeyTable>) returns (r: Result<Plan, Error>)
      requires Valid()
      modifies cache, cache.nodes
      ensures Valid()
      ensures var cand := BuildOn(svc, old(active), req, now, keyFile);
              r == (if cand.Failure? then Failure(cand.error) else Success(PlanFrom(cand.value))) &&
              View() == old(View()).(
                cache := if cand.Failure? then AfterConflict(old(cache.view), req.idempotencyKey, cand.error)
                         else Recency.StorePlan(old(cache.view), svc.max, req.idempotencyKey, Fingerprint(svc, req),
                                                r.value))
    {
      hide IdempotencyCache.Cache.Valid, QueryLog.Ring.Valid, BuildOn, Fingerprint, Recency.StorePlan, PlanFrom,
           AfterConflict;
      var cand := BuildOn(svc, active, req, now, keyFile);
      if cand.Failure? {
        ForgetOnConflict(req.idempotencyKey, cand.error);
        return Failure(cand.error);
      }
      r := Success(PlanFrom(cand.value));
      cache.StorePlan(req.idempotencyKey, Fingerprint(svc, req), r.value);
    }

    method Apply(req: ChangeIn, now: Instant, keyFile: Option<KeyTable>) returns (r: Applied)
      requires Valid()
      modifies this, cache, cache.nodes, log, log.items
      ensures Valid() && (View(), r) == ApplyStep(svc, old(View()), req, now, keyFile)
    {
      hide IdempotencyCache.Cache.Valid, QueryLog.Ring.Valid, ApplyStep, BuildOn, Fingerprint, Recency.Lookup,
           Pipeline.Commit, AfterConflict;
      var key, fp := req.idempotencyKey, Fingerprint(svc, req);
      AnsweredApply(svc, View(), req, now, keyFile);
      var hit := cache.Lookup(key, fp);
      if hit.Conflict? {
        return Applied(Failure(IdempotencyConflict), false);
      }
      if hit.Found? && hit.r.apply.Some? {
        return Applied(Success(hit.r.apply.value), false);
      }
      ghost var s, looked := old(View()), cache.view;
      r := MakeApply(req, now, keyFile);
      MissedApply(svc, s, looked, req, now, keyFile);
    }

    /** An apply that the cache does not answer. */
    method MakeApply(req: ChangeIn, now: Instant, keyFile: Option<KeyTable>) returns (r: Applied)
      requires Valid()
      modifies this, cache, cache.nodes, log, log.items
      ensures Valid()
      ensures var cand := BuildOn(svc, old(active), req, now, keyFile);
              if cand.Success? then (View(), r) == Pipeline.Commit(svc, old(View()), old(cache.view), cand.value, req)
              else r == Applied(Failure(cand.error), false) &&
                   View() == old(View()).(cache := AfterConflict(old(cache.view), req.idempotencyKey, cand.error),
                                          applyError := old(applyError) + 1)
    {
      hide IdempotencyCache.Cache.Valid, QueryLog.Ring.Valid, BuildOn, Pipeline.Commit, AfterConflict;
      var cand := BuildOn(svc, active, req, now, keyFile);
      if cand.Failure? {
        ForgetOnConflict(req.idempotencyKey, cand.error);
        applyError := applyError + 1;
        return Applied(Failure(cand.error), false);
      }
      r := Commit(cand.value, req);
    }

    /** The part of an apply after its candidate has compiled. */
    method Commit(c: Candidate, req: ChangeIn) returns (r: Applied)
      requires Valid()
      modifies this, cache, cache.nodes, log, log.items
      ensures Valid()
      ensures (View(), r) == Pipeline.Commit(svc, old(View()), old(cache.view), c, req)
    {
      hide IdempotencyCache.Cache.Valid, QueryLog.Ring.Valid, Fingerprint, Recency.StoreApply, PlanFrom,
           QueryLog.Resized;
      if c.next.queryLogSize > 0 {
        log.Resize(c.next.queryLogSize);
      }
      previous := active;
      active := Some(c.next);
      applyOk := applyOk + 1;
      audit := audit + [AuditEvent("changes.apply", req.reason, c.next.revision, c.prev.revision)];
      var res := ApplyResult(PlanFrom(c), c.next.generation, c.next.revision, |audit|);
      cache.StoreApply(req.idempotencyKey, Fingerprint(svc, req), res);
      r := Applied(Success(res), true);
    }

    // ----- Reset

    method RebindNtp(addr: string, binds: bool) returns (ok: bool)
      modifies this`ntpBound
      ensures (ntpBound, ok) == Pipeline.RebindNtp(old(ntpBound), addr, binds)
    {
      ok := addr == ntpBound || binds;
      if ok {
        ntpBound := addr;
      }
    }

    method RebindHttp(addr: string, binds: bool) returns (ok: bool)
      modifies this`mgmtBound
      ensures (mgmtBound, ok) == RebindMgmt(old(mgmtBound), addr, binds)
    {
      ok := addr == "" || addr == mgmtBound || binds;
      if ok {
        mgmtBound := addr;
      }
    }

    method LoadBootstrap(w: World, gen: nat) returns (r: Result<Snapshot, Error>)
      requires Valid() && gen == (if active.Some? then active.value.generation + 1 else 0)
      ensures r == Pipeline.LoadBootstrap(svc, View(), w)
    {
      hide Compile;
      var ctx := Context(w.now, gen, None);
      if svc.bootstrapPath {
        if w.file.Failure? {
          return Failure(w.file.error);
        }
        return Compile(svc.env, w.file.value, "", ctx, w.keyFile);
      }
      if bootstrap.None? {
        return Failure(ValidationFailed);
      }
      r := Compile(svc.env, bootstrap.value.canonical, "", ctx, w.keyFile);
    }

    /** Where both listeners should be before a Reset. */
    method OldAddresses() returns (ntp: string, mgmt: string)
      ensures ntp == OldNtp(svc, View()) && mgmt == OldMgmt(svc, View())
    {
      hide EffectiveNtp, EffectiveMgmt;
      ntp, mgmt := "", "";
      if active.Some? {
        ntp := EffectiveNtp(svc, active.value.ntpAddress);
        if mgmtEffective.Some? {
          mgmt := mgmtEffective.value;
        } else {
          mgmt := EffectiveMgmt(svc, active.value.managementAddress);
        }
      }
    }

    /** NTP first; a management failure moves it back. */
    method Rebind(next: Snapshot, w: World) returns (ok: bool)
      modifies this`ntpBound, this`mgmtBound
      ensures (View(), ok) == RebindBoth(svc, old(View()), next, w)
    {
      hide EffectiveNtp, EffectiveMgmt, OldNtp, OldMgmt;
      var oldNtp, oldMgmt := OldAddresses();
      var newNtp, newMgmt := EffectiveNtp(svc, next.ntpAddress), EffectiveMgmt(svc, next.managementAddress);
      var ntpMoved := false;
      if svc.ntpHook && newNtp != "" && newNtp != oldNtp {
        ok := RebindNtp(newNtp, w.ntpBinds);
        if !ok {
          return;
        }
        ntpMoved := true;
      }
      if svc.httpHook && newMgmt != oldMgmt {
        ok := RebindHttp(newMgmt, w.httpBinds);
        if !ok {
          if ntpMoved {
            var back := RebindNtp(oldNtp, w.rollbackBinds);
          }
          return;
        }
      }
      ok := true;
    }

    method WipeLog(size: int)
      requires Valid()
      modifies log, log.items
      ensures Valid()
      ensures var wiped := QueryLog.Wiped(old(log.View()));
              log.View() == if size > 0 then QueryLog.Resized(wiped, size) else wiped
    {
      hide IdempotencyCache.Cache.Valid, QueryLog.Ring.Valid, QueryLog.Resized;
      log.Reset();
      if size > 0 {
        log.Resize(size);
      }
    }

    /** The snapshot swap of a Reset; no cached answer survives it. */
    method SwapAfresh(next: Snapshot)
      requires Valid()
      modifies this`active, this`previous, this`bootstrap, cache
      ensures Valid()
      ensures View() == old(View()).(active := Some(next), bootstrap := Some(next), cache := [],
                                     previous := if old(active).Some? then old(active) else old(previous))
    {
      hide IdempotencyCache.Cache.Valid, QueryLog.Ring.Valid;
      if active.Some? {
        previous := active;
      }
      active, bootstrap := Some(next), Some(next);
      cache.Clear();
    }

    /** Both listeners stand: wipe, swap, clear, record. */
    method Install(next: Snapshot, reason: string) returns (r: Result<ApplyResult, Error>)
      requires Valid()
      modifies this, cache, log, log.items
      ensures Valid() && (View(), r) == Pipeline.Install(svc, old(View()), next, reason)
    {
      hide IdempotencyCache.Cache.Valid, QueryLog.Ring.Valid, QueryLog.Resized, QueryLog.Wiped, EffectiveMgmt, Drifted,
           Notices;
      mgmtEffective := Some(EffectiveMgmt(svc, next.managementAddress));
      WipeLog(next.queryLogSize);
      var prevRev, before := "", Object(map[]);
      if active.Some? {
        prevRev, before := active.value.revision, svc.tree(active.value.canonical);
      }
      SwapAfresh(next);
      applyOk := applyOk + 1;
      audit := audit + [AuditEvent("state.reset", reason, next.revision, prevRev)];
      var diff := svc.diff(before, svc.tree(next.canonical));
      var plan := Pipeline.Plan(prevRev, next.revision, Drifted(next), diff, Notices(next.warnings), []);
      r := Success(ApplyResult(plan, next.generation, next.revision, |audit|));
    }

    method Reset(w: World, reason: string) returns (r: Result<ApplyResult, Error>)
      requires Valid()
      modifies this, cache, cache.nodes, log, log.items
      ensures Valid() && (View(), r) == ResetStep(svc, old(View()), w, reason)
    {
      hide Pipeline.LoadBootstrap, RebindBoth, Pipeline.Install;
      var gen := if active.Some? then active.value.generation + 1 else 0;
      var next := LoadBootstrap(w, gen);
      if next.Failure? {
        return Failure(next.error);
      }
      if w.authOk.Failure? {
        return Failure(w.authOk.error);
      }
      var ok := Rebind(next.value, w);
      if !ok {
        return Failure(Internal);
      }
      r := Install(next.value, reason);
    }
  }
}
