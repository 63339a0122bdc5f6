/** What holds of the change pipeline over every run of plans, applies, resets and
    queries from a boot. */
module PipelineRuns {
  import opened Wrappers
  import opened Address
  import opened View
  import opened Model
  import opened Snapshot
  import opened Compiler
  import opened Operations
  import opened Routing
  import opened Recency
  import opened Pipeline
  import JsonDiff
  import QueryLog

  /** Revisions are never empty (they start with "sha256:") and the diff lists the
      difference of two trees once each, as JsonDiff.WalkDiff does. */
  ghost predicate ValidService(svc: Service)
  {
    && (forall st :: svc.env.revision(st) != "")
    && (forall b, a :: JsonDiff.NoDuplicates(svc.diff(b, a)) &&
          forall e :: e in svc.diff(b, a) <==> e in JsonDiff.Diff(Some(b), Some(a)))
    && svc.max > 0
  }

  datatype Request =
    | PlanRequest(req: ChangeIn, now: Instant, keyFile: Option<KeyTable>)
    | ApplyRequest(req: ChangeIn, now: Instant, keyFile: Option<KeyTable>)
    | ResetRequest(w: World, reason: string)
    | Query(e: QueryLog.Entry)

  function Step(svc: Service, s: App, r: Request): App
  {
    match r
    case PlanRequest(req, now, keyFile) => PlanStep(svc, s, req, now, keyFile).0
    case ApplyRequest(req, now, keyFile) => ApplyStep(svc, s, req, now, keyFile).0
    case ResetRequest(w, reason) => ResetStep(svc, s, w, reason).0
    case Query(e) => s.(log := QueryLog.Inserted(s.log, e))
  }

  function Run(svc: Service, s: App, rs: seq<Request>): App
    decreases |rs|
  {
    if rs == [] then s else Run(svc, Step(svc, s, rs[0]), rs[1..])
  }

  // ----- what compiling guarantees

  ghost predicate SnapshotOk(svc: Service, snap: Snapshot)
  {
    && Normalize(snap.canonical) == snap.canonical
    && ValidState(svc.env, snap.canonical)
    && snap.revision == svc.env.revision(snap.canonical)
    && snap.ntpAddress == snap.canonical.listeners.ntp
    && snap.managementAddress == snap.canonical.listeners.management
    && snap.queryLogSize == snap.canonical.ntp.queryLogSize
    && exists ctx :: CompileFilters(svc.env.ps, snap.canonical.filters, ctx) == Some(snap.filters)
  }

  lemma CompiledOk(svc: Service, st: State, boot: string, ctx: Context, keyFile: Option<KeyTable>)
    requires Compile(svc.env, st, boot, ctx, keyFile).Success?
    ensures var snap := Compile(svc.env, st, boot, ctx, keyFile).value;
            SnapshotOk(svc, snap) && snap.canonical == Normalize(st) && snap.generation == ctx.generation &&
            snap.bootstrapRevision == (if boot == "" then snap.revision else boot)
  {
    NormalizeIdempotent(st);
    hide Normalize, ValidState, CompileFilters;
  }

  /** How a candidate comes about. */
  lemma CandidateMade(svc: Service, prev: Snapshot, req: ChangeIn, now: Instant, keyFile: Option<KeyTable>)
    returns (after: State, next: Snapshot)
    requires BuildOn(svc, Some(prev), req, now, keyFile).Success?
    ensures req.expectedRevision == prev.revision && ApplyOperations(prev.canonical, req.Operations()) == Success(after)
    ensures Compile(svc.env, after, prev.bootstrapRevision, Context(now, prev.generation + 1, Some(prev)), keyFile) ==
            Success(next)
    ensures BuildOn(svc, Some(prev), req, now, keyFile) ==
            Success(Candidate(prev, next, req.Operations(), DiffStates(svc, prev.canonical, next.canonical)))
  {
    hide Compile, ApplyOperations, RejectsResetOnly, DiffStates;
    after := ApplyOperations(prev.canonical, req.Operations()).value;
    next := BuildOn(svc, Some(prev), req, now, keyFile).value.next;
  }

  /** A candidate is built on the active snapshot, at the revision the caller
      expected, from exactly the operations asked for. */
  lemma CandidateIs(svc: Service, s: App, req: ChangeIn, now: Instant, keyFile: Option<KeyTable>)
    requires ValidService(svc) && BuildCandidate(svc, s, req, now, keyFile).Success?
    requires s.active.Some? && SnapshotOk(svc, s.active.value) && s.active.value.bootstrapRevision != ""
    ensures var c, prev := BuildCandidate(svc, s, req, now, keyFile).value, s.active.value;
            c.prev == prev && c.ops == req.Operations() && req.expectedRevision == prev.revision &&
            ApplyOperations(prev.canonical, req.Operations()).Success? &&
            c.next.canonical == Normalize(ApplyOperations(prev.canonical, req.Operations()).value) &&
            SnapshotOk(svc, c.next) && c.next.generation == prev.generation + 1 &&
            c.next.bootstrapRevision == prev.bootstrapRevision &&
            c.diff == DiffStates(svc, prev.canonical, c.next.canonical) &&
            FixedPart(c.next.canonical) == FixedPart(prev.canonical)
  {
    hide BuildOn;
    var prev := s.active.value;
    var after, next := CandidateMade(svc, prev, req, now, keyFile);
    hide BuildCandidate;
    CandidateFacts(svc, prev, req.Operations(), after, next, now, keyFile);
    hide Compile, SnapshotOk, Normalize, FixedPart, ApplyOperations, ValidService;
  }

  lemma CandidateFacts(
    svc: Service, prev: Snapshot, ops: seq<Operation>, after: State, next: Snapshot, now: Instant,
    keyFile: Option<KeyTable>)
    requires SnapshotOk(svc, prev) && prev.bootstrapRevision != ""
    requires ApplyOperations(prev.canonical, ops) == Success(after)
    requires Compile(svc.env, after, prev.bootstrapRevision, Context(now, prev.generation + 1, Some(prev)), keyFile) ==
             Success(next)
    ensures next.canonical == Normalize(after) && SnapshotOk(svc, next) && next.generation == prev.generation + 1 &&
            next.bootstrapRevision == prev.bootstrapRevision && FixedPart(next.canonical) == FixedPart(prev.canonical)
  {
    hide Compile, FixedPart, ApplyOperations, CompileFilters, ValidState, Normalize;
    assert Normalize(prev.canonical) == prev.canonical;
    hide SnapshotOk;
    OperationsKeepFixed(prev.canonical, ops);
    FixedSurvivesNormalize(prev.canonical, after);
    CompiledOk(svc, after, prev.bootstrapRevision, Context(now, prev.generation + 1, Some(prev)), keyFile);
  }

  // ----- the invariant of every run

  /** Each commit was based on the revision the one before installed. */
  ghost predicate Chained(audit: seq<AuditEvent>, boot: string)
  {
    forall k {:trigger audit[k]} :: 0 <= k < |audit| ==> audit[k].previous == LastRevision(audit[..k], boot)
  }

  function LastRevision(audit: seq<AuditEvent>, boot: string): string
  {
    if audit == [] then boot else audit[|audit| - 1].revision
  }

  /** boot is the revision the process started with. */
  ghost predicate Inv(svc: Service, s: App, boot: string)
  {
    && s.active.Some? && s.bootstrap.Some?
    && SnapshotOk(svc, s.active.value) && SnapshotOk(svc, s.bootstrap.value)
    && s.active.value.bootstrapRevision == s.bootstrap.value.revision
    && FixedPart(s.active.value.canonical) == FixedPart(s.bootstrap.value.canonical)
    && s.active.value.generation == |s.audit| == s.applyOk
    && Chained(s.audit, boot) && s.active.value.revision == LastRevision(s.audit, boot)
    && Sound(s.cache, svc.max)
    && s.log.cap == s.active.value.queryLogSize && |s.log.kept| <= s.log.cap
    && s.mgmtEffective == Some(EffectiveMgmt(svc, s.active.value.managementAddress))
    && (svc.httpHook ==> s.mgmtBound == s.mgmtEffective.value)
  }

  lemma LookupSound(cache: seq<Record<Plan, ApplyResult>>, max: nat, key: string, fp: string)
    requires Sound(cache, max)
    ensures Sound(Recency.Lookup(cache, key, fp).1, max)
  {
  }

  lemma ConflictSound(cache: seq<Record<Plan, ApplyResult>>, max: nat, key: string, e: Error)
    requires Sound(cache, max)
    ensures Sound(AfterConflict(cache, key, e), max)
  {
  }

  lemma StorePlanSound(cache: seq<Record<Plan, ApplyResult>>, max: nat, key: string, fp: string, p: Plan)
    requires Sound(cache, max)
    ensures Sound(StorePlan(cache, max, key, fp, p), max)
  {
    StepKeeps(cache, max, DoStorePlan(key, fp, p));
  }

  lemma StoreApplySound(cache: seq<Record<Plan, ApplyResult>>, max: nat, key: string, fp: string, a: ApplyResult)
    requires Sound(cache, max)
    ensures Sound(StoreApply(cache, max, key, fp, a), max)
  {
    StepKeeps(cache, max, DoStoreApply(key, fp, a));
  }

  lemma CacheIrrelevant(svc: Service, s: App, boot: string, cache: seq<Record<Plan, ApplyResult>>, errors: nat)
    requires Inv(svc, s, boot) && Sound(cache, svc.max)
    ensures Inv(svc, s.(cache := cache, applyError := errors), boot)
  {
    hide SnapshotOk, Sound, FixedPart, Chained, EffectiveMgmt;
  }

  /** A Plan touches nothing but the cache. */
  lemma PlanTouchesCacheOnly(svc: Service, s: App, req: ChangeIn, now: Instant, keyFile: Option<KeyTable>)
    requires Sound(s.cache, svc.max)
    ensures var s' := PlanStep(svc, s, req, now, keyFile).0; s' == s.(cache := s'.cache) && Sound(s'.cache, svc.max)
  {
    var key, fp := req.idempotencyKey, Fingerprint(svc, req);
    var cache := Recency.Lookup(s.cache, key, fp).1;
    LookupSound(s.cache, svc.max, key, fp);
    var cand := BuildCandidate(svc, s, req, now, keyFile);
    if cand.Failure? {
      ConflictSound(cache, svc.max, key, cand.error);
    } else {
      StorePlanSound(cache, svc.max, key, fp, PlanFrom(cand.value));
    }
    hide Sound, BuildCandidate, Recency.Lookup, AfterConflict, StorePlan, Fingerprint, PlanFrom;
  }

  lemma PlanKeeps(svc: Service, s: App, boot: string, req: ChangeIn, now: Instant, keyFile: Option<KeyTable>)
    requires Inv(svc, s, boot)
    ensures Inv(svc, PlanStep(svc, s, req, now, keyFile).0, boot)
  {
    var s' := PlanStep(svc, s, req, now, keyFile).0;
    PlanTouchesCacheOnly(svc, s, req, now, keyFile);
    CacheIrrelevant(svc, s, boot, s'.cache, s.applyError);
    hide Inv, PlanStep;
  }

  lemma ResizedIs(log: QueryLog.Log, n: int)
    requires 1 <= n <= QueryLog.MAX_SIZE
    ensures QueryLog.Resized(log, n).cap == n && |QueryLog.Resized(log, n).kept| <= n
  {
  }

  lemma ChainGrows(audit: seq<AuditEvent>, boot: string, e: AuditEvent)
    requires Chained(audit, boot) && e.previous == LastRevision(audit, boot)
    ensures Chained(audit + [e], boot) && LastRevision(audit + [e], boot) == e.revision
  {
    forall k | 0 <= k < |audit + [e]|
      ensures (audit + [e])[k].previous == LastRevision((audit + [e])[..k], boot)
    {
      if k < |audit| {
        assert (audit + [e])[k] == audit[k];
        assert (audit + [e])[..k] == audit[..k];
      } else {
        assert (audit + [e])[..k] == audit;
      }
    }
  }

  lemma ValidLogSize(svc: Service, snap: Snapshot)
    requires SnapshotOk(svc, snap)
    ensures 1 <= snap.queryLogSize <= QueryLog.MAX_SIZE
  {
  }

  /** A committed apply: the new snapshot sits on the old one. */
  lemma CommitKeeps(
    svc: Service, s: App, boot: string, cache: seq<Record<Plan, ApplyResult>>, c: Candidate, req: ChangeIn)
    requires Inv(svc, s, boot) && Sound(cache, svc.max)
    requires c.prev == s.active.value && SnapshotOk(svc, c.next) && c.next.generation == c.prev.generation + 1
    requires c.next.bootstrapRevision == c.prev.bootstrapRevision &&
             FixedPart(c.next.canonical) == FixedPart(c.prev.canonical)
    ensures Inv(svc, Commit(svc, s, cache, c, req).0, boot)
  {
    var s' := Commit(svc, s, cache, c, req).0;
    CommitLog(svc, s, cache, c, req);
    assert c.next.managementAddress == c.prev.managementAddress by {
      assert FixedPart(c.next.canonical).listeners == FixedPart(c.prev.canonical).listeners;
    }
    ChainGrows(s.audit, boot, s'.audit[|s.audit|]);
    StoreApplySound(cache, svc.max, req.idempotencyKey, Fingerprint(svc, req),
                    ApplyResult(PlanFrom(c), c.next.generation, c.next.revision, |s.audit| + 1));
    hide SnapshotOk, Sound, StoreApply, QueryLog.Resized, FixedPart, Fingerprint, EffectiveMgmt, Chained, LastRevision,
         PlanFrom;
  }

  lemma CommitLog(svc: Service, s: App, cache: seq<Record<Plan, ApplyResult>>, c: Candidate, req: ChangeIn)
    requires SnapshotOk(svc, c.next)
    ensures var s' := Commit(svc, s, cache, c, req).0; s'.log.cap == c.next.queryLogSize && |s'.log.kept| <= s'.log.cap
  {
    ValidLogSize(svc, c.next);
    ResizedIs(s.log, c.next.queryLogSize);
    hide SnapshotOk, StoreApply, QueryLog.Resized, PlanFrom, Fingerprint;
  }

  /** An apply that does not commit touches nothing but the cache and the error
      count; one that does commits the candidate it built. */
  lemma ApplyCases(svc: Service, s: App, req: ChangeIn, now: Instant, keyFile: Option<KeyTable>)
    requires Sound(s.cache, svc.max)
    ensures var (s', r) := ApplyStep(svc, s, req, now, keyFile);
            var cand := BuildCandidate(svc, s, req, now, keyFile);
            var cache := Recency.Lookup(s.cache, req.idempotencyKey, Fingerprint(svc, req)).1;
            Sound(cache, svc.max) &&
            if r.fired then cand.Success? && (s', r) == Commit(svc, s, cache, cand.value, req)
            else s' == s.(cache := s'.cache, applyError := s'.applyError) && Sound(s'.cache, svc.max)
  {
    var key, fp := req.idempotencyKey, Fingerprint(svc, req);
    var cache := Recency.Lookup(s.cache, key, fp).1;
    LookupSound(s.cache, svc.max, key, fp);
    var cand := BuildCandidate(svc, s, req, now, keyFile);
    if cand.Failure? {
      ConflictSound(cache, svc.max, key, cand.error);
    } else {
      CommitFires(svc, s, cache, cand.value, req);
    }
    hide Sound, BuildCandidate, Recency.Lookup, AfterConflict, Fingerprint, Commit;
  }

  lemma CommitFires(svc: Service, s: App, cache: seq<Record<Plan, ApplyResult>>, c: Candidate, req: ChangeIn)
    ensures Commit(svc, s, cache, c, req).1.fired && Commit(svc, s, cache, c, req).1.result.Success?
  {
  }

  lemma ApplyKeeps(svc: Service, s: App, boot: string, req: ChangeIn, now: Instant, keyFile: Option<KeyTable>)
    requires ValidService(svc) && Inv(svc, s, boot)
    ensures Inv(svc, ApplyStep(svc, s, req, now, keyFile).0, boot)
  {
    var (s', r) := ApplyStep(svc, s, req, now, keyFile);
    ApplyCases(svc, s, req, now, keyFile);
    BootRevision(svc, s, boot);
    if r.fired {
      CandidateIs(svc, s, req, now, keyFile);
      CommitKeeps(svc, s, boot, Recency.Lookup(s.cache, req.idempotencyKey, Fingerprint(svc, req)).1,
                  BuildCandidate(svc, s, req, now, keyFile).value, req);
    } else {
      CacheIrrelevant(svc, s, boot, s'.cache, s'.applyError);
    }
    hide Inv, ApplyStep, Sound, BuildCandidate, Recency.Lookup, Fingerprint, Commit;
  }

  lemma BootRevision(svc: Service, s: App, boot: string)
    requires ValidService(svc) && Inv(svc, s, boot)
    ensures s.active.Some? && s.bootstrap.Some? && SnapshotOk(svc, s.active.value)
    ensures s.active.value.bootstrapRevision != ""
  {
    assert s.bootstrap.value.revision == svc.env.revision(s.bootstrap.value.canonical);
  }

  // ----- Reset

  lemma LoadedIs(svc: Service, s: App, w: World)
    requires LoadBootstrap(svc, s, w).Success?
    ensures var next := LoadBootstrap(svc, s, w).value;
            SnapshotOk(svc, next) && next.bootstrapRevision == next.revision &&
            next.generation == (if s.active.Some? then s.active.value.generation + 1 else 0) &&
            EffectiveNtp(svc, next.ntpAddress) != ""
  {
    var gen := if s.active.Some? then s.active.value.generation + 1 else 0;
    var st := if svc.bootstrapPath then w.file.value else s.bootstrap.value.canonical;
    CompiledOk(svc, st, "", Context(w.now, gen, None), w.keyFile);
    NormalizeIdempotent(st);
    hide Compile, SnapshotOk, Normalize;
    assert SnapshotOk(svc, LoadBootstrap(svc, s, w).value);
    AddressIsSet(svc, LoadBootstrap(svc, s, w).value);
  }

  lemma AddressIsSet(svc: Service, snap: Snapshot)
    requires SnapshotOk(svc, snap)
    ensures EffectiveNtp(svc, snap.ntpAddress) != ""
  {
  }

  /** The guards under which a failed Reset leaves the NTP listener somewhere else:
      it was told to move and did, the management listener was told to move and
      could not, and what the rollback could do is not where it came from. */
  predicate Displaces(svc: Service, s: App, next: Snapshot, w: World)
  {
    var newNtp, newMgmt := EffectiveNtp(svc, next.ntpAddress), EffectiveMgmt(svc, next.managementAddress);
    && svc.ntpHook && newNtp != OldNtp(svc, s) && (newNtp == s.ntpBound || w.ntpBinds)
    && svc.httpHook && newMgmt != OldMgmt(svc, s) && newMgmt != "" && newMgmt != s.mgmtBound && !w.httpBinds
    && s.ntpBound != (if w.rollbackBinds then OldNtp(svc, s) else newNtp)
  }

  /** What the two rebinds can leave behind. */
  lemma RebindOutcome(svc: Service, s: App, next: Snapshot, w: World)
    requires EffectiveNtp(svc, next.ntpAddress) != ""
    ensures var (s', ok) := RebindBoth(svc, s, next, w);
            s'.(ntpBound := s.ntpBound, mgmtBound := s.mgmtBound) == s && (!ok ==> s'.mgmtBound == s.mgmtBound)
    ensures var (s', ok) := RebindBoth(svc, s, next, w);
            !ok && s' != s <==> Displaces(svc, s, next, w)
    ensures Displaces(svc, s, next, w) ==>
              RebindBoth(svc, s, next, w).0.ntpBound ==
              if w.rollbackBinds then OldNtp(svc, s) else EffectiveNtp(svc, next.ntpAddress)
    ensures var (s', ok) := RebindBoth(svc, s, next, w);
            ok && svc.httpHook && s.mgmtBound == OldMgmt(svc, s) ==>
              s'.mgmtBound == EffectiveMgmt(svc, next.managementAddress)
    ensures var (s', ok) := RebindBoth(svc, s, next, w);
            ok && svc.ntpHook ==>
              (s'.ntpBound == EffectiveNtp(svc, next.ntpAddress) <==>
               EffectiveNtp(svc, next.ntpAddress) != OldNtp(svc, s) || s.ntpBound == OldNtp(svc, s))
  {
    hide EffectiveNtp, EffectiveMgmt, OldNtp, OldMgmt;
  }

  /** Where both listeners are where the process believes them, a failed Reset
      displaces the NTP listener exactly when both were to move, it did, and both
      the management bind and the rollback failed. */
  lemma DisplacesFromPlace(svc: Service, s: App, next: Snapshot, w: World)
    requires s.ntpBound == OldNtp(svc, s) && s.mgmtBound == OldMgmt(svc, s)
    ensures var newNtp, newMgmt := EffectiveNtp(svc, next.ntpAddress), EffectiveMgmt(svc, next.managementAddress);
            Displaces(svc, s, next, w) <==>
            svc.ntpHook && svc.httpHook && newNtp != OldNtp(svc, s) && newMgmt != OldMgmt(svc, s) && newMgmt != "" &&
            w.ntpBinds && !w.httpBinds && !w.rollbackBinds
  {
  }

  /** A Reset that fails has changed nothing in the application but, possibly, the
      place of the NTP listener; and that it has if and only if the document loads,
      the tokens pass and the guards of Displaces hold. */
  lemma ResetAllOrNothing(svc: Service, s: App, w: World, reason: string)
    requires ResetStep(svc, s, w, reason).1.Failure?
    ensures var s' := ResetStep(svc, s, w, reason).0;
            s'.(ntpBound := s.ntpBound) == s &&
            (s' != s <==>
             LoadBootstrap(svc, s, w).Success? && w.authOk.Success? &&
             Displaces(svc, s, LoadBootstrap(svc, s, w).value, w)) &&
            (s' != s ==>
             s'.ntpBound == if w.rollbackBinds then OldNtp(svc, s)
                            else EffectiveNtp(svc, LoadBootstrap(svc, s, w).value.ntpAddress))
  {
    hide LoadBootstrap, RebindBoth, EffectiveMgmt, OldMgmt, EffectiveNtp, OldNtp, SnapshotOk, Displaces;
    if LoadBootstrap(svc, s, w).Success? {
      LoadedIs(svc, s, w);
      RebindOutcome(svc, s, LoadBootstrap(svc, s, w).value, w);
    }
  }

  /** When the guards hold the Reset does fail. */
  lemma DisplacedResetFails(svc: Service, s: App, w: World, reason: string)
    requires LoadBootstrap(svc, s, w).Success? && Displaces(svc, s, LoadBootstrap(svc, s, w).value, w)
    ensures ResetStep(svc, s, w, reason).1.Failure?
  {
    hide LoadBootstrap, RebindBoth, EffectiveNtp, EffectiveMgmt, OldNtp, OldMgmt, SnapshotOk, Displaces, Install;
    LoadedIs(svc, s, w);
    RebindOutcome(svc, s, LoadBootstrap(svc, s, w).value, w);
  }

  /** What Install leaves, whatever came before. */
  lemma Installed(svc: Service, s: App, next: Snapshot, reason: string)
    ensures var (s', r) := Install(svc, s, next, reason);
            r.Success? && s'.active == s'.bootstrap == Some(next) && s'.cache == [] && s'.log.kept == [] &&
            s'.mgmtEffective == Some(EffectiveMgmt(svc, next.managementAddress)) &&
            s'.ntpBound == s.ntpBound && s'.mgmtBound == s.mgmtBound && s'.applyOk == s.applyOk + 1 &&
            s'.audit == s.audit + [AuditEvent("state.reset", reason, next.revision,
                                              if s.active.Some? then s.active.value.revision else "")] &&
            (1 <= next.queryLogSize <= QueryLog.MAX_SIZE ==> s'.log.cap == next.queryLogSize)
  {
  }

  /** A Reset that succeeds makes the reread document active and bootstrap, empties
      the query log and the cache, and leaves the management listener at its
      effective address. The NTP listener is at its own exactly when the address
      differs from the one the old snapshot asked for, so that it was rebound, or
      the listener was there already. */
  lemma ResetInstalls(svc: Service, s: App, w: World, reason: string)
    requires ResetStep(svc, s, w, reason).1.Success?
    ensures LoadBootstrap(svc, s, w).Success?
    ensures var next := LoadBootstrap(svc, s, w).value;
            var s' := ResetStep(svc, s, w, reason).0;
            s'.active == s'.bootstrap == Some(next) && s'.cache == [] && s'.log.kept == [] &&
            s'.mgmtEffective == Some(EffectiveMgmt(svc, next.managementAddress)) && s'.applyOk == s.applyOk + 1 &&
            s'.audit == s.audit + [AuditEvent("state.reset", reason, next.revision,
                                              if s.active.Some? then s.active.value.revision else "")] &&
            (1 <= next.queryLogSize <= QueryLog.MAX_SIZE ==> s'.log.cap == next.queryLogSize)
    ensures var next := LoadBootstrap(svc, s, w).value;
            var s' := ResetStep(svc, s, w, reason).0;
            (svc.httpHook && s.mgmtBound == OldMgmt(svc, s) ==> s'.mgmtBound == s'.mgmtEffective.value) &&
            (svc.ntpHook ==>
               (s'.ntpBound == EffectiveNtp(svc, next.ntpAddress) <==>
                EffectiveNtp(svc, next.ntpAddress) != OldNtp(svc, s) || s.ntpBound == OldNtp(svc, s)))
  {
    hide LoadBootstrap, RebindBoth, Install, SnapshotOk, EffectiveNtp, EffectiveMgmt, OldNtp, OldMgmt, Displaces;
    if LoadBootstrap(svc, s, w).Success? {
      var next := LoadBootstrap(svc, s, w).value;
      LoadedIs(svc, s, w);
      RebindOutcome(svc, s, next, w);
      Installed(svc, RebindBoth(svc, s, next, w).0, next, reason);
    }
  }

  /** So a failed rollback is never repaired by restoring the file: the next Reset
      to the old address reports success with the listener elsewhere. */
  lemma FailedRollbackStrandsListener(svc: Service, s: App, w1: World, w2: World, reason: string)
    requires svc.ntpHook && svc.httpHook && s.ntpBound == OldNtp(svc, s) && s.mgmtBound == OldMgmt(svc, s)
    requires w1.authOk.Success? && LoadBootstrap(svc, s, w1).Success? && w1.ntpBinds && !w1.httpBinds &&
             !w1.rollbackBinds
    requires var next := LoadBootstrap(svc, s, w1).value;
             EffectiveNtp(svc, next.ntpAddress) != OldNtp(svc, s) &&
             EffectiveMgmt(svc, next.managementAddress) != "" &&
             EffectiveMgmt(svc, next.managementAddress) != s.mgmtBound
    requires var s1 := ResetStep(svc, s, w1, reason).0;
             ResetStep(svc, s1, w2, reason).1.Success? &&
             EffectiveNtp(svc, LoadBootstrap(svc, s1, w2).value.ntpAddress) == OldNtp(svc, s)
    ensures var s1 := ResetStep(svc, s, w1, reason).0;
            var s2 := ResetStep(svc, s1, w2, reason).0;
            s2.active.Some? && s2.ntpBound != EffectiveNtp(svc, s2.active.value.ntpAddress)
  {
    var s1 := ResetStep(svc, s, w1, reason).0;
    LoadedIs(svc, s, w1);
    assert s1 == s.(ntpBound := EffectiveNtp(svc, LoadBootstrap(svc, s, w1).value.ntpAddress)) by {
      hide LoadBootstrap, Install, EffectiveMgmt, OldMgmt, EffectiveNtp, SnapshotOk;
    }
    ResetInstalls(svc, s1, w2, reason);
    hide LoadBootstrap, ResetStep, EffectiveNtp, SnapshotOk;
  }

  lemma ResetKeeps(svc: Service, s: App, boot: string, w: World, reason: string)
    requires Inv(svc, s, boot)
    ensures Inv(svc, ResetStep(svc, s, w, reason).0, boot)
  {
    var s' := ResetStep(svc, s, w, reason).0;
    if ResetStep(svc, s, w, reason).1.Failure? {
      ResetAllOrNothing(svc, s, w, reason);
      ListenersIrrelevant(svc, s, boot, s'.ntpBound);
    } else {
      ResetSucceedsKeeps(svc, s, boot, w, reason);
    }
  }

  lemma ListenersIrrelevant(svc: Service, s: App, boot: string, ntp: string)
    requires Inv(svc, s, boot)
    ensures Inv(svc, s.(ntpBound := ntp), boot)
  {
    hide SnapshotOk, Sound, FixedPart, Chained, EffectiveMgmt;
  }

  lemma ResetSucceedsKeeps(svc: Service, s: App, boot: string, w: World, reason: string)
    requires Inv(svc, s, boot) && ResetStep(svc, s, w, reason).1.Success?
    ensures Inv(svc, ResetStep(svc, s, w, reason).0, boot)
  {
    ResetInstalls(svc, s, w, reason);
    LoadedIs(svc, s, w);
    var next := LoadBootstrap(svc, s, w).value;
    ValidLogSize(svc, next);
    ChainGrows(s.audit, boot, AuditEvent("state.reset", reason, next.revision, s.active.value.revision));
    hide ResetStep, LoadBootstrap, SnapshotOk, FixedPart, Chained, EffectiveMgmt, EffectiveNtp, OldNtp, LastRevision;
  }

  // ----- every run

  lemma BootHolds(svc: Service, st: State, now: Instant, keyFile: Option<KeyTable>)
    requires ValidService(svc) && Boot(svc, st, now, keyFile).Success?
    ensures var s := Boot(svc, st, now, keyFile).value;
            Inv(svc, s, LastRevision([], s.active.value.revision)) && s.ntpBound == OldNtp(svc, s)
  {
    CompiledOk(svc, st, "", Context(now, 0, None), keyFile);
    ValidLogSize(svc, Boot(svc, st, now, keyFile).value.active.value);
    hide Compile, SnapshotOk, Normalize;
  }

  lemma StepKeepsInv(svc: Service, s: App, boot: string, r: Request)
    requires ValidService(svc) && Inv(svc, s, boot)
    ensures Inv(svc, Step(svc, s, r), boot)
  {
    hide Inv, ValidService, PlanStep, ApplyStep, ResetStep;
    match r
    case PlanRequest(req, now, keyFile) => PlanKeeps(svc, s, boot, req, now, keyFile);
    case ApplyRequest(req, now, keyFile) => ApplyKeeps(svc, s, boot, req, now, keyFile);
    case ResetRequest(w, reason) => ResetKeeps(svc, s, boot, w, reason);
    case Query(e) => QueryKeeps(svc, s, boot, e);
  }

  lemma QueryKeeps(svc: Service, s: App, boot: string, e: QueryLog.Entry)
    requires Inv(svc, s, boot)
    ensures Inv(svc, s.(log := QueryLog.Inserted(s.log, e)), boot)
  {
    hide SnapshotOk, Sound, FixedPart, Chained;
  }

  lemma {:induction false} RunKeepsInv(svc: Service, s: App, boot: string, rs: seq<Request>)
    requires ValidService(svc) && Inv(svc, s, boot)
    ensures Inv(svc, Run(svc, s, rs), boot)
    decreases |rs|
  {
    hide Inv, ValidService;
    if rs != [] {
      StepKeepsInv(svc, s, boot, rs[0]);
      RunKeepsInv(svc, Step(svc, s, rs[0]), boot, rs[1..]);
    }
  }

  /** Over every run from a boot: the generation counts the commits; every commit
      was made on the revision the previous one installed, so no update is lost;
      the active revision is the hash of the active document; everything no
      operation may change is still as in the bootstrap document; the query log
      has the configured size; and the management listener is where it should
      be. */
  lemma EveryRun(svc: Service, st: State, now: Instant, keyFile: Option<KeyTable>, rs: seq<Request>)
    requires ValidService(svc) && Boot(svc, st, now, keyFile).Success?
    ensures var s0 := Boot(svc, st, now, keyFile).value;
            var s := Run(svc, s0, rs);
            s.active.Some? && s.bootstrap.Some? &&
            var snap := s.active.value;
            snap.generation == |s.audit| == s.applyOk &&
            (forall k :: 0 <= k < |s.audit| ==>
               s.audit[k].previous == if k == 0 then s0.active.value.revision else s.audit[k - 1].revision) &&
            snap.revision == svc.env.revision(snap.canonical) == LastRevision(s.audit, s0.active.value.revision) &&
            (Drifted(snap) <==> snap.revision != s.bootstrap.value.revision) &&
            FixedPart(snap.canonical) == FixedPart(s.bootstrap.value.canonical) &&
            s.log.cap == snap.canonical.ntp.queryLogSize && |s.cache| <= svc.max &&
            (svc.httpHook ==> s.mgmtBound == EffectiveMgmt(svc, snap.managementAddress))
  {
    BootHolds(svc, st, now, keyFile);
    var s0 := Boot(svc, st, now, keyFile).value;
    RunKeepsInv(svc, s0, s0.active.value.revision, rs);
    RunMeans(svc, Run(svc, s0, rs), s0.active.value.revision);
    hide Inv, Boot, Run, FixedPart, ValidService, Drifted, EffectiveMgmt, LastRevision;
  }

  lemma RunMeans(svc: Service, s: App, boot: string)
    requires ValidService(svc) && Inv(svc, s, boot)
    ensures s.active.Some? && s.bootstrap.Some?
    ensures var snap := s.active.value;
            snap.generation == |s.audit| == s.applyOk &&
            (forall k :: 0 <= k < |s.audit| ==>
               s.audit[k].previous == if k == 0 then boot else s.audit[k - 1].revision) &&
            snap.revision == svc.env.revision(snap.canonical) == LastRevision(s.audit, boot) &&
            (Drifted(snap) <==> snap.revision != s.bootstrap.value.revision) &&
            FixedPart(snap.canonical) == FixedPart(s.bootstrap.value.canonical) &&
            s.log.cap == snap.canonical.ntp.queryLogSize && |s.cache| <= svc.max &&
            (svc.httpHook ==> s.mgmtBound == EffectiveMgmt(svc, snap.managementAddress))
  {
    ChainMeans(s.audit, boot);
    RevisionsSet(svc, s, boot);
    hide FixedPart, EffectiveMgmt, ValidState, CompileFilters, Normalize, ValidService, Chained, LastRevision, Distinct;
  }

  lemma ChainMeans(audit: seq<AuditEvent>, boot: string)
    requires Chained(audit, boot)
    ensures forall k :: 0 <= k < |audit| ==> audit[k].previous == if k == 0 then boot else audit[k - 1].revision
  {
  }

  lemma RevisionsSet(svc: Service, s: App, boot: string)
    requires ValidService(svc) && Inv(svc, s, boot)
    ensures s.active.value.revision != "" && s.bootstrap.value.revision != ""
  {
    assert s.active.value.revision == svc.env.revision(s.active.value.canonical);
    assert s.bootstrap.value.revision == svc.env.revision(s.bootstrap.value.canonical);
  }

  /** In every reachable snapshot every routable client has a filter, the first of
      the document meant for it, and nobody else has one. */
  lemma EveryClientMatched(
    svc: Service, st: State, now: Instant, keyFile: Option<KeyTable>, rs: seq<Request>, ip: Addr)
    requires ValidService(svc) && Boot(svc, st, now, keyFile).Success?
    ensures var s := Run(svc, Boot(svc, st, now, keyFile).value, rs);
            s.active.Some? &&
            Match(s.active.value.filters, ip) == FirstMeant(svc.env.ps, s.active.value.canonical.filters, ip) &&
            (Match(s.active.value.filters, ip).Some? <==> Routable(ip))
  {
    BootHolds(svc, st, now, keyFile);
    var s0 := Boot(svc, st, now, keyFile).value;
    RunKeepsInv(svc, s0, s0.active.value.revision, rs);
    MatchedIfOk(svc, Run(svc, s0, rs).active.value, ip);
    hide Boot, Run, SnapshotOk, ValidService, Match, FirstMeant, Routable;
  }

  lemma MatchedIfOk(svc: Service, snap: Snapshot, ip: Addr)
    requires SnapshotOk(svc, snap)
    ensures Match(snap.filters, ip) == FirstMeant(svc.env.ps, snap.canonical.filters, ip)
    ensures Match(snap.filters, ip).Some? <==> Routable(ip)
  {
    var ctx :| CompileFilters(svc.env.ps, snap.canonical.filters, ctx) == Some(snap.filters);
    CompilePreservesMatch(svc.env.ps, snap.canonical.filters, ctx, ip);
    ValidListMatchesAll(svc.env.ps, snap.canonical.filters, ip);
    hide CompileFilters, Match, FirstMeant, Routable, Normalize;
  }

  /** A Reset that fails and leaves the NTP listener somewhere else. */
  predicate Displacing(svc: Service, s: App, r: Request)
  {
    r.ResetRequest? && LoadBootstrap(svc, s, r.w).Success? && r.w.authOk.Success? &&
    Displaces(svc, s, LoadBootstrap(svc, s, r.w).value, r.w)
  }

  /** The NTP listener is at the effective address of the active snapshot. */
  predicate InPlace(svc: Service, s: App) { s.ntpBound == OldNtp(svc, s) }

  /** One request leaves the listener in place if and only if it does not displace it. */
  lemma StepKeepsNtp(svc: Service, s: App, boot: string, r: Request)
    requires ValidService(svc) && Inv(svc, s, boot) && svc.ntpHook && InPlace(svc, s)
    ensures InPlace(svc, Step(svc, s, r)) <==> !Displacing(svc, s, r)
  {
    hide PlanStep, ApplyStep, ResetStep, Inv, ValidService, OldNtp, QueryLog.Inserted, LoadBootstrap, Displaces;
    match r
    case PlanRequest(req, now, keyFile) => PlanKeepsNtp(svc, s, boot, req, now, keyFile);
    case ApplyRequest(req, now, keyFile) => ApplyKeepsNtp(svc, s, boot, req, now, keyFile);
    case ResetRequest(w, reason) => ResetKeepsNtp(svc, s, w, reason);
    case Query(e) => QueryKeepsNtp(svc, s, e);
  }

  lemma PlanKeepsNtp(svc: Service, s: App, boot: string, req: ChangeIn, now: Instant, keyFile: Option<KeyTable>)
    requires Inv(svc, s, boot)
    ensures var s' := PlanStep(svc, s, req, now, keyFile).0;
            s'.ntpBound == s.ntpBound && OldNtp(svc, s') == OldNtp(svc, s)
  {
    hide PlanStep, SnapshotOk, FixedPart, Chained, EffectiveNtp, EffectiveMgmt, LastRevision;
    PlanTouchesCacheOnly(svc, s, req, now, keyFile);
  }

  lemma QueryKeepsNtp(svc: Service, s: App, e: QueryLog.Entry)
    ensures OldNtp(svc, s.(log := QueryLog.Inserted(s.log, e))) == OldNtp(svc, s)
  {
  }

  lemma ResetKeepsNtp(svc: Service, s: App, w: World, reason: string)
    requires svc.ntpHook && InPlace(svc, s)
    ensures InPlace(svc, ResetStep(svc, s, w, reason).0) <==> !Displacing(svc, s, ResetRequest(w, reason))
  {
    hide ResetStep, LoadBootstrap, EffectiveNtp, EffectiveMgmt, OldMgmt;
    if ResetStep(svc, s, w, reason).1.Failure? {
      ResetAllOrNothing(svc, s, w, reason);
    } else {
      ResetInstalls(svc, s, w, reason);
      if Displacing(svc, s, ResetRequest(w, reason)) {
        DisplacedResetFails(svc, s, w, reason);
      }
    }
  }

  lemma ApplyKeepsNtp(svc: Service, s: App, boot: string, req: ChangeIn, now: Instant, keyFile: Option<KeyTable>)
    requires ValidService(svc) && Inv(svc, s, boot)
    ensures var s' := ApplyStep(svc, s, req, now, keyFile).0;
            s'.ntpBound == s.ntpBound && OldNtp(svc, s') == OldNtp(svc, s)
  {
    ApplyCases(svc, s, req, now, keyFile);
    BootRevision(svc, s, boot);
    if ApplyStep(svc, s, req, now, keyFile).1.fired {
      CandidateIs(svc, s, req, now, keyFile);
      var c := BuildCandidate(svc, s, req, now, keyFile).value;
      assert FixedPart(c.next.canonical).listeners == FixedPart(c.prev.canonical).listeners;
      assert c.next.ntpAddress == c.prev.ntpAddress;
    }
    hide ApplyStep, BuildCandidate, Recency.Lookup, Fingerprint, Sound, Inv, EffectiveNtp, SnapshotOk, FixedPart;
  }

  /** Some Reset of the run displaces the listener. */
  predicate Displaced(svc: Service, s: App, rs: seq<Request>)
    decreases |rs|
  {
    rs != [] && (Displacing(svc, s, rs[0]) || Displaced(svc, Step(svc, s, rs[0]), rs[1..]))
  }

  predicate InPlaceThroughout(svc: Service, s: App, rs: seq<Request>)
    decreases |rs|
  {
    InPlace(svc, s) && (rs == [] || InPlaceThroughout(svc, Step(svc, s, rs[0]), rs[1..]))
  }

  /** The NTP listener is at the effective address of the active snapshot all through
      a run if and only if no Reset of it displaces the listener, and then also after
      it. */
  lemma {:induction false} NtpFollowsSnapshot(svc: Service, s: App, boot: string, rs: seq<Request>)
    requires ValidService(svc) && Inv(svc, s, boot) && svc.ntpHook && InPlace(svc, s)
    ensures InPlaceThroughout(svc, s, rs) <==> !Displaced(svc, s, rs)
    ensures !Displaced(svc, s, rs) ==> InPlace(svc, Run(svc, s, rs))
    decreases |rs|
  {
    hide Inv, ValidService, InPlace, Step, Displacing;
    if rs != [] {
      StepKeepsNtp(svc, s, boot, rs[0]);
      StepKeepsInv(svc, s, boot, rs[0]);
      if !Displacing(svc, s, rs[0]) {
        NtpFollowsSnapshot(svc, Step(svc, s, rs[0]), boot, rs[1..]);
      } else if rs[1..] != [] {
        OutOfPlace(svc, Step(svc, s, rs[0]), rs[1..]);
      }
    }
  }

  lemma OutOfPlace(svc: Service, s: App, rs: seq<Request>)
    requires !InPlace(svc, s)
    ensures !InPlaceThroughout(svc, s, rs)
  {
  }
}
