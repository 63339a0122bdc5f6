/** What an idempotency key promises a caller of the change pipeline, and where the
    promise ends. */
module Idempotence {
  import opened Wrappers
  import opened View
  import opened Model
  import opened Snapshot
  import opened Compiler
  import opened Operations
  import opened Recency
  import opened OperationJson
  import opened Pipeline
  import opened PipelineRuns
  import JsonDiff
  import QueryLog

  type Cached = seq<Record<Plan, ApplyResult>>

  // ----- what one apply does

  /** The state and result of a committing apply, in terms of its candidate. */
  lemma Committed(svc: Service, s: App, boot: string, req: ChangeIn, now: Instant, keyFile: Option<KeyTable>)
    requires ValidService(svc) && Inv(svc, s, boot) && ApplyStep(svc, s, req, now, keyFile).1.fired
    ensures BuildCandidate(svc, s, req, now, keyFile).Success?
    ensures var (s', r) := ApplyStep(svc, s, req, now, keyFile);
            var c := BuildCandidate(svc, s, req, now, keyFile).value;
            s.active == Some(c.prev) && s'.active == Some(c.next) && s'.previous == s.active &&
            s'.bootstrap == s.bootstrap &&
            r.result == Success(ResultOf(s, c)) &&
            s'.cache == StoreApply(Recency.Lookup(s.cache, req.idempotencyKey, Fingerprint(svc, req)).1, svc.max,
                                   req.idempotencyKey, Fingerprint(svc, req), ResultOf(s, c))
  {
    BootRevision(svc, s, boot);
    ApplyCases(svc, s, req, now, keyFile) by { assert Sound(s.cache, svc.max); }
    CandidateIs(svc, s, req, now, keyFile);
    var c := BuildCandidate(svc, s, req, now, keyFile).value;
    CommitShape(svc, s, Recency.Lookup(s.cache, req.idempotencyKey, Fingerprint(svc, req)).1, c, req);
    hide *;
  }

  /** An apply that commits did so on the revision its caller expected, and
      installs the normalized result of its operations on that state. */
  lemma ApplyCommits(svc: Service, s: App, boot: string, req: ChangeIn, now: Instant, keyFile: Option<KeyTable>)
    requires ValidService(svc) && Inv(svc, s, boot) && ApplyStep(svc, s, req, now, keyFile).1.fired
    ensures var (s', r) := ApplyStep(svc, s, req, now, keyFile);
            s.active.Some? && s'.active.Some? && r.result.Success? &&
            var before, after, res := s.active.value, s'.active.value, r.result.value;
            req.expectedRevision == before.revision && s'.previous == s.active && s'.bootstrap == s.bootstrap &&
            ApplyOperations(before.canonical, req.Operations()).Success? &&
            after.canonical == Normalize(ApplyOperations(before.canonical, req.Operations()).value) &&
            after.generation == before.generation + 1 &&
            res.runtimeRevision == after.revision && res.generation == after.generation &&
            res.plan.previousRevision == before.revision && res.plan.candidateRevision == after.revision &&
            res.plan.diff == DiffStates(svc, before.canonical, after.canonical)
  {
    BootRevision(svc, s, boot);
    Committed(svc, s, boot, req, now, keyFile);
    CandidateIs(svc, s, req, now, keyFile);
    hide ApplyStep, BuildCandidate, Recency.Lookup, Fingerprint, Inv, ValidService, SnapshotOk, FixedPart, StoreApply,
      DiffStates, Normalize, ApplyOperations;
  }

  /** What a commit leaves on record: one audit event more, for this change and its reason,
      from the old revision to the new one, whose number the answer carries; one more
      success counted; and of the query log the newest entries that fit. The answer's
      plan shows the operations asked for and the warnings of the new snapshot, and
      says the state has drifted exactly if its revision is not the bootstrap's. */
  lemma CommitRecords(svc: Service, s: App, boot: string, req: ChangeIn, now: Instant, keyFile: Option<KeyTable>)
    requires ValidService(svc) && Inv(svc, s, boot) && ApplyStep(svc, s, req, now, keyFile).1.fired
    ensures var (s', r) := ApplyStep(svc, s, req, now, keyFile);
            s.active.Some? && s'.active.Some? && r.result.Success? &&
            var before, after, res := s.active.value, s'.active.value, r.result.value;
            s'.audit == s.audit + [AuditEvent("changes.apply", req.reason, after.revision, before.revision)] &&
            res.auditId == |s'.audit| && s'.applyOk == s.applyOk + 1 && s'.applyError == s.applyError &&
            s'.log == QueryLog.Resized(s.log, after.queryLogSize) &&
            res.plan.operations == req.Operations() && |res.plan.warnings| == |after.warnings| &&
            (forall i :: 0 <= i < |after.warnings| ==> res.plan.warnings[i] == after.warnings[i].notice) &&
            (res.plan.drifted <==> after.revision != after.bootstrapRevision)
  {
    BootRevision(svc, s, boot);
    assert s.active.Some? && Sound(s.cache, svc.max);
    assert forall st :: svc.env.revision(st) != "";
    ApplyCases(svc, s, req, now, keyFile);
    CandidateIs(svc, s, req, now, keyFile);
    var c := BuildCandidate(svc, s, req, now, keyFile).value;
    assert SnapshotOk(svc, c.next) ==> c.next.revision == svc.env.revision(c.next.canonical);
    ValidLogSize(svc, c.next);
    assert c.next.bootstrapRevision != "";
    hide ApplyStep, BuildCandidate, Recency.Lookup, Fingerprint, Inv, ValidService, SnapshotOk, FixedPart, StoreApply,
      DiffStates, Normalize, ApplyOperations, QueryLog.Resized, Sound;
  }

  /** An apply that is neither committed nor answered from the cache leaves one more
      failure counted, unless its key belongs to another request. */
  lemma RefusalCounts(svc: Service, s: App, req: ChangeIn, now: Instant, keyFile: Option<KeyTable>)
    requires !ApplyStep(svc, s, req, now, keyFile).1.fired
    ensures var (s', r) := ApplyStep(svc, s, req, now, keyFile);
            && s'.(cache := s.cache, applyError := s.applyError) == s
            && (r.result.Success? ==> s'.applyError == s.applyError)
            && (r.result == Failure(IdempotencyConflict) ==> s' == s)
            && (r.result.Failure? && r.result.error != IdempotencyConflict ==>
                  s'.applyError == s.applyError + 1 &&
                  BuildCandidate(svc, s, req, now, keyFile) == Failure(r.result.error))
  {
    BuildNeverConflicts(svc, s.active, req, now, keyFile);
    hide BuildOn, Recency.Lookup, Fingerprint, AfterConflict;
  }

  /** The diff a committed apply reports is a patch from the old tree to the new. */
  lemma ReportedDiffIsPatch(svc: Service, s: App, boot: string, req: ChangeIn, now: Instant, keyFile: Option<KeyTable>)
    requires ValidService(svc) && Inv(svc, s, boot) && ApplyStep(svc, s, req, now, keyFile).1.fired
    ensures var (s', r) := ApplyStep(svc, s, req, now, keyFile);
            s.active.Some? && s'.active.Some? && r.result.Success? &&
            JsonDiff.PatchAll(Some(JsonDiff.Embed(svc.tree(s.active.value.canonical))), r.result.value.plan.diff) ==
            Some(JsonDiff.Embed(svc.tree(s'.active.value.canonical)))
  {
    ApplyCommits(svc, s, boot, req, now, keyFile);
    var s' := ApplyStep(svc, s, req, now, keyFile).0;
    hide *;
    DiffIsPatch(svc, s.active.value.canonical, s'.active.value.canonical);
  }

  lemma CommitShape(svc: Service, s: App, cache: Cached, c: Candidate, req: ChangeIn)
    ensures var (s', r) := Commit(svc, s, cache, c, req);
            s'.active == Some(c.next) && s'.previous == s.active && s'.bootstrap == s.bootstrap && r.fired &&
            r.result == Success(ResultOf(s, c)) &&
            s'.cache == StoreApply(cache, svc.max, req.idempotencyKey, Fingerprint(svc, req), ResultOf(s, c))
  {
  }

  lemma DiffIsPatch(svc: Service, before: State, after: State)
    requires ValidService(svc)
    ensures JsonDiff.PatchAll(Some(JsonDiff.Embed(svc.tree(before))), DiffStates(svc, before, after)) ==
            Some(JsonDiff.Embed(svc.tree(after)))
    ensures DiffStates(svc, before, after) == [] <==> svc.tree(before) == svc.tree(after)
  {
    var b, a := svc.tree(before), svc.tree(after);
    assert JsonDiff.NoDuplicates(svc.diff(b, a));
    JsonDiff.PatchYieldsAfter(Some(b), Some(a), svc.diff(b, a));
    JsonDiff.EmptyIffEqual(Some(b), Some(a));
    var d := svc.diff(b, a);
    if d != [] {
      JsonDiff.FirstInside(d);
    }
    if b != a {
      var e :| e in JsonDiff.Diff(Some(b), Some(a));
      assert e in d;
    }
  }

  // ----- replay and conflict

  /** What an entry can be asked for: the outcome of an apply, or a plan. */
  datatype Answer = Outcome(a: ApplyResult) | Planned(p: Plan)

  predicate Holds(r: Record<Plan, ApplyResult>, ans: Answer)
  {
    match ans
    case Outcome(a) => r.apply == Some(a)
    case Planned(p) => r.plan == Some(p)
  }

  /** The cache keeps this answer under this key and fingerprint. */
  predicate Keeps(cache: Cached, key: string, fp: string, ans: Answer)
  {
    key != "" && Matches(cache, key, fp) && Holds(cache[IndexOf(cache, key)], ans)
  }

  /** The cache remembers this outcome under this key and fingerprint. */
  predicate Remembers(cache: Cached, key: string, fp: string, a: ApplyResult) { Keeps(cache, key, fp, Outcome(a)) }

  /** Repeating a remembered apply returns the stored outcome and does nothing
      else: no swap, no generation, no audit event, no hooks; only the entry's
      recency changes. */
  lemma RememberedIsReplayed(
    svc: Service, s: App, req: ChangeIn, now: Instant, keyFile: Option<KeyTable>, a: ApplyResult)
    requires Remembers(s.cache, req.idempotencyKey, Fingerprint(svc, req), a)
    ensures var (s', r) := ApplyStep(svc, s, req, now, keyFile);
            r == Applied(Success(a), false) && s'.(cache := s.cache) == s && multiset(s'.cache) == multiset(s.cache)
  {
    var i := IndexOf(s.cache, req.idempotencyKey);
    FrontPermutes(s.cache, i);
    hide Fingerprint, BuildCandidate, Commit;
  }

  lemma FrontPermutes(cache: Cached, i: nat)
    requires i < |cache|
    ensures multiset(ToFront(cache, i)) == multiset(cache)
  {
    assert cache == cache[..i] + [cache[i]] + cache[i + 1..];
  }

  /** A key reused with another fingerprint is rejected, by Plan and by Apply, and
      changes nothing at all. */
  lemma OtherRequestRejected(svc: Service, s: App, req: ChangeIn, now: Instant, keyFile: Option<KeyTable>)
    requires req.idempotencyKey != "" && Has(s.cache, req.idempotencyKey)
    requires s.cache[IndexOf(s.cache, req.idempotencyKey)].fp != Fingerprint(svc, req)
    ensures ApplyStep(svc, s, req, now, keyFile) == (s, Applied(Failure(IdempotencyConflict), false))
    ensures PlanStep(svc, s, req, now, keyFile) == (s, Failure(IdempotencyConflict))
  {
  }

  /** The same request, as far as its marshalled form can tell. */
  predicate SameRequest(a: ChangeIn, b: ChangeIn) { SameChange(a.reason, a.list, b.reason, b.list) }

  /** Requests that differ only in empty against absent client lists have the same
      fingerprint, so the rejection above never meets them: the second is answered,
      without a commit, with the outcome of the first, whichever came first. */
  lemma EmptyAndAbsentCollide(
    svc: Service, s: App, req: ChangeIn, other: ChangeIn, now: Instant, keyFile: Option<KeyTable>, a: ApplyResult)
    requires Remembers(s.cache, req.idempotencyKey, Fingerprint(svc, req), a)
    requires other.idempotencyKey == req.idempotencyKey && SameRequest(req, other)
    ensures Fingerprint(svc, other) == Fingerprint(svc, req)
    ensures ApplyStep(svc, s, other, now, keyFile).1 == Applied(Success(a), false)
  {
    SameChangeLooksAlike(svc.float, req.reason, req.list, other.reason, other.list);
    hide ApplyStep, Remembers;
    RememberedIsReplayed(svc, s, other, now, keyFile, a);
  }

  /** The hash keeps these two requests apart if their marshalled forms differ. */
  ghost predicate NoCollision(svc: Service, a: ChangeIn, b: ChangeIn)
  {
    Fingerprint(svc, a) == Fingerprint(svc, b) ==>
      ChangeJson(svc.float, a.reason, a.list) == ChangeJson(svc.float, b.reason, b.list)
  }

  /** Operations as a request can carry them, with rates the formatter can tell
      apart. */
  ghost predicate Comparable(svc: Service, a: ChangeIn, b: ChangeIn)
  {
    Proper(a.Operations()) && Proper(b.Operations()) &&
    TellsApart(svc.float, AllRates(a.Operations()) + AllRates(b.Operations()))
  }

  /** Two requests have one fingerprint if and only if they are the same but for
      empty against absent client lists. */
  lemma FingerprintsAgree(svc: Service, a: ChangeIn, b: ChangeIn)
    requires Comparable(svc, a, b) && NoCollision(svc, a, b)
    ensures Fingerprint(svc, a) == Fingerprint(svc, b) <==> SameRequest(a, b)
  {
    ChangeTellsApart(svc.float, a.reason, a.list, b.reason, b.list);
    hide ChangeJson, Proper, AllRates, SameChange;
  }

  /** Under a key that remembers an outcome, another request is refused if and only
      if it differs in more than empty against absent client lists; else it is
      answered with that outcome. */
  lemma ConflictExactly(
    svc: Service, s: App, req: ChangeIn, other: ChangeIn, now: Instant, keyFile: Option<KeyTable>, a: ApplyResult)
    requires Remembers(s.cache, req.idempotencyKey, Fingerprint(svc, req), a)
    requires other.idempotencyKey == req.idempotencyKey && Comparable(svc, req, other) && NoCollision(svc, req, other)
    ensures ApplyStep(svc, s, other, now, keyFile).1 == Applied(Failure(IdempotencyConflict), false) <==>
            !SameRequest(req, other)
    ensures ApplyStep(svc, s, other, now, keyFile).1 == Applied(Success(a), false) <==> SameRequest(req, other)
    ensures PlanStep(svc, s, other, now, keyFile) == (s, Failure(IdempotencyConflict)) <==> !SameRequest(req, other)
  {
    hide ApplyStep, PlanStep, SameRequest, Fingerprint, Comparable, NoCollision;
    FingerprintsAgree(svc, req, other);
    if SameRequest(req, other) {
      EmptyAndAbsentCollide(svc, s, req, other, now, keyFile, a);
      FoundIsNoConflict(svc, s, other, now, keyFile);
    } else {
      OtherRequestRejected(svc, s, other, now, keyFile);
    }
  }

  lemma BuildNeverConflicts(
    svc: Service, active: Option<Snapshot>, req: ChangeIn, now: Instant, keyFile: Option<KeyTable>)
    ensures BuildOn(svc, active, req, now, keyFile) != Failure(IdempotencyConflict)
  {
    hide ApplyOperations, RejectsResetOnly, Normalize, ValidState, CompileFilters, CompileAllow;
    if active.Some? {
      OperationErrors(active.value.canonical, req.Operations());
    }
  }

  lemma FoundIsNoConflict(svc: Service, s: App, req: ChangeIn, now: Instant, keyFile: Option<KeyTable>)
    requires Matches(s.cache, req.idempotencyKey, Fingerprint(svc, req)) && req.idempotencyKey != ""
    ensures PlanStep(svc, s, req, now, keyFile).1 != Failure(IdempotencyConflict)
  {
    BuildNeverConflicts(svc, s.active, req, now, keyFile);
    hide BuildOn, Fingerprint, PlanFrom;
  }

  /** Yet one of them admits every client and the other none, on every document. */
  lemma EmptyAndAbsentDiffer(st: State, op: Operation, seenEmpty: Operation)
    requires op.op == ReplaceAllowClientCidrs && op.allowClientCidrs == None
    requires seenEmpty == op.(allowClientCidrs := Some([]))
    ensures var absent, empty := ApplyOperations(st, [op]), ApplyOperations(st, [seenEmpty]);
            absent.Success? && empty.Success? &&
            Normalize(absent.value).ntp.allowClientCidrs == Some(UNIVERSAL) &&
            Normalize(empty.value).ntp.allowClientCidrs == Some([])
  {
  }

  // ----- exactly once, across whatever comes between

  /** The cache operations a request amounts to. */
  function CacheOps(svc: Service, s: App, r: Request): seq<Recency.Op<Plan, ApplyResult>>
  {
    match r
    case PlanRequest(req, now, keyFile) =>
      var key, fp := req.idempotencyKey, Fingerprint(svc, req);
      var hit := Recency.Lookup(s.cache, key, fp).0;
      [DoLookup(key, fp)] +
      if hit.Conflict? || (hit.Found? && hit.r.plan.Some?) then []
      else
        var cand := BuildCandidate(svc, s, req, now, keyFile);
        if cand.Success? then [DoStorePlan(key, fp, PlanFrom(cand.value))]
        else if cand.error == RevisionConflict then [DoEvict(key)] else []
    case ApplyRequest(req, now, keyFile) =>
      var key, fp := req.idempotencyKey, Fingerprint(svc, req);
      var hit := Recency.Lookup(s.cache, key, fp).0;
      [DoLookup(key, fp)] +
      if hit.Conflict? || (hit.Found? && hit.r.apply.Some?) then []
      else
        var cand := BuildCandidate(svc, s, req, now, keyFile);
        if cand.Success? then [DoStoreApply(key, fp, ResultOf(s, cand.value))]
        else if cand.error == RevisionConflict then [DoEvict(key)] else []
    case ResetRequest(w, reason) => if ResetStep(svc, s, w, reason).1.Success? then [DoClear] else []
    case Query(_) => []
  }

  function ResultOf(s: App, c: Candidate): ApplyResult
  {
    ApplyResult(PlanFrom(c), c.next.generation, c.next.revision, |s.audit| + 1)
  }

  lemma RunOne(cache: Cached, max: nat, op: Recency.Op<Plan, ApplyResult>)
    ensures Recency.Run(cache, max, [op]) == Recency.Step(cache, max, op)
    ensures Recency.Run(cache, max, []) == cache
  {
  }

  lemma RunTwo(cache: Cached, max: nat, op: Recency.Op<Plan, ApplyResult>, next: seq<Recency.Op<Plan, ApplyResult>>)
    ensures Recency.Run(cache, max, [op] + next) == Recency.Run(Recency.Step(cache, max, op), max, next)
  {
  }

  /** A request does to the cache exactly what its operations say. */
  lemma CacheFollows(svc: Service, s: App, r: Request)
    ensures PipelineRuns.Step(svc, s, r).cache == Recency.Run(s.cache, svc.max, CacheOps(svc, s, r))
  {
    hide CacheOps, PlanStep, ApplyStep, ResetStep, Recency.Run;
    match r
    case PlanRequest(req, now, keyFile) => PlanCacheFollows(svc, s, req, now, keyFile);
    case ApplyRequest(req, now, keyFile) => ApplyCacheFollows(svc, s, req, now, keyFile);
    case ResetRequest(w, reason) => ResetCacheFollows(svc, s, w, reason);
    case Query(e) => QueryCacheFollows(svc, s, e);
  }

  lemma QueryCacheFollows(svc: Service, s: App, e: QueryLog.Entry)
    ensures Recency.Run(s.cache, svc.max, CacheOps(svc, s, Query(e))) == s.cache
  {
  }

  lemma ResetCacheFollows(svc: Service, s: App, w: World, reason: string)
    ensures ResetStep(svc, s, w, reason).0.cache ==
            Recency.Run(s.cache, svc.max, CacheOps(svc, s, ResetRequest(w, reason)))
  {
    hide ResetStep, LoadBootstrap, EffectiveNtp, EffectiveMgmt, OldNtp, OldMgmt;
    if ResetStep(svc, s, w, reason).1.Success? {
      ResetInstalls(svc, s, w, reason);
      RunOne(s.cache, svc.max, DoClear);
    } else {
      ResetAllOrNothing(svc, s, w, reason);
    }
  }

  lemma PlanCacheFollows(svc: Service, s: App, req: ChangeIn, now: Instant, keyFile: Option<KeyTable>)
    ensures PlanStep(svc, s, req, now, keyFile).0.cache ==
            Recency.Run(s.cache, svc.max, CacheOps(svc, s, PlanRequest(req, now, keyFile)))
  {
    var key, fp := req.idempotencyKey, Fingerprint(svc, req);
    var ops := CacheOps(svc, s, PlanRequest(req, now, keyFile));
    RunTwo(s.cache, svc.max, DoLookup(key, fp), ops[1..]);
    assert ops == [DoLookup(key, fp)] + ops[1..];
    ConflictMovesNothing(s.cache, key, fp);
    if |ops| > 1 {
      RunOne(Recency.Lookup(s.cache, key, fp).1, svc.max, ops[1]);
      assert ops[1..] == [ops[1]];
    }
    hide BuildCandidate, Fingerprint, Recency.Lookup, StorePlan, Evict, PlanFrom;
  }

  lemma ApplyCacheFollows(svc: Service, s: App, req: ChangeIn, now: Instant, keyFile: Option<KeyTable>)
    ensures ApplyStep(svc, s, req, now, keyFile).0.cache ==
            Recency.Run(s.cache, svc.max, CacheOps(svc, s, ApplyRequest(req, now, keyFile)))
  {
    var key, fp := req.idempotencyKey, Fingerprint(svc, req);
    var ops := CacheOps(svc, s, ApplyRequest(req, now, keyFile));
    RunTwo(s.cache, svc.max, DoLookup(key, fp), ops[1..]);
    assert ops == [DoLookup(key, fp)] + ops[1..];
    ConflictMovesNothing(s.cache, key, fp);
    if |ops| > 1 {
      RunOne(Recency.Lookup(s.cache, key, fp).1, svc.max, ops[1]);
      assert ops[1..] == [ops[1]];
    }
    hide BuildCandidate, Fingerprint, Recency.Lookup, StoreApply, Evict, PlanFrom;
  }

  /** The keys a run of requests uses. */
  function RequestKeys(rs: seq<Request>): set<string>
  {
    if rs == [] then {} else KeyOfRequest(rs[0]) + RequestKeys(rs[1..])
  }

  function KeyOfRequest(r: Request): set<string>
  {
    if r.PlanRequest? || r.ApplyRequest? then {r.req.idempotencyKey} else {}
  }

  /** A request starts with a lookup and does at most one thing more, all of it under
      its own key. */
  lemma OpsOfRequest(svc: Service, s: App, r: Request)
    requires r.ResetRequest? ==> ResetStep(svc, s, r.w, r.reason).1.Failure?
    ensures var ops := CacheOps(svc, s, r);
            |ops| <= 2 && (ops != [] ==> ops[0].DoLookup?) &&
            forall op :: op in ops ==> !op.DoClear? && KeyOf(op) == KeyOfRequest(r)
  {
    hide Fingerprint, BuildCandidate, Recency.Lookup, ResetStep;
  }

  lemma SameFingerprint(svc: Service, a: ChangeIn, b: ChangeIn)
    requires a.reason == b.reason && a.list == b.list
    ensures Fingerprint(svc, a) == Fingerprint(svc, b)
  {
  }
}
