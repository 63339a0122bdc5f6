/** When a plan says what the apply that follows it will do. */
module Agreement {
  import opened Wrappers
  import opened View
  import opened Model
  import opened Snapshot
  import opened Warnings
  import opened Compiler
  import opened Operations
  import opened Recency
  import opened Pipeline
  import opened PipelineRuns
  import opened Idempotence
  import opened Retention
  import NtpTime

  /** No other normalized document has the revision of this one. */
  ghost predicate OwnRevision(svc: Service, d: State)
  {
    forall e :: Normalize(e) == e && svc.env.revision(e) == svc.env.revision(d) ==> e == d
  }

  // ----- the clock does not decide whether a document compiles

  lemma ViewIgnoresTime(ps: Validate.Parsers, f: Filter, ctx: Context, now: Instant)
    ensures CompileFilter(ps, f, ctx).None? <==> CompileFilter(ps, f, ctx.(now := now)).None?
  {
  }

  lemma {:induction false} FiltersIgnoreTime(ps: Validate.Parsers, fs: seq<Filter>, ctx: Context, now: Instant)
    ensures CompileFilters(ps, fs, ctx).None? <==> CompileFilters(ps, fs, ctx.(now := now)).None?
  {
    if fs != [] {
      ViewIgnoresTime(ps, fs[0], ctx, now);
      FiltersIgnoreTime(ps, fs[1..], ctx, now);
    }
    hide CompileFilter;
  }

  lemma CompileIgnoresTime(env: Env, st: State, boot: string, ctx: Context, now: Instant, keyFile: Option<KeyTable>)
    requires Compile(env, st, boot, ctx, keyFile).Success?
    ensures Compile(env, st, boot, ctx.(now := now), keyFile).Success?
  {
    FiltersIgnoreTime(env.ps, Normalize(st).filters, ctx, now);
    hide Normalize, ValidState, CompileFilters, CompileAllow;
  }

  // ----- and only the clamped views of its warnings depend on it

  lemma FilterAlike(ps: Validate.Parsers, f: Filter, ctx: Context, now: Instant)
    requires CompileFilter(ps, f, ctx).Some? && CompileFilter(ps, f, ctx.(now := now)).Some?
    ensures var a, b := CompileFilter(ps, f, ctx).value, CompileFilter(ps, f, ctx.(now := now)).value;
            SameFilters([a], [b]) && a.name == f.name
  {
    hide RateEpoch, ParsePrefixes;
  }

  lemma {:induction false} CompiledAlike(ps: Validate.Parsers, fs: seq<Filter>, ctx: Context, now: Instant)
    requires CompileFilters(ps, fs, ctx).Some? && CompileFilters(ps, fs, ctx.(now := now)).Some?
    ensures var a, b := CompileFilters(ps, fs, ctx).value, CompileFilters(ps, fs, ctx.(now := now)).value;
            SameFilters(a, b) && |a| == |fs| && forall i :: 0 <= i < |fs| ==> a[i].name == fs[i].name
  {
    hide CompileFilter;
    if fs != [] {
      FilterAlike(ps, fs[0], ctx, now);
      CompiledAlike(ps, fs[1..], ctx, now);
      var a, b := CompileFilters(ps, fs, ctx).value, CompileFilters(ps, fs, ctx.(now := now)).value;
      var a1, b1 := CompileFilters(ps, fs[1..], ctx).value, CompileFilters(ps, fs[1..], ctx.(now := now)).value;
      SameAppended([a[0]], [b[0]], a1, b1);
      assert a == [a[0]] + a1 && b == [b[0]] + b1;
    }
  }

  lemma SameAppended(
    a: seq<CompiledFilter>, b: seq<CompiledFilter>, c: seq<CompiledFilter>, d: seq<CompiledFilter>)
    requires SameFilters(a, b) && SameFilters(c, d)
    ensures SameFilters(a + c, b + d)
  {
  }

  /** The counts of clamped views behind two snapshots agree, as CountsAgree has it. */
  predicate ClampedAlike(a: Snapshot, b: Snapshot)
  {
    |a.filters| == |b.filters| && CountsAgree(a.filters, a.compiledAt, b.filters, b.compiledAt, 0, 0)
  }

  /** No view is clamped at the instant of one compile only. */
  predicate ClampedTogether(a: Snapshot, b: Snapshot)
  {
    |a.filters| == |b.filters| && SameClamps(a.filters, a.compiledAt, b.filters, b.compiledAt)
  }

  /** Two compiles of a document on one snapshot warn alike, paths and all, if and only
      if no view is clamped at the instant of one of them only; without the paths, if
      and only if the counts agree. */
  lemma CompilesWarnAlike(env: Env, st: State, boot: string, ctx: Context, now: Instant, keyFile: Option<KeyTable>)
    requires Compile(env, st, boot, ctx, keyFile).Success? && Compile(env, st, boot, ctx.(now := now), keyFile).Success?
    ensures var a := Compile(env, st, boot, ctx, keyFile).value;
            var b := Compile(env, st, boot, ctx.(now := now), keyFile).value;
            (a.warnings == b.warnings <==> ClampedTogether(a, b)) &&
            (Notices(a.warnings) == Notices(b.warnings) <==> ClampedAlike(a, b)) &&
            (ClampedTogether(a, b) ==> ClampedAlike(a, b)) &&
            a.(filters := b.filters, compiledAt := now, warnings := b.warnings) == b
  {
    var n := Normalize(st);
    var fs := CompileFilters(env.ps, n.filters, ctx).value;
    var gs := CompileFilters(env.ps, n.filters, ctx.(now := now)).value;
    CompiledAlike(env.ps, n.filters, ctx, now);
    assert Validate.UniqueNames(n.filters);
    assert NamedOnce(fs);
    hide Normalize, ValidState, CompileFilters, CompileAllow, NamedOnce, SameFilters, CompileWarnings, CountsAgree,
         SameClamps, Notices;
    assert |fs| == |gs| by { SameSize(fs, gs); }
    WarningsAlike(st, fs, ctx.now, gs, now);
    NoticesAlike(st, fs, ctx.now, gs, now);
  }

  lemma SameSize(fs: seq<CompiledFilter>, gs: seq<CompiledFilter>)
    requires SameFilters(fs, gs)
    ensures |fs| == |gs|
  {
  }

  /** A view set to an instant of its own, absolute or frozen, is clamped by that
      instant at every compile alike. */
  lemma SetViewsClampAlike(ps: Validate.Parsers, f: Filter, ctx: Context)
    requires CompileView(ps, f, ctx).Some? && (f.view.mode.Absolute? || f.view.mode.Freeze?)
    ensures var t := ps.time(if f.view.mode.Absolute? then f.view.absolute else f.view.freezeAt);
            t.Some? && (ServedClamped(CompileView(ps, f, ctx).value, ctx.now) <==> NtpTime.Clamped(t.value))
  {
  }

  // ----- plans

  /** The same plan but for its warnings. */
  predicate Alike(p: Plan, q: Plan) { p.(warnings := q.warnings) == q }

  lemma CandidateCompiled(
    svc: Service, prev: Snapshot, req: ChangeIn, now: Instant, later: Instant, keyFile: Option<KeyTable>)
    requires BuildOn(svc, Some(prev), req, now, keyFile).Success?
    ensures var a, b := BuildOn(svc, Some(prev), req, now, keyFile), BuildOn(svc, Some(prev), req, later, keyFile);
            b.Success? && Alike(PlanFrom(a.value), PlanFrom(b.value)) &&
            (PlanFrom(a.value).warnings == PlanFrom(b.value).warnings <==> ClampedAlike(a.value.next, b.value.next)) &&
            (ClampedTogether(a.value.next, b.value.next) ==> ClampedAlike(a.value.next, b.value.next))
  {
    hide Compile, ApplyOperations, RejectsResetOnly, ClampedAlike, ClampedTogether, DiffStates, Notices;
    var after, next := CandidateMade(svc, prev, req, now, keyFile);
    var ctx := Context(now, prev.generation + 1, Some(prev));
    CompileIgnoresTime(svc.env, after, prev.bootstrapRevision, ctx, later, keyFile);
    CompilesWarnAlike(svc.env, after, prev.bootstrapRevision, ctx, later, keyFile);
  }

  /** A request that has a candidate in one state has one in every state with the same
      active snapshot, at any instant, and its plans are the same but for their
      warnings; these are the same too if and only if the counts of clamped views at
      the two instants agree, and so if no view is clamped at one of them only. */
  lemma SameActiveSamePlan(
    svc: Service, s: App, t: App, req: ChangeIn, now: Instant, later: Instant, keyFile: Option<KeyTable>)
    requires t.active == s.active && BuildCandidate(svc, s, req, now, keyFile).Success?
    ensures var a, b := BuildCandidate(svc, s, req, now, keyFile), BuildCandidate(svc, t, req, later, keyFile);
            b.Success? && Alike(PlanFrom(a.value), PlanFrom(b.value)) &&
            (PlanFrom(a.value) == PlanFrom(b.value) <==> ClampedAlike(a.value.next, b.value.next)) &&
            (ClampedTogether(a.value.next, b.value.next) ==> PlanFrom(a.value) == PlanFrom(b.value))
  {
    assert s.active.Some?;
    hide BuildOn, PlanFrom, ClampedAlike, ClampedTogether;
    CandidateCompiled(svc, s.active.value, req, now, later, keyFile);
  }

  // ----- every cached plan was true once

  /** The plan of its own operations on some normalized document, at some instant. */
  ghost predicate TruePlan(svc: Service, p: Plan, boot: string)
  {
    exists d: State :: Normalize(d) == d && PlanOn(svc, p, d, boot)
  }

  ghost predicate PlanOn(svc: Service, p: Plan, d: State, boot: string)
  {
    p.previousRevision == svc.env.revision(d) && ApplyOperations(d, p.operations).Success? &&
    var a := Normalize(ApplyOperations(d, p.operations).value);
    p.candidateRevision == svc.env.revision(a) && p.diff == DiffStates(svc, d, a) &&
    (p.drifted <==> p.candidateRevision != boot) &&
    exists ctx :: WarnsOf(svc.env.ps, ApplyOperations(d, p.operations).value, ctx, p.warnings)
  }

  /** These are the warnings, without their paths, of compiling the document so. */
  ghost predicate WarnsOf(ps: Validate.Parsers, st: State, ctx: Context, ns: seq<Notice>)
  {
    var fs := CompileFilters(ps, Normalize(st).filters, ctx);
    fs.Some? && ns == Notices(CompileWarnings(st, fs.value, ctx.now))
  }

  ghost function Plans(cache: Cached): set<Plan> { set r | r in cache && r.plan.Some? :: r.plan.value }

  ghost predicate CacheTrue(svc: Service, s: App)
  {
    s.active.Some? && forall p :: p in Plans(s.cache) ==> TruePlan(svc, p, s.active.value.bootstrapRevision)
  }

  lemma CompileWarns(env: Env, st: State, boot: string, ctx: Context, keyFile: Option<KeyTable>)
    requires Compile(env, st, boot, ctx, keyFile).Success?
    ensures WarnsOf(env.ps, st, ctx, Notices(Compile(env, st, boot, ctx, keyFile).value.warnings))
  {
    hide Normalize, ValidState, CompileFilters, CompileAllow, CompileWarnings, Notices;
  }

  lemma CandidatePlanTrue(svc: Service, s: App, boot: string, req: ChangeIn, now: Instant, keyFile: Option<KeyTable>)
    requires ValidService(svc) && Inv(svc, s, boot) && BuildCandidate(svc, s, req, now, keyFile).Success?
    ensures s.active.Some?
    ensures PlanOn(svc, PlanFrom(BuildCandidate(svc, s, req, now, keyFile).value), s.active.value.canonical,
                   s.active.value.bootstrapRevision)
    ensures Normalize(s.active.value.canonical) == s.active.value.canonical
  {
    BootRevision(svc, s, boot);
    CandidateIs(svc, s, req, now, keyFile);
    CandidateWarns(svc, s, req, now, keyFile);
    var c := BuildCandidate(svc, s, req, now, keyFile).value;
    assert c.next.revision == svc.env.revision(c.next.canonical);
    hide BuildCandidate, Inv, ApplyOperations, Normalize, FixedPart, DiffStates, ValidState, CompileFilters, WarnsOf,
         Notices;
  }

  lemma CandidateWarns(svc: Service, s: App, req: ChangeIn, now: Instant, keyFile: Option<KeyTable>)
    requires BuildCandidate(svc, s, req, now, keyFile).Success? && s.active.Some?
    ensures var prev := s.active.value;
            ApplyOperations(prev.canonical, req.Operations()).Success? &&
            WarnsOf(svc.env.ps, ApplyOperations(prev.canonical, req.Operations()).value,
                    Context(now, prev.generation + 1, Some(prev)),
                    PlanFrom(BuildCandidate(svc, s, req, now, keyFile).value).warnings)
  {
    hide Compile, ApplyOperations, WarnsOf, BuildOn, Notices, DiffStates;
    var prev := s.active.value;
    var after, next := CandidateMade(svc, prev, req, now, keyFile);
    CompileWarns(svc.env, after, prev.bootstrapRevision, Context(now, prev.generation + 1, Some(prev)), keyFile);
  }

  lemma PlansFront(cache: Cached, i: nat)
    requires i < |cache|
    ensures Plans(ToFront(cache, i)) == Plans(cache) && Plans(Drop(cache, i)) <= Plans(cache)
  {
  }

  lemma PlansSet(cache: Cached, i: nat, r: Record<Plan, ApplyResult>)
    requires i < |cache|
    ensures Plans(cache[i := r]) <= Plans(cache) + Plans([r])
  {
  }

  lemma PlansPush(cache: Cached, max: nat, r: Record<Plan, ApplyResult>)
    ensures Plans(Push(cache, max, r)) <= Plans(cache) + Plans([r])
  {
  }

  /** A cache operation adds no plan but the one it stores. */
  lemma OpPlans(cache: Cached, max: nat, op: Recency.Op<Plan, ApplyResult>)
    ensures Plans(Recency.Step(cache, max, op)) <= Plans(cache) + if op.DoStorePlan? then {op.p} else {}
  {
    match op
    case DoLookup(k, f) => if Matches(cache, k, f) { PlansFront(cache, IndexOf(cache, k)); }
    case DoStorePlan(k, f, p) =>
      if Matches(cache, k, f) {
        var i := IndexOf(cache, k);
        PlansSet(cache, i, cache[i].(plan := Some(p)));
        PlansFront(cache[i := cache[i].(plan := Some(p))], i);
      }
      PlansPush(cache, max, Record(k, f, Some(p), None));
    case DoStoreApply(k, f, a) =>
      if Matches(cache, k, f) {
        var i := IndexOf(cache, k);
        PlansSet(cache, i, cache[i].(apply := Some(a)));
        PlansFront(cache[i := cache[i].(apply := Some(a))], i);
      }
      PlansPush(cache, max, Record(k, f, None, Some(a)));
    case DoEvict(k) => if Has(cache, k) { PlansFront(cache, IndexOf(cache, k)); }
    case DoClear =>
  }

  ghost function Stored(ops: seq<Recency.Op<Plan, ApplyResult>>): set<Plan>
  {
    set op | op in ops && op.DoStorePlan? :: op.p
  }

  lemma {:induction false} OpsPlans(cache: Cached, max: nat, ops: seq<Recency.Op<Plan, ApplyResult>>)
    ensures Plans(Recency.Run(cache, max, ops)) <= Plans(cache) + Stored(ops)
    decreases |ops|
  {
    hide Recency.Step;
    if ops != [] {
      OpPlans(cache, max, ops[0]);
      OpsPlans(Recency.Step(cache, max, ops[0]), max, ops[1..]);
      assert Stored(ops[1..]) <= Stored(ops);
    }
  }

  /** The plan a request adds to the cache. */
  function NewPlans(svc: Service, s: App, r: Request): set<Plan>
  {
    if r.PlanRequest? && BuildCandidate(svc, s, r.req, r.now, r.keyFile).Success?
    then {PlanFrom(BuildCandidate(svc, s, r.req, r.now, r.keyFile).value)} else {}
  }

  lemma StepPlans(svc: Service, s: App, r: Request)
    ensures Plans(PipelineRuns.Step(svc, s, r).cache) <= Plans(s.cache) + NewPlans(svc, s, r)
  {
    CacheFollows(svc, s, r);
    OpsPlans(s.cache, svc.max, CacheOps(svc, s, r));
    StoredIsNew(svc, s, r);
    hide *;
  }

  lemma StoredIsNew(svc: Service, s: App, r: Request)
    ensures Stored(CacheOps(svc, s, r)) <= NewPlans(svc, s, r)
  {
    hide BuildCandidate, Recency.Lookup, Fingerprint, PlanFrom, ResetStep;
  }

  /** A step keeps the bootstrap revision unless it is a Reset, which forgets
      every plan. */
  lemma BootstrapStays(svc: Service, s: App, boot: string, r: Request)
    requires ValidService(svc) && Inv(svc, s, boot)
    ensures var s' := PipelineRuns.Step(svc, s, r);
            s'.active.Some? &&
            (s'.cache == [] || s'.active.value.bootstrapRevision == s.active.value.bootstrapRevision)
  {
    StepKeepsInv(svc, s, boot, r);
    match r
    case PlanRequest(req, now, keyFile) =>
      PlanTouchesCacheOnly(svc, s, req, now, keyFile) by { assert Sound(s.cache, svc.max); }
      hide PlanStep, Inv;
    case ApplyRequest(req, now, keyFile) => ApplyKeepsBootstrap(svc, s, boot, req, now, keyFile);
    case ResetRequest(w, reason) =>
      if ResetStep(svc, s, w, reason).1.Failure? {
        ResetAllOrNothing(svc, s, w, reason);
      } else {
        ResetInstalls(svc, s, w, reason);
      }
      hide ResetStep, Inv;
    case Query(e) => hide Inv;
  }

  lemma ApplyKeepsBootstrap(svc: Service, s: App, boot: string, req: ChangeIn, now: Instant, keyFile: Option<KeyTable>)
    requires ValidService(svc) && Inv(svc, s, boot)
    ensures var s' := ApplyStep(svc, s, req, now, keyFile).0;
            s'.active.Some? && s'.active.value.bootstrapRevision == s.active.value.bootstrapRevision
  {
    BootRevision(svc, s, boot);
    ApplyCases(svc, s, req, now, keyFile);
    if ApplyStep(svc, s, req, now, keyFile).1.fired {
      CandidateIs(svc, s, req, now, keyFile);
      Committed(svc, s, boot, req, now, keyFile);
    }
    hide ApplyStep, BuildCandidate, Inv, SnapshotOk, Sound, Recency.Lookup, Commit;
  }

  lemma NewPlansTrue(svc: Service, s: App, boot: string, r: Request)
    requires ValidService(svc) && Inv(svc, s, boot)
    ensures s.active.Some? && forall p :: p in NewPlans(svc, s, r) ==>
            TruePlan(svc, p, s.active.value.bootstrapRevision)
  {
    hide Inv, BuildCandidate, PlanOn, ValidService, Normalize, PlanFrom, SnapshotOk;
    BootRevision(svc, s, boot);
    if NewPlans(svc, s, r) != {} {
      CandidatePlanTrue(svc, s, boot, r.req, r.now, r.keyFile);
    }
  }

  lemma StepKeepsTrue(svc: Service, s: App, boot: string, r: Request)
    requires ValidService(svc) && Inv(svc, s, boot) && CacheTrue(svc, s)
    ensures CacheTrue(svc, PipelineRuns.Step(svc, s, r))
  {
    hide PipelineRuns.Step, Inv, NewPlans, TruePlan, ValidService;
    var s' := PipelineRuns.Step(svc, s, r);
    StepPlans(svc, s, r);
    BootstrapStays(svc, s, boot, r);
    NewPlansTrue(svc, s, boot, r);
    assert s'.cache == [] ==> Plans(s'.cache) == {};
    hide Plans;
  }

  lemma {:induction false} RunKeepsTrue(svc: Service, s: App, boot: string, rs: seq<Request>)
    requires ValidService(svc) && Inv(svc, s, boot) && CacheTrue(svc, s)
    ensures var t := PipelineRuns.Run(svc, s, rs); Inv(svc, t, boot) && CacheTrue(svc, t)
    decreases |rs|
  {
    hide Inv, ValidService, CacheTrue, PipelineRuns.Step;
    if rs != [] {
      StepKeepsInv(svc, s, boot, rs[0]);
      StepKeepsTrue(svc, s, boot, rs[0]);
      RunKeepsTrue(svc, PipelineRuns.Step(svc, s, rs[0]), boot, rs[1..]);
    }
  }

  // ----- plan, then apply

  /** The plan that answers from the cache instead of one being made. */
  function CachedPlan(svc: Service, s: App, req: ChangeIn): Option<Plan>
  {
    var hit := Recency.Lookup(s.cache, req.idempotencyKey, Fingerprint(svc, req)).0;
    if hit.Found? then hit.r.plan else None
  }

  /** An apply is neither a conflict nor a replay. */
  predicate Unanswered(svc: Service, t: App, req: ChangeIn)
  {
    var hit := Recency.Lookup(t.cache, req.idempotencyKey, Fingerprint(svc, req)).0;
    hit.Miss? || (hit.Found? && hit.r.apply.None?)
  }

  lemma PlanAnswer(svc: Service, s: App, req: ChangeIn, now: Instant, keyFile: Option<KeyTable>)
    requires PlanStep(svc, s, req, now, keyFile).1.Success?
    ensures var p, c := PlanStep(svc, s, req, now, keyFile).1.value, CachedPlan(svc, s, req);
            if c.Some? then p == c.value && p in Plans(s.cache)
            else BuildCandidate(svc, s, req, now, keyFile).Success? &&
                 p == PlanFrom(BuildCandidate(svc, s, req, now, keyFile).value)
  {
    hide Fingerprint, BuildCandidate, PlanFrom;
  }

  /** A Plan that succeeds speaks of the active snapshot if and only if the cache does
      not hold one of another revision for it. */
  lemma PlanSpeaksOfActive(svc: Service, s: App, req: ChangeIn, now: Instant, keyFile: Option<KeyTable>)
    requires s.active.Some? && PlanStep(svc, s, req, now, keyFile).1.Success?
    ensures PlanStep(svc, s, req, now, keyFile).1.value.previousRevision == s.active.value.revision <==>
            !(CachedPlan(svc, s, req).Some? &&
              CachedPlan(svc, s, req).value.previousRevision != s.active.value.revision)
  {
    hide PlanStep, BuildCandidate, CachedPlan, PlanFrom;
    PlanAnswer(svc, s, req, now, keyFile);
    if CachedPlan(svc, s, req).None? {
      OperationsAsked(svc, s, req, now, keyFile);
    }
  }

  lemma ApplyFires(svc: Service, t: App, req: ChangeIn, later: Instant, keyFile: Option<KeyTable>)
    requires Unanswered(svc, t, req) && BuildCandidate(svc, t, req, later, keyFile).Success?
    ensures ApplyStep(svc, t, req, later, keyFile).1.fired
  {
    hide BuildCandidate, Fingerprint, Recency.Lookup, StoreApply, PlanFrom;
  }

  /** Two plans of the same operations on the same revision are the same but for their
      warnings. */
  lemma PlansDetermined(svc: Service, p: Plan, q: Plan, d: State, boot: string)
    requires OwnRevision(svc, d) && PlanOn(svc, q, d, boot) && TruePlan(svc, p, boot)
    requires p.previousRevision == q.previousRevision && p.operations == q.operations
    ensures Alike(p, q)
  {
    hide WarnsOf, Normalize, ApplyOperations, DiffStates;
    var e :| Normalize(e) == e && PlanOn(svc, p, e, boot);
    assert e == d;
  }

  /** Whether a Plan answered so foretells the request's own apply: it was made, or the
      one recalled was made at the active revision and for the same operations. */
  predicate Foretells(svc: Service, s: App, req: ChangeIn)
    requires s.active.Some?
  {
    var c := CachedPlan(svc, s, req);
    c.Some? ==> c.value.previousRevision == s.active.value.revision && c.value.operations == req.Operations()
  }

  /** A Plan and an Apply of the same request with no commit between them. If the
      plan was made and not recalled, the apply goes through, unless the cache answers
      it. Its plan is the one that was given, but for the warnings, if and only if that
      was made or, when recalled, was made at the active revision and for the same
      operations: the fingerprint covers neither the expected revision nor the
      difference between an empty and an absent list. The warnings of a plan that was
      made are the same too if and only if the counts of clamped views at the two
      instants agree. */
  lemma PlanPredictsApply(
    svc: Service, s: App, boot: string, req: ChangeIn, now: Instant, keyFile: Option<KeyTable>,
    t: App, later: Instant, keyFile2: Option<KeyTable>)
    requires ValidService(svc) && Inv(svc, s, boot) && CacheTrue(svc, s) && Inv(svc, t, boot) && t.active == s.active
    requires s.active.Some? && OwnRevision(svc, s.active.value.canonical)
    requires PlanStep(svc, s, req, now, keyFile).1.Success?
    ensures CachedPlan(svc, s, req).None? && Unanswered(svc, t, req) && keyFile2 == keyFile ==>
              ApplyStep(svc, t, req, later, keyFile2).1.fired
    ensures var p, a := PlanStep(svc, s, req, now, keyFile).1.value, ApplyStep(svc, t, req, later, keyFile2).1;
            a.fired ==> a.result.Success? && (Alike(p, a.result.value.plan) <==> Foretells(svc, s, req))
    ensures var p, a := PlanStep(svc, s, req, now, keyFile).1.value, ApplyStep(svc, t, req, later, keyFile2).1;
            a.fired && CachedPlan(svc, s, req).None? && keyFile2 == keyFile ==>
              var c, d := BuildCandidate(svc, s, req, now, keyFile), BuildCandidate(svc, t, req, later, keyFile);
              c.Success? && d.Success? && (p == a.result.value.plan <==> ClampedAlike(c.value.next, d.value.next))
  {
    hide PlanStep, ApplyStep, BuildCandidate, PlanFrom, CachedPlan, Inv, OwnRevision, CacheTrue, ClampedAlike,
         ClampedTogether, Unanswered, Foretells, Alike;
    PlanAnswer(svc, s, req, now, keyFile);
    if CachedPlan(svc, s, req).None? {
      SameActiveSamePlan(svc, s, t, req, now, later, keyFile);
      if Unanswered(svc, t, req) && keyFile2 == keyFile {
        ApplyFires(svc, t, req, later, keyFile);
      }
    }
    if ApplyStep(svc, t, req, later, keyFile2).1.fired {
      ApplyReportsPlan(svc, t, boot, req, later, keyFile2);
      PlanIsForetold(svc, s, boot, req, now, keyFile, t, later, keyFile2);
    }
  }

  lemma PlanIsForetold(
    svc: Service, s: App, boot: string, req: ChangeIn, now: Instant, keyFile: Option<KeyTable>,
    t: App, later: Instant, keyFile2: Option<KeyTable>)
    requires ValidService(svc) && Inv(svc, s, boot) && CacheTrue(svc, s) && Inv(svc, t, boot) && t.active == s.active
    requires s.active.Some? && OwnRevision(svc, s.active.value.canonical)
    requires PlanStep(svc, s, req, now, keyFile).1.Success? && BuildCandidate(svc, t, req, later, keyFile2).Success?
    ensures var q := PlanFrom(BuildCandidate(svc, t, req, later, keyFile2).value);
            Alike(PlanStep(svc, s, req, now, keyFile).1.value, q) <==> Foretells(svc, s, req)
  {
    hide PlanStep, ApplyStep, BuildCandidate, PlanFrom, CachedPlan, Inv, OwnRevision, TruePlan, PlanOn, Plans;
    var p, q := PlanStep(svc, s, req, now, keyFile).1.value,
                PlanFrom(BuildCandidate(svc, t, req, later, keyFile2).value);
    PlanAnswer(svc, s, req, now, keyFile);
    CandidatePlanTrue(svc, t, boot, req, later, keyFile2);
    OperationsAsked(svc, t, req, later, keyFile2);
    if CachedPlan(svc, s, req).None? {
      CandidatePlanTrue(svc, s, boot, req, now, keyFile);
      OperationsAsked(svc, s, req, now, keyFile);
      TrueIsTrue(svc, p, s.active.value.canonical, s.active.value.bootstrapRevision);
    }
    if p.previousRevision == q.previousRevision && p.operations == q.operations {
      PlansDetermined(svc, p, q, t.active.value.canonical, t.active.value.bootstrapRevision);
    }
  }

  lemma TrueIsTrue(svc: Service, p: Plan, d: State, boot: string)
    requires Normalize(d) == d && PlanOn(svc, p, d, boot)
    ensures TruePlan(svc, p, boot)
  {
  }

  lemma OperationsAsked(svc: Service, s: App, req: ChangeIn, now: Instant, keyFile: Option<KeyTable>)
    requires BuildCandidate(svc, s, req, now, keyFile).Success? && s.active.Some?
    ensures var p := PlanFrom(BuildCandidate(svc, s, req, now, keyFile).value);
            p.operations == req.Operations() && p.previousRevision == s.active.value.revision
  {
    hide Compile, ApplyOperations, RejectsResetOnly;
  }

  lemma ApplyReportsPlan(svc: Service, t: App, boot: string, req: ChangeIn, later: Instant, keyFile: Option<KeyTable>)
    requires ValidService(svc) && Inv(svc, t, boot) && ApplyStep(svc, t, req, later, keyFile).1.fired
    ensures BuildCandidate(svc, t, req, later, keyFile).Success?
    ensures var r := ApplyStep(svc, t, req, later, keyFile).1.result;
            r.Success? && r.value.plan == PlanFrom(BuildCandidate(svc, t, req, later, keyFile).value)
  {
    Committed(svc, t, boot, req, later, keyFile);
    hide ApplyStep, BuildCandidate, Inv, ValidService, PlanFrom;
  }

  /** The same over every run: s is any reachable state, and any requests that
      leave the active snapshot in place may come between the two. */
  lemma EveryPlanPredicts(
    svc: Service, st: State, booted: Instant, bootKeys: Option<KeyTable>, rs: seq<Request>,
    req: ChangeIn, now: Instant, keyFile: Option<KeyTable>, between: seq<Request>, later: Instant,
    keyFile2: Option<KeyTable>)
    requires ValidService(svc) && Boot(svc, st, booted, bootKeys).Success?
    requires var s := PipelineRuns.Run(svc, Boot(svc, st, booted, bootKeys).value, rs);
             var (s1, p) := PlanStep(svc, s, req, now, keyFile);
             var t := PipelineRuns.Run(svc, s1, between);
             s.active.Some? && OwnRevision(svc, s.active.value.canonical) && p.Success? && t.active == s.active
    ensures var s := PipelineRuns.Run(svc, Boot(svc, st, booted, bootKeys).value, rs);
            var (s1, p) := PlanStep(svc, s, req, now, keyFile);
            var t := PipelineRuns.Run(svc, s1, between);
            var a := ApplyStep(svc, t, req, later, keyFile2).1;
            (CachedPlan(svc, s, req).None? && Unanswered(svc, t, req) && keyFile2 == keyFile ==> a.fired) &&
            (a.fired ==> a.result.Success? && (Alike(p.value, a.result.value.plan) <==> Foretells(svc, s, req))) &&
            (a.fired && CachedPlan(svc, s, req).None? && keyFile2 == keyFile ==>
               var c, d := BuildCandidate(svc, s, req, now, keyFile), BuildCandidate(svc, t, req, later, keyFile);
               c.Success? && d.Success? &&
               (p.value == a.result.value.plan <==> ClampedAlike(c.value.next, d.value.next)))
  {
    BootHolds(svc, st, booted, bootKeys);
    var s0 := Boot(svc, st, booted, bootKeys).value;
    var boot := s0.active.value.revision;
    assert CacheTrue(svc, s0) by { hide Compile, ValidService, EffectiveMgmt, TruePlan; }
    hide *;
    RunKeepsTrue(svc, s0, boot, rs);
    var s := PipelineRuns.Run(svc, s0, rs);
    PlanKeeps(svc, s, boot, req, now, keyFile);
    var s1 := PlanStep(svc, s, req, now, keyFile).0;
    RunKeepsInv(svc, s1, boot, between);
    PlanPredictsApply(svc, s, boot, req, now, keyFile, PipelineRuns.Run(svc, s1, between), later, keyFile2);
  }

  // ----- a plan asked for again

  /** A cached plan answers whatever revision is expected. */
  lemma RecalledPlan(svc: Service, s: App, req: ChangeIn, now: Instant, keyFile: Option<KeyTable>, p: Plan)
    requires Keeps(s.cache, req.idempotencyKey, Fingerprint(svc, req), Planned(p))
    ensures PlanStep(svc, s, req, now, keyFile).1 == Success(p)
  {
  }

  lemma StoredPlanIsKept(cache: Cached, max: nat, key: string, fp: string, p: Plan)
    requires Sound(cache, max) && max > 0 && key != ""
    ensures Keeps(StorePlan(cache, max, key, fp, p), key, fp, Planned(p)) &&
            Near(StorePlan(cache, max, key, fp, p), key, {})
  {
    PushKeeps(cache, max, Record(key, fp, Some(p), None));
  }

  lemma FoundPlanIsKept(cache: Cached, key: string, fp: string)
    ensures var (hit, c) := Recency.Lookup(cache, key, fp);
            hit.Found? && hit.r.plan.Some? ==> Keeps(c, key, fp, Planned(hit.r.plan.value)) && Near(c, key, {})
  {
  }

  /** Whether made or recalled, a plan given under a key is in the cache from then on. */
  lemma PlanIsKept(svc: Service, s: App, req: ChangeIn, now: Instant, keyFile: Option<KeyTable>)
    requires req.idempotencyKey != "" && Sound(s.cache, svc.max) && svc.max > 0
    requires PlanStep(svc, s, req, now, keyFile).1.Success?
    ensures var (s1, p) := PlanStep(svc, s, req, now, keyFile);
            Keeps(s1.cache, req.idempotencyKey, Fingerprint(svc, req), Planned(p.value)) &&
            Near(s1.cache, req.idempotencyKey, {}) && Sound(s1.cache, svc.max)
  {
    var key, fp := req.idempotencyKey, Fingerprint(svc, req);
    var (hit, cache) := Recency.Lookup(s.cache, key, fp);
    PlanTouchesCacheOnly(svc, s, req, now, keyFile);
    FoundPlanIsKept(s.cache, key, fp);
    LookupSound(s.cache, svc.max, key, fp);
    if !(hit.Found? && hit.r.plan.Some?) {
      StoredPlanIsKept(cache, svc.max, key, fp, PlanStep(svc, s, req, now, keyFile).1.value);
    }
    hide BuildCandidate, Fingerprint, PlanFrom, Recency.Lookup, StorePlan, Keeps, Near, Sound;
  }

  /** A Plan asked for again, whatever revision it expects, after any run that does not
      lose it answers with the first one; that speaks of the active snapshot if and only
      if the revision it was made at is active again or still. While fewer than max keys
      are used only a Reset that succeeds or a stale Apply of the same request without
      a stored outcome can lose it. */
  lemma RepeatedPlan(
    svc: Service, s: App, boot: string, req: ChangeIn, now: Instant, keyFile: Option<KeyTable>,
    rs: seq<Request>, again: ChangeIn, later: Instant, keyFile2: Option<KeyTable>)
    requires ValidService(svc) && Inv(svc, s, boot) && req.idempotencyKey != ""
    requires PlanStep(svc, s, req, now, keyFile).1.Success?
    requires again == req.(expectedRevision := again.expectedRevision)
    ensures var (s1, first) := PlanStep(svc, s, req, now, keyFile);
            var t, key, fp := PipelineRuns.Run(svc, s1, rs), req.idempotencyKey, Fingerprint(svc, req);
            s.active.Some? && t.active.Some? &&
            (!Loses(svc, s1, rs, key, fp) ==> PlanStep(svc, t, again, later, keyFile2).1 == first) &&
            (CachedPlan(svc, s, req).None? ==>
               (first.value.previousRevision == t.active.value.revision <==>
                t.active.value.revision == s.active.value.revision)) &&
            (|RequestKeys(rs)| < svc.max ==> (Loses(svc, s1, rs, key, fp) <==> Spoiled(svc, s1, rs, key, fp)))
  {
    hide *;
    InvHas(svc, s, boot);
    var (s1, first) := PlanStep(svc, s, req, now, keyFile);
    var key, fp := req.idempotencyKey, Fingerprint(svc, req);
    PlanIsKept(svc, s, req, now, keyFile);
    PlanAnswer(svc, s, req, now, keyFile);
    if CachedPlan(svc, s, req).None? {
      OperationsAsked(svc, s, req, now, keyFile);
    }
    PlanKeeps(svc, s, boot, req, now, keyFile);
    RunKeepsInv(svc, s1, boot, rs);
    InvHas(svc, PipelineRuns.Run(svc, s1, rs), boot);
    KeptExactly(svc, s1, rs, key, fp, Planned(first.value));
    assert {} + RequestKeys(rs) == RequestKeys(rs);
    if |RequestKeys(rs)| < svc.max {
      FewKeysLoseNothing(svc, s1, rs, key, fp, Planned(first.value), {});
    }
    SameFingerprint(svc, req, again);
    if !Loses(svc, s1, rs, key, fp) {
      RecalledPlan(svc, PipelineRuns.Run(svc, s1, rs), again, later, keyFile2, first.value);
    }
  }

  lemma InvHas(svc: Service, s: App, boot: string)
    requires ValidService(svc) && Inv(svc, s, boot)
    ensures s.active.Some? && Sound(s.cache, svc.max) && svc.max > 0
  {
  }

  /** The failing family: once a Plan under a key has been made and any run that leaves
      it in the cache has ended at another revision, asking for it again at that
      revision still answers with the plan made at the old one. */
  lemma RecalledPlanIsStale(
    svc: Service, s: App, boot: string, req: ChangeIn, now: Instant, keyFile: Option<KeyTable>,
    rs: seq<Request>, again: ChangeIn, later: Instant, keyFile2: Option<KeyTable>)
    requires ValidService(svc) && Inv(svc, s, boot) && req.idempotencyKey != "" && CachedPlan(svc, s, req).None?
    requires PlanStep(svc, s, req, now, keyFile).1.Success? && s.active.Some?
    requires again == req.(expectedRevision := again.expectedRevision)
    requires var s1 := PlanStep(svc, s, req, now, keyFile).0;
             var t := PipelineRuns.Run(svc, s1, rs);
             !Loses(svc, s1, rs, req.idempotencyKey, Fingerprint(svc, req)) && t.active.Some? &&
             again.expectedRevision == t.active.value.revision != s.active.value.revision
    ensures var (s1, first) := PlanStep(svc, s, req, now, keyFile);
            PlanStep(svc, PipelineRuns.Run(svc, s1, rs), again, later, keyFile2).1 == first &&
            first.value.previousRevision != again.expectedRevision
  {
    hide *;
    RepeatedPlan(svc, s, boot, req, now, keyFile, rs, again, later, keyFile2);
  }
}
