/** When an answer in the cache can be lost: the outcome of an apply, or a plan. */
module Retention {
  import opened Wrappers
  import opened View
  import opened Model
  import opened Snapshot
  import opened Compiler
  import opened Operations
  import opened Recency
  import opened Pipeline
  import opened PipelineRuns
  import opened Idempotence

  /** A request is stale when it expects a revision other than the active one. */
  predicate Stale(s: App, req: ChangeIn)
  {
    s.active.Some? && req.expectedRevision != "" && req.expectedRevision != s.active.value.revision
  }

  lemma ConflictMeansStale(svc: Service, s: App, req: ChangeIn, now: Instant, keyFile: Option<KeyTable>)
    ensures BuildCandidate(svc, s, req, now, keyFile) == Failure(RevisionConflict) <==> Stale(s, req)
  {
    if s.active.Some? {
      OperationErrors(s.active.value.canonical, req.Operations());
    }
    hide ApplyOperations, RejectsResetOnly, Normalize, ValidState, CompileFilters, CompileAllow;
  }

  lemma LookupStillKeeps(cache: Cached, k: string, f: string, key: string, fp: string, ans: Answer)
    requires Distinct(cache) && Keeps(cache, key, fp, ans)
    ensures var c := Recency.Lookup(cache, k, f).1; Distinct(c) && Keeps(c, key, fp, ans)
  {
    var i := IndexOf(cache, key);
    if k != "" && Matches(cache, k, f) {
      var j := FrontBehind(cache, IndexOf(cache, k), i, cache[i], KeysBefore(cache, i));
      FrontKeeps(cache, IndexOf(cache, k), |cache|);
      IndexIs(ToFront(cache, IndexOf(cache, k)), j);
    }
  }

  ghost function KeysBefore(cache: Cached, i: nat): set<string>
    requires i <= |cache|
  {
    set j | 0 <= j < i :: cache[j].key
  }

  lemma DropStillKeeps(cache: Cached, k: nat, key: string, fp: string, ans: Answer)
    requires Distinct(cache) && Keeps(cache, key, fp, ans) && k < |cache| && cache[k].key != key
    ensures Distinct(Drop(cache, k)) && Keeps(Drop(cache, k), key, fp, ans)
  {
    var i := IndexOf(cache, key);
    DropBehind(cache, k, i, cache[i], KeysBefore(cache, i));
    DropKeeps(cache, k);
    IndexIs(Drop(cache, k), if k < i then i - 1 else i);
  }

  lemma ForgetStillKeeps(cache: Cached, k: string, key: string, fp: string, ans: Answer)
    requires Distinct(cache) && Keeps(cache, key, fp, ans) && k != key
    ensures Distinct(Forget(cache, k)) && Keeps(Forget(cache, k), key, fp, ans)
  {
    if Has(cache, k) {
      DropStillKeeps(cache, IndexOf(cache, k), key, fp, ans);
    }
  }

  /** A push of another key loses the outcome exactly if it was last in a full
      cache and the pushed key is new. */
  lemma PushForgets(cache: Cached, max: nat, r: Record<Plan, ApplyResult>, key: string, fp: string, ans: Answer)
    requires Sound(cache, max) && Keeps(cache, key, fp, ans) && r.key != key
    ensures !Keeps(Push(cache, max, r), key, fp, ans) <==> LastOfFull(cache, max, key) && !Has(cache, r.key)
  {
    ForgetStillKeeps(cache, r.key, key, fp, ans);
    var rest := Forget(cache, r.key);
    var i := IndexOf(rest, key);
    var whole := [r] + rest;
    assert whole[i + 1] == rest[i];
    PushKeeps(cache, max, r);
    if i + 1 < max {
      assert Push(cache, max, r)[i + 1] == rest[i];
      IndexIs(Push(cache, max, r), i + 1);
    } else {
      if Has(cache, r.key) {
        DropKeeps(cache, IndexOf(cache, r.key));
      }
      NotFirst(Push(cache, max, r), rest, key);
    }
  }

  /** Nobody in front of a key's own position holds the key. */
  lemma NotFirst(pushed: Cached, rest: Cached, key: string)
    requires 0 < |pushed| <= IndexOf(rest, key) + 1 && pushed[0].key != key
    requires forall j :: 1 <= j < |pushed| ==> pushed[j] == rest[j - 1]
    ensures !Has(pushed, key)
  {
  }

  /** An update of another key's entry moves it to the front and loses nothing. */
  lemma UpdateStillKeeps(
    cache: Cached, x: nat, r: Record<Plan, ApplyResult>, key: string, fp: string, ans: Answer)
    requires Distinct(cache) && Keeps(cache, key, fp, ans) && x < |cache|
    requires r.key == cache[x].key && r.fp == cache[x].fp && (r.key == key ==> Holds(r, ans))
    ensures Keeps(ToFront(cache[x := r], x), key, fp, ans)
  {
    var i := IndexOf(cache, key);
    var c := cache[x := r];
    IndexIs(c, i);
    var j := FrontBehind(c, x, i, c[i], KeysBefore(c, i));
    FrontKeeps(c, x, |c|);
    IndexIs(ToFront(c, x), j);
  }

  /** When a request makes the cache forget what it keeps under key and fp. */
  predicate Forgets(svc: Service, s: App, r: Request, key: string, fp: string)
  {
    Spoils(svc, s, r, key, fp) || Crowded(svc, s, r, key)
  }

  /** A Reset that succeeds, or a request under the key that is the same but stale and
      not answered from the cache: it evicts its entry. */
  predicate Spoils(svc: Service, s: App, r: Request, key: string, fp: string)
  {
    match r
    case ResetRequest(w, reason) => ResetStep(svc, s, w, reason).1.Success?
    case PlanRequest(req, _, _) =>
      req.idempotencyKey == key && Fingerprint(svc, req) == fp && Stale(s, req) && !PlanKept(s.cache, key)
    case ApplyRequest(req, _, _) =>
      req.idempotencyKey == key && Fingerprint(svc, req) == fp && Stale(s, req) && !OutcomeKept(s.cache, key)
    case Query(_) => false
  }

  /** The entry also holds a plan. */
  predicate PlanKept(cache: Cached, key: string) { Has(cache, key) && cache[IndexOf(cache, key)].plan.Some? }

  predicate OutcomeKept(cache: Cached, key: string) { Has(cache, key) && cache[IndexOf(cache, key)].apply.Some? }

  predicate Crowded(svc: Service, s: App, r: Request, key: string)
  {
    (r.PlanRequest? || r.ApplyRequest?) && r.req.idempotencyKey != key && Crowds(svc, s, r.req, r.now, r.keyFile, key)
  }

  predicate LastOfFull(cache: Cached, max: nat, key: string) { |cache| == max > 0 && cache[max - 1].key == key }

  /** The request stores an entry under a new key in a full cache that holds the
      old key last. */
  predicate Crowds(svc: Service, s: App, req: ChangeIn, now: Instant, keyFile: Option<KeyTable>, key: string)
  {
    LastOfFull(s.cache, svc.max, key) && req.idempotencyKey != "" && !Has(s.cache, req.idempotencyKey) &&
    BuildCandidate(svc, s, req, now, keyFile).Success?
  }

  /** The cache a Plan leaves, case by case. */
  lemma PlanCache(svc: Service, s: App, req: ChangeIn, now: Instant, keyFile: Option<KeyTable>)
    ensures var k, f := req.idempotencyKey, Fingerprint(svc, req);
            var (hit, cache) := Recency.Lookup(s.cache, k, f);
            var cand := BuildCandidate(svc, s, req, now, keyFile);
            PlanStep(svc, s, req, now, keyFile).0.cache ==
            if hit.Conflict? then s.cache
            else if hit.Found? && hit.r.plan.Some? then cache
            else if cand.Failure? then (if cand.error == RevisionConflict then Evict(cache, k) else cache)
            else StorePlan(cache, svc.max, k, f, PlanFrom(cand.value))
  {
  }

  lemma PlanForgets(
    svc: Service, s: App, req: ChangeIn, now: Instant, keyFile: Option<KeyTable>,
    key: string, fp: string, ans: Answer)
    requires Sound(s.cache, svc.max) && Keeps(s.cache, key, fp, ans)
    ensures !Keeps(PlanStep(svc, s, req, now, keyFile).0.cache, key, fp, ans) <==>
            Forgets(svc, s, PlanRequest(req, now, keyFile), key, fp)
  {
    var k, f := req.idempotencyKey, Fingerprint(svc, req);
    var cand := BuildCandidate(svc, s, req, now, keyFile);
    PlanCache(svc, s, req, now, keyFile);
    ConflictMeansStale(svc, s, req, now, keyFile);
    hide PlanStep, BuildCandidate, Fingerprint, Stale, PlanFrom;
    LookupFacts(s.cache, svc.max, k, f, key, fp, ans);
    hide Keeps, Recency.Lookup, Sound, Matches, Evict, StorePlan, Has, LastOfFull, PlanKept, OutcomeKept;
    var (hit, cache) := Recency.Lookup(s.cache, k, f);
    if !hit.Conflict? && !(hit.Found? && hit.r.plan.Some?) {
      if cand.Failure? {
        EvictForgets(cache, k, key, fp, ans);
      } else {
        StorePlanForgets(cache, svc.max, k, f, PlanFrom(cand.value), key, fp, ans);
      }
    }
  }

  /** A lookup loses nothing, and what it answers tells whose key it was. */
  lemma LookupFacts(cache: Cached, max: nat, k: string, f: string, key: string, fp: string, ans: Answer)
    requires Sound(cache, max) && Keeps(cache, key, fp, ans)
    ensures var (hit, c) := Recency.Lookup(cache, k, f);
            Sound(c, max) && Distinct(c) && Keeps(c, key, fp, ans) && (!hit.Found? ==> c == cache) &&
            (hit.Found? ==> k != "" && Has(cache, k) && Has(c, k)) && (hit.Conflict? ==> Has(cache, k)) &&
            (hit.Miss? ==> k == "" || !Has(cache, k))
    ensures var hit := Recency.Lookup(cache, k, f).0;
            (k == key ==> if f == fp then hit.Found? && Holds(hit.r, ans) else hit.Conflict?) &&
            (k == key && hit.Found? ==>
               (hit.r.plan.Some? <==> PlanKept(cache, key)) && (hit.r.apply.Some? <==> OutcomeKept(cache, key)))
  {
    LookupStillKeeps(cache, k, f, key, fp, ans);
    LookupSound(cache, max, k, f);
    LookupResult(cache, k, f);
  }

  /** What a lookup answers, and that one that finds nothing moves nothing. */
  lemma LookupResult(cache: Cached, k: string, f: string)
    requires Distinct(cache)
    ensures var (hit, c) := Recency.Lookup(cache, k, f);
            (hit.Found? ==> Matches(c, k, f)) && (!hit.Found? ==> c == cache) &&
            (hit.Conflict? <==> k != "" && Has(cache, k) && !Matches(cache, k, f)) &&
            (hit.Miss? <==> k == "" || !Has(cache, k))
  {
  }

  lemma EvictForgets(cache: Cached, k: string, key: string, fp: string, ans: Answer)
    requires Distinct(cache) && Keeps(cache, key, fp, ans)
    ensures Keeps(Evict(cache, k), key, fp, ans) <==> k != key
  {
    if k != key {
      ForgetStillKeeps(cache, k, key, fp, ans);
    } else {
      DropKeeps(cache, IndexOf(cache, key));
    }
  }

  lemma StorePlanForgets(
    cache: Cached, max: nat, k: string, f: string, p: Plan, key: string, fp: string, ans: Answer)
    requires Sound(cache, max) && Keeps(cache, key, fp, ans) && (k == key ==> f == fp && ans.Outcome?)
    ensures !Keeps(StorePlan(cache, max, k, f, p), key, fp, ans) <==>
            k != "" && k != key && LastOfFull(cache, max, key) && !Has(cache, k)
  {
    if k != "" {
      if Matches(cache, k, f) {
        var x := IndexOf(cache, k);
        UpdateStillKeeps(cache, x, cache[x].(plan := Some(p)), key, fp, ans);
      } else {
        PushForgets(cache, max, Record(k, f, Some(p), None), key, fp, ans);
      }
    }
  }

  lemma StoreApplyForgets(
    cache: Cached, max: nat, k: string, f: string, b: ApplyResult, key: string, fp: string, ans: Answer)
    requires Sound(cache, max) && Keeps(cache, key, fp, ans) && (k == key ==> f == fp && ans.Planned?)
    ensures !Keeps(StoreApply(cache, max, k, f, b), key, fp, ans) <==>
            k != "" && k != key && LastOfFull(cache, max, key) && !Has(cache, k)
  {
    if k != "" {
      if Matches(cache, k, f) {
        var x := IndexOf(cache, k);
        UpdateStillKeeps(cache, x, cache[x].(apply := Some(b)), key, fp, ans);
      } else {
        PushForgets(cache, max, Record(k, f, None, Some(b)), key, fp, ans);
      }
    }
  }

  /** The cache an Apply leaves, case by case. */
  lemma ApplyCache(svc: Service, s: App, req: ChangeIn, now: Instant, keyFile: Option<KeyTable>)
    ensures var k, f := req.idempotencyKey, Fingerprint(svc, req);
            var (hit, cache) := Recency.Lookup(s.cache, k, f);
            var cand := BuildCandidate(svc, s, req, now, keyFile);
            ApplyStep(svc, s, req, now, keyFile).0.cache ==
            if hit.Conflict? then s.cache
            else if hit.Found? && hit.r.apply.Some? then cache
            else if cand.Failure? then (if cand.error == RevisionConflict then Evict(cache, k) else cache)
            else StoreApply(cache, svc.max, k, f, ResultOf(s, cand.value))
  {
  }

  lemma ApplyForgets(
    svc: Service, s: App, req: ChangeIn, now: Instant, keyFile: Option<KeyTable>,
    key: string, fp: string, ans: Answer)
    requires Sound(s.cache, svc.max) && Keeps(s.cache, key, fp, ans)
    ensures !Keeps(ApplyStep(svc, s, req, now, keyFile).0.cache, key, fp, ans) <==>
            Forgets(svc, s, ApplyRequest(req, now, keyFile), key, fp)
  {
    var k, f := req.idempotencyKey, Fingerprint(svc, req);
    var cand := BuildCandidate(svc, s, req, now, keyFile);
    ApplyCache(svc, s, req, now, keyFile);
    ConflictMeansStale(svc, s, req, now, keyFile);
    hide ApplyStep, BuildCandidate, Fingerprint, Stale, ResultOf;
    LookupFacts(s.cache, svc.max, k, f, key, fp, ans);
    hide Keeps, Recency.Lookup, Sound, Matches, Evict, StoreApply, Has, LastOfFull, PlanKept, OutcomeKept;
    var (hit, cache) := Recency.Lookup(s.cache, k, f);
    if !hit.Conflict? && !(hit.Found? && hit.r.apply.Some?) {
      if cand.Failure? {
        EvictForgets(cache, k, key, fp, ans);
      } else {
        StoreApplyForgets(cache, svc.max, k, f, ResultOf(s, cand.value), key, fp, ans);
      }
    }
  }

  /** An outcome or a plan in the cache is lost exactly to a successful Reset, to
      capacity when its entry is the least recently used of a full cache and a new key
      comes in with a candidate, or to a Plan or Apply of the same request that expects
      a stale revision and is not itself answered from the cache. */
  lemma LostOnlyBy(svc: Service, s: App, r: Request, key: string, fp: string, ans: Answer)
    requires Sound(s.cache, svc.max) && Keeps(s.cache, key, fp, ans)
    ensures !Keeps(PipelineRuns.Step(svc, s, r).cache, key, fp, ans) <==> Forgets(svc, s, r, key, fp)
  {
    match r
    case PlanRequest(req, now, keyFile) =>
      PlanForgets(svc, s, req, now, keyFile, key, fp, ans);
      hide Forgets, PlanStep, Keeps;
    case ApplyRequest(req, now, keyFile) =>
      ApplyForgets(svc, s, req, now, keyFile, key, fp, ans);
      hide Forgets, ApplyStep, Keeps;
    case ResetRequest(w, reason) =>
      ResetForgets(svc, s, w, reason, key, fp, ans);
      hide ResetStep, Keeps;
    case Query(e) =>
  }

  lemma ResetForgets(svc: Service, s: App, w: World, reason: string, key: string, fp: string, ans: Answer)
    requires Keeps(s.cache, key, fp, ans)
    ensures !Keeps(ResetStep(svc, s, w, reason).0.cache, key, fp, ans) <==> ResetStep(svc, s, w, reason).1.Success?
  {
    if ResetStep(svc, s, w, reason).1.Failure? {
      ResetAllOrNothing(svc, s, w, reason);
    } else {
      ResetInstalls(svc, s, w, reason);
    }
    hide ResetStep;
  }

  // ----- over runs

  lemma StepSound(svc: Service, s: App, r: Request)
    requires Sound(s.cache, svc.max)
    ensures Sound(PipelineRuns.Step(svc, s, r).cache, svc.max)
  {
    CacheFollows(svc, s, r);
    RunKeeps(s.cache, svc.max, CacheOps(svc, s, r));
    hide *;
  }

  /** Some request of the run makes the cache forget. */
  predicate Loses(svc: Service, s: App, rs: seq<Request>, key: string, fp: string)
    decreases |rs|
  {
    rs != [] && (Forgets(svc, s, rs[0], key, fp) || Loses(svc, PipelineRuns.Step(svc, s, rs[0]), rs[1..], key, fp))
  }

  predicate KeptThroughout(svc: Service, s: App, rs: seq<Request>, key: string, fp: string, ans: Answer)
    decreases |rs|
  {
    Keeps(s.cache, key, fp, ans) &&
    (rs == [] || KeptThroughout(svc, PipelineRuns.Step(svc, s, rs[0]), rs[1..], key, fp, ans))
  }

  /** An answer is kept all through a run if and only if no request of it forgets. */
  lemma {:induction false} KeptExactly(
    svc: Service, s: App, rs: seq<Request>, key: string, fp: string, ans: Answer)
    requires Sound(s.cache, svc.max) && Keeps(s.cache, key, fp, ans)
    ensures KeptThroughout(svc, s, rs, key, fp, ans) <==> !Loses(svc, s, rs, key, fp)
    ensures !Loses(svc, s, rs, key, fp) ==> Keeps(PipelineRuns.Run(svc, s, rs).cache, key, fp, ans)
    decreases |rs|
  {
    hide Sound, Keeps, PipelineRuns.Step, Forgets;
    if rs != [] {
      LostOnlyBy(svc, s, rs[0], key, fp, ans);
      StepSound(svc, s, rs[0]);
      if !Forgets(svc, s, rs[0], key, fp) {
        KeptExactly(svc, PipelineRuns.Step(svc, s, rs[0]), rs[1..], key, fp, ans);
      } else if rs[1..] != [] {
        NotKept(svc, PipelineRuns.Step(svc, s, rs[0]), rs[1..], key, fp, ans);
      }
    }
  }

  lemma NotKept(svc: Service, s: App, rs: seq<Request>, key: string, fp: string, ans: Answer)
    requires !Keeps(s.cache, key, fp, ans)
    ensures !KeptThroughout(svc, s, rs, key, fp, ans)
  {
  }

  // ----- while few keys are in use

  /** Every entry in front of the key's own was touched since. */
  ghost predicate Near(cache: Cached, key: string, touched: set<string>)
  {
    Has(cache, key) && Behind(cache, IndexOf(cache, key), cache[IndexOf(cache, key)], touched)
  }

  lemma BehindIsNear(cache: Cached, i: nat, r: Record<Plan, ApplyResult>, touched: set<string>)
    requires Distinct(cache) && Behind(cache, i, r, touched)
    ensures Near(cache, r.key, touched)
  {
    IndexIs(cache, i);
  }

  lemma FrontNear(cache: Cached, i: nat, key: string, touched: set<string>)
    requires Distinct(cache) && i < |cache| && Near(cache, key, touched)
    ensures Near(ToFront(cache, i), key, touched + {cache[i].key})
  {
    var k := IndexOf(cache, key);
    var j := FrontBehind(cache, i, k, cache[k], touched);
    FrontKeeps(cache, i, |cache|);
    BehindIsNear(ToFront(cache, i), j, cache[k], touched + {cache[i].key});
  }

  lemma UpdateNear(cache: Cached, i: nat, r: Record<Plan, ApplyResult>, key: string, touched: set<string>)
    requires Distinct(cache) && i < |cache| && r.key == cache[i].key && Near(cache, key, touched)
    ensures Distinct(cache[i := r]) && Near(cache[i := r], key, touched)
  {
    var k := IndexOf(cache, key);
    BehindIsNear(cache[i := r], k, cache[i := r][k], touched);
  }

  lemma PushNear(cache: Cached, max: nat, r: Record<Plan, ApplyResult>, key: string, touched: set<string>)
    requires Sound(cache, max) && Near(cache, key, touched) && |touched + {r.key}| < max
    ensures Near(Push(cache, max, r), key, touched + {r.key})
  {
    PushKeeps(cache, max, r);
    if r.key == key {
      BehindIsNear(Push(cache, max, r), 0, r, touched + {r.key});
    } else {
      var k := IndexOf(cache, key);
      var j := PushBehind(cache, max, r, k, cache[k], touched);
      BehindIsNear(Push(cache, max, r), j, cache[k], touched + {r.key});
    }
  }

  lemma ForgetNear(cache: Cached, k: string, key: string, touched: set<string>)
    requires Distinct(cache) && Near(cache, key, touched) && k != key
    ensures Near(Forget(cache, k), key, touched)
  {
    if Has(cache, k) {
      var i, x := IndexOf(cache, key), IndexOf(cache, k);
      DropBehind(cache, x, i, cache[i], touched);
      DropKeeps(cache, x);
      BehindIsNear(Drop(cache, x), if x < i then i - 1 else i, cache[i], touched);
    }
  }

  /** A cache operation moves another key's entry back by no more than its own key. */
  lemma OpNear(cache: Cached, max: nat, op: Recency.Op<Plan, ApplyResult>, key: string, touched: set<string>)
    requires Sound(cache, max) && Near(cache, key, touched) && !op.DoClear? && op != Recency.DoEvict(key)
    requires |touched + {op.key}| < max
    ensures Sound(Recency.Step(cache, max, op), max)
    ensures Near(Recency.Step(cache, max, op), key, touched + {op.key})
  {
    StepKeeps(cache, max, op);
    hide Near, Sound;
    var i := IndexOf(cache, op.key);
    NearWidens(cache, key, touched, {op.key});
    match op {
      case DoLookup(k, f) =>
        if Matches(cache, k, f) {
          FrontNear(cache, i, key, touched) by { SoundIsDistinct(cache, max); }
        }
      case DoStorePlan(k, f, p) =>
        if Matches(cache, k, f) {
          SoundIsDistinct(cache, max);
          UpdateNear(cache, i, cache[i].(plan := Some(p)), key, touched);
          FrontNear(cache[i := cache[i].(plan := Some(p))], i, key, touched);
        } else {
          PushNear(cache, max, Record(k, f, Some(p), None), key, touched);
        }
      case DoStoreApply(k, f, a) =>
        if Matches(cache, k, f) {
          SoundIsDistinct(cache, max);
          UpdateNear(cache, i, cache[i].(apply := Some(a)), key, touched);
          FrontNear(cache[i := cache[i].(apply := Some(a))], i, key, touched);
        } else {
          PushNear(cache, max, Record(k, f, None, Some(a)), key, touched);
        }
      case DoEvict(k) =>
        SoundIsDistinct(cache, max);
        ForgetNear(cache, k, key, touched + {k});
    }
  }

  lemma SoundIsDistinct(cache: Cached, max: nat)
    requires Sound(cache, max)
    ensures Distinct(cache)
  {
  }

  lemma NearWidens(cache: Cached, key: string, touched: set<string>, more: set<string>)
    requires Near(cache, key, touched)
    ensures Near(cache, key, touched + more)
  {
  }

  lemma StepNear(svc: Service, s: App, r: Request, key: string, fp: string, ans: Answer, touched: set<string>)
    requires Sound(s.cache, svc.max) && Keeps(s.cache, key, fp, ans) && Near(s.cache, key, touched)
    requires !Forgets(svc, s, r, key, fp) && |touched + KeyOfRequest(r)| < svc.max
    ensures Near(PipelineRuns.Step(svc, s, r).cache, key, touched + KeyOfRequest(r))
  {
    var ops := CacheOps(svc, s, r);
    LostOnlyBy(svc, s, r, key, fp, ans);
    assert r.ResetRequest? ==> ResetStep(svc, s, r.w, r.reason).1.Failure?;
    OpsOfRequest(svc, s, r);
    CacheFollows(svc, s, r);
    hide PipelineRuns.Step, CacheOps, Forgets, ResetStep;
    if ops == [] {
      NearWidens(s.cache, key, touched, KeyOfRequest(r));
    } else {
      assert ops[0] in ops;
      OpNear(s.cache, svc.max, ops[0], key, touched);
      var c := Recency.Step(s.cache, svc.max, ops[0]);
      if |ops| == 1 {
        RunOne(s.cache, svc.max, ops[0]);
        assert ops == [ops[0]];
      } else {
        assert ops[1] in ops && ops == [ops[0], ops[1]];
        RunPair(s.cache, svc.max, ops[0], ops[1]);
        if ops[1] == Recency.DoEvict(key) {
          EvictDrops(c, svc.max, key);
        }
        assert touched + KeyOfRequest(r) + KeyOfRequest(r) == touched + KeyOfRequest(r);
        OpNear(c, svc.max, ops[1], key, touched + KeyOfRequest(r));
      }
    }
  }

  lemma RunPair(cache: Cached, max: nat, a: Recency.Op<Plan, ApplyResult>, b: Recency.Op<Plan, ApplyResult>)
    ensures Recency.Run(cache, max, [a, b]) == Recency.Step(Recency.Step(cache, max, a), max, b)
  {
    RunTwo(cache, max, a, [b]);
    RunOne(Recency.Step(cache, max, a), max, b);
    assert [a] + [b] == [a, b];
  }

  lemma EvictDrops(cache: Cached, max: nat, key: string)
    requires Sound(cache, max) && key != ""
    ensures !Has(Recency.Step(cache, max, Recency.DoEvict(key)), key)
  {
    if Has(cache, key) {
      DropKeeps(cache, IndexOf(cache, key));
    }
  }

  /** With fewer keys touched than the cache has room for, none can be crowded out. */
  lemma NearIsNotCrowded(svc: Service, s: App, r: Request, key: string, touched: set<string>)
    requires Sound(s.cache, svc.max) && Near(s.cache, key, touched) && |touched + KeyOfRequest(r)| < svc.max
    ensures !Crowded(svc, s, r, key)
  {
    if Crowded(svc, s, r, key) {
      var k := r.req.idempotencyKey;
      IndexIs(s.cache, svc.max - 1);
      WithAndWithout(touched, k);
      FrontIsTouched(s.cache, svc.max - 1, touched - {k});
    }
  }

  lemma WithAndWithout(s: set<string>, k: string)
    ensures |s + {k}| == |s - {k}| + 1
  {
    assert s + {k} == (s - {k}) + {k};
  }

  /** Some request of the run spoils the entry. */
  predicate Spoiled(svc: Service, s: App, rs: seq<Request>, key: string, fp: string)
    decreases |rs|
  {
    rs != [] && (Spoils(svc, s, rs[0], key, fp) || Spoiled(svc, PipelineRuns.Step(svc, s, rs[0]), rs[1..], key, fp))
  }

  /** A run that uses fewer than max keys loses nothing to capacity. */
  lemma {:induction false} FewKeysLoseNothing(
    svc: Service, s: App, rs: seq<Request>, key: string, fp: string, ans: Answer, touched: set<string>)
    requires Sound(s.cache, svc.max) && Keeps(s.cache, key, fp, ans) && Near(s.cache, key, touched)
    requires |touched + RequestKeys(rs)| < svc.max
    ensures Loses(svc, s, rs, key, fp) <==> Spoiled(svc, s, rs, key, fp)
    decreases |rs|
  {
    hide Sound, Keeps, Near, PipelineRuns.Step, Spoils, Crowded;
    if rs != [] {
      var more := touched + KeyOfRequest(rs[0]);
      assert more + RequestKeys(rs[1..]) == touched + RequestKeys(rs);
      SubsetSize(more, touched + RequestKeys(rs));
      NearIsNotCrowded(svc, s, rs[0], key, touched);
      if !Spoils(svc, s, rs[0], key, fp) {
        StepNear(svc, s, rs[0], key, fp, ans, touched);
        LostOnlyBy(svc, s, rs[0], key, fp, ans);
        StepSound(svc, s, rs[0]);
        FewKeysLoseNothing(svc, PipelineRuns.Step(svc, s, rs[0]), rs[1..], key, fp, ans, more);
      }
    }
  }

  // ----- retries

  lemma StoredIsFirst(cache: Cached, max: nat, key: string, fp: string, a: ApplyResult)
    requires Sound(cache, max) && max > 0 && key != ""
    ensures var c := StoreApply(cache, max, key, fp, a);
            Keeps(c, key, fp, Outcome(a)) && Near(c, key, {})
  {
    PushKeeps(cache, max, Record(key, fp, None, Some(a)));
  }

  lemma CommitIsKept(svc: Service, s: App, boot: string, req: ChangeIn, now: Instant, keyFile: Option<KeyTable>)
    returns (a: ApplyResult)
    requires ValidService(svc) && Inv(svc, s, boot) && req.idempotencyKey != ""
    requires ApplyStep(svc, s, req, now, keyFile).1.fired
    ensures var (s1, first) := ApplyStep(svc, s, req, now, keyFile);
            first.result == Success(a) && Sound(s1.cache, svc.max) && Near(s1.cache, req.idempotencyKey, {}) &&
            Keeps(s1.cache, req.idempotencyKey, Fingerprint(svc, req), Outcome(a))
  {
    var key, fp := req.idempotencyKey, Fingerprint(svc, req);
    Committed(svc, s, boot, req, now, keyFile);
    ApplyKeeps(svc, s, boot, req, now, keyFile);
    a := ResultOf(s, BuildCandidate(svc, s, req, now, keyFile).value);
    LookupSound(s.cache, svc.max, key, fp);
    StoredIsFirst(Recency.Lookup(s.cache, key, fp).1, svc.max, key, fp, a);
    hide ApplyStep, SnapshotOk, FixedPart, Chained, BuildCandidate, Recency.Lookup, StoreApply, Sound, Keeps, Near,
         ResultOf, Fingerprint, EffectiveMgmt, LastRevision;
  }

  /** Exactly once: after an apply that committed under a key, any run that does not
      lose it leaves a retry with the first outcome and no second commit, whatever
      revision the retry expects and whatever was committed in between; and while
      fewer than max keys are used only a Reset that succeeds or a stale Plan of the
      same request can lose it. */
  lemma RetryIsReplayed(
    svc: Service, s: App, boot: string, req: ChangeIn, now: Instant, keyFile: Option<KeyTable>,
    rs: seq<Request>, retry: ChangeIn, later: Instant, keyFile2: Option<KeyTable>)
    requires ValidService(svc) && Inv(svc, s, boot) && req.idempotencyKey != ""
    requires ApplyStep(svc, s, req, now, keyFile).1.fired
    requires retry == req.(expectedRevision := retry.expectedRevision)
    ensures var (s1, first) := ApplyStep(svc, s, req, now, keyFile);
            var key, fp := req.idempotencyKey, Fingerprint(svc, req);
            (!Loses(svc, s1, rs, key, fp) ==>
               ApplyStep(svc, PipelineRuns.Run(svc, s1, rs), retry, later, keyFile2).1 ==
                 Applied(first.result, false)) &&
            (|RequestKeys(rs)| < svc.max ==> (Loses(svc, s1, rs, key, fp) <==> Spoiled(svc, s1, rs, key, fp)))
  {
    hide *;
    var s1 := ApplyStep(svc, s, req, now, keyFile).0;
    var key, fp := req.idempotencyKey, Fingerprint(svc, req);
    SameFingerprint(svc, req, retry);
    var a := CommitIsKept(svc, s, boot, req, now, keyFile);
    assert {} + RequestKeys(rs) == RequestKeys(rs);
    KeptExactly(svc, s1, rs, key, fp, Outcome(a));
    if |RequestKeys(rs)| < svc.max {
      FewKeysLoseNothing(svc, s1, rs, key, fp, Outcome(a), {});
    }
    if !Loses(svc, s1, rs, key, fp) {
      KeptIsReplayed(svc, PipelineRuns.Run(svc, s1, rs), retry, later, keyFile2, a);
    }
  }

  lemma KeptIsReplayed(svc: Service, s: App, req: ChangeIn, now: Instant, keyFile: Option<KeyTable>, a: ApplyResult)
    requires Keeps(s.cache, req.idempotencyKey, Fingerprint(svc, req), Outcome(a))
    ensures ApplyStep(svc, s, req, now, keyFile).1 == Applied(Success(a), false)
  {
    RememberedIsReplayed(svc, s, req, now, keyFile, a);
    hide ApplyStep;
  }
}
