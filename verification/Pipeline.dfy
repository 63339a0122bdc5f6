/** internal/app/mutate.go and reset.go as functions: what Plan, Apply and Reset
    make of the application state. */
module Pipeline {
  import opened Wrappers
  import opened View
  import opened Model
  import opened Snapshot
  import opened Warnings
  import opened Compiler
  import opened Operations
  import opened Recency
  import opened JsonDiff
  import opened OperationJson
  import QueryLog

  /** An absent list of operations is an empty one, except in JSON. */
  datatype ChangeIn = ChangeIn(
    expectedRevision: string, idempotencyKey: string, reason: string, list: Option<seq<Operation>>)
  {
    function Operations(): seq<Operation> { list.GetOr([]) }
  }

  datatype Plan = Plan(
    previousRevision: string, candidateRevision: string, drifted: bool, diff: seq<Entry>, warnings: seq<Notice>,
    operations: seq<Operation>)

  datatype ApplyResult = ApplyResult(plan: Plan, generation: nat, runtimeRevision: string, auditId: nat)

  datatype AuditEvent = AuditEvent(capability: string, reason: string, revision: string, previous: string)

  /** What the service is built with. The diff of two trees, the float formatter and
      the fingerprint hash are parameters; the hooks say which listeners it can
      rebind. */
  datatype Service = Service(
    env: Env, tree: State -> Json, diff: (Json, Json) -> seq<Entry>, float: FloatText, hash: Json -> string,
    ntpOverride: string, mgmtOverride: string, ntpHook: bool, httpHook: bool, bootstrapPath: bool, max: nat)

  /** The application state; mgmtEffective is None until it has been recorded. The
      last two fields are what the operating system has bound. */
  datatype App = App(
    active: Option<Snapshot>, previous: Option<Snapshot>, bootstrap: Option<Snapshot>,
    cache: seq<Record<Plan, ApplyResult>>, log: QueryLog.Log, audit: seq<AuditEvent>,
    applyOk: nat, applyError: nat, mgmtEffective: Option<string>, ntpBound: string, mgmtBound: string)

  // ----- fingerprints

  function Fingerprint(svc: Service, req: ChangeIn): string
  {
    svc.hash(ChangeJson(svc.float, req.reason, req.list))
  }

  // ----- candidates

  datatype Candidate = Candidate(prev: Snapshot, next: Snapshot, ops: seq<Operation>, diff: seq<Entry>)

  function DiffStates(svc: Service, before: State, after: State): seq<Entry>
  {
    svc.diff(svc.tree(before), svc.tree(after))
  }

  /** buildCandidate, on the snapshot that is active. */
  function BuildOn(
    svc: Service, active: Option<Snapshot>, req: ChangeIn, now: Instant, keyFile: Option<KeyTable>)
    : Result<Candidate, Error>
  {
    if active.None? then Failure(Internal)
    else
      var prev := active.value;
      if req.expectedRevision == "" then Failure(ValidationFailed)
      else if req.expectedRevision != prev.revision then Failure(RevisionConflict)
      else
        var after := ApplyOperations(prev.canonical, req.Operations());
        if after.Failure? then Failure(after.error)
        else if RejectsResetOnly(prev.canonical, after.value) then Failure(ValidationFailed)
        else
          var next := Compile(svc.env, after.value, prev.bootstrapRevision,
                              Context(now, prev.generation + 1, Some(prev)), keyFile);
          if next.Failure? then Failure(next.error)
          else Success(Candidate(prev, next.value, req.Operations(),
                                 DiffStates(svc, prev.canonical, next.value.canonical)))
  }

  function BuildCandidate(
    svc: Service, s: App, req: ChangeIn, now: Instant, keyFile: Option<KeyTable>): Result<Candidate, Error>
  {
    BuildOn(svc, s.active, req, now, keyFile)
  }

  function PlanFrom(c: Candidate): Plan
  {
    Plan(c.prev.revision, c.next.revision, Drifted(c.next), c.diff, Notices(c.next.warnings), c.ops)
  }

  function AfterConflict(cache: seq<Record<Plan, ApplyResult>>, key: string, e: Error): seq<Record<Plan, ApplyResult>>
  {
    if e == RevisionConflict then Evict(cache, key) else cache
  }

  // ----- Plan

  function PlanStep(
    svc: Service, s: App, req: ChangeIn, now: Instant, keyFile: Option<KeyTable>): (App, Result<Plan, Error>)
  {
    var key, fp := req.idempotencyKey, Fingerprint(svc, req);
    var (hit, cache) := Recency.Lookup(s.cache, key, fp);
    if hit.Conflict? then (s, Failure(IdempotencyConflict))
    else if hit.Found? && hit.r.plan.Some? then (s.(cache := cache), Success(hit.r.plan.value))
    else
      var cand := BuildCandidate(svc, s, req, now, keyFile);
      if cand.Failure? then (s.(cache := AfterConflict(cache, key, cand.error)), Failure(cand.error))
      else
        var p := PlanFrom(cand.value);
        (s.(cache := StorePlan(cache, svc.max, key, fp, p)), Success(p))
  }

  // ----- Apply

  /** fired says whether the apply hooks run afterwards. */
  datatype Applied = Applied(result: Result<ApplyResult, Error>, fired: bool)

  function Commit(
    svc: Service, s: App, cache: seq<Record<Plan, ApplyResult>>, c: Candidate, req: ChangeIn): (App, Applied)
  {
    var res := ApplyResult(PlanFrom(c), c.next.generation, c.next.revision, |s.audit| + 1);
    var s' := s.(
      active := Some(c.next), previous := s.active,
      log := if c.next.queryLogSize > 0 then QueryLog.Resized(s.log, c.next.queryLogSize) else s.log,
      audit := s.audit + [AuditEvent("changes.apply", req.reason, c.next.revision, c.prev.revision)],
      applyOk := s.applyOk + 1,
      cache := StoreApply(cache, svc.max, req.idempotencyKey, Fingerprint(svc, req), res));
    (s', Applied(Success(res), true))
  }

  function ApplyStep(svc: Service, s: App, req: ChangeIn, now: Instant, keyFile: Option<KeyTable>): (App, Applied)
  {
    var key, fp := req.idempotencyKey, Fingerprint(svc, req);
    var (hit, cache) := Recency.Lookup(s.cache, key, fp);
    if hit.Conflict? then (s, Applied(Failure(IdempotencyConflict), false))
    else if hit.Found? && hit.r.apply.Some? then (s.(cache := cache), Applied(Success(hit.r.apply.value), false))
    else
      var cand := BuildCandidate(svc, s, req, now, keyFile);
      if cand.Failure? then
        (s.(cache := AfterConflict(cache, key, cand.error), applyError := s.applyError + 1),
         Applied(Failure(cand.error), false))
      else Commit(svc, s, cache, cand.value, req)
  }

  // ----- Reset

  /** What happens outside during a Reset: the reread of the bootstrap file, the
      token check, and the outcome of each bind. */
  datatype World = World(
    file: Result<State, Error>, now: Instant, keyFile: Option<KeyTable>, authOk: Result<(), Error>,
    ntpBinds: bool, httpBinds: bool, rollbackBinds: bool)

  function Lower(c: char): char { if 'A' <= c <= 'Z' then ((c as int) + 32) as char else c }

  function ToLower(s: string): string { seq(|s|, i requires 0 <= i < |s| => Lower(s[i])) }

  function TrimLeft(s: string): string { if s != "" && Space(s[0]) then TrimLeft(s[1..]) else s }

  function TrimRight(s: string): string { if s != "" && Space(s[|s| - 1]) then TrimRight(s[..|s| - 1]) else s }

  predicate ManagementOff(s: string) { ToLower(TrimRight(TrimLeft(s))) in {"", "off", "none", "-"} }

  function EffectiveNtp(svc: Service, addr: string): string { if svc.ntpOverride != "" then svc.ntpOverride else addr }

  /** Empty means management is off. */
  function EffectiveMgmt(svc: Service, addr: string): string
  {
    if svc.mgmtOverride != "" then (if ManagementOff(svc.mgmtOverride) then "" else svc.mgmtOverride) else addr
  }

  function LoadBootstrap(svc: Service, s: App, w: World): Result<Snapshot, Error>
  {
    var gen := if s.active.Some? then s.active.value.generation + 1 else 0;
    var ctx := Context(w.now, gen, None);
    if svc.bootstrapPath then
      if w.file.Failure? then Failure(w.file.error) else Compile(svc.env, w.file.value, "", ctx, w.keyFile)
    else if s.bootstrap.None? then Failure(ValidationFailed)
    else Compile(svc.env, s.bootstrap.value.canonical, "", ctx, w.keyFile)
  }

  function OldNtp(svc: Service, s: App): string
  {
    if s.active.None? then "" else EffectiveNtp(svc, s.active.value.ntpAddress)
  }

  function OldMgmt(svc: Service, s: App): string
  {
    if s.active.None? then ""
    else if s.mgmtEffective.Some? then s.mgmtEffective.value
    else EffectiveMgmt(svc, s.active.value.managementAddress)
  }

  /** The NTP listener binds the new address first; an unchanged one is left. */
  function RebindNtp(bound: string, addr: string, binds: bool): (string, bool)
  {
    if addr == bound then (bound, true) else if binds then (addr, true) else (bound, false)
  }

  /** The management listener likewise; unbinding cannot fail. */
  function RebindMgmt(bound: string, addr: string, binds: bool): (string, bool)
  {
    if addr == "" || addr == bound || binds then (addr, true) else (bound, false)
  }

  /** Swap, bootstrap, query log, cache and audit once both listeners stand. */
  function Install(svc: Service, s: App, next: Snapshot, reason: string): (App, Result<ApplyResult, Error>)
  {
    var prevRev := if s.active.Some? then s.active.value.revision else "";
    var diff := svc.diff(if s.active.Some? then svc.tree(s.active.value.canonical) else Object(map[]),
                         svc.tree(next.canonical));
    var plan := Plan(prevRev, next.revision, Drifted(next), diff, Notices(next.warnings), []);
    var wiped := QueryLog.Wiped(s.log);
    var s' := s.(
      active := Some(next), previous := if s.active.Some? then s.active else s.previous, bootstrap := Some(next),
      mgmtEffective := Some(EffectiveMgmt(svc, next.managementAddress)),
      log := if next.queryLogSize > 0 then QueryLog.Resized(wiped, next.queryLogSize) else wiped,
      cache := [], audit := s.audit + [AuditEvent("state.reset", reason, next.revision, prevRev)],
      applyOk := s.applyOk + 1);
    (s', Success(ApplyResult(plan, next.generation, next.revision, |s.audit| + 1)))
  }

  /** Both rebinds: NTP first, and back to its old address if management fails. */
  function RebindBoth(svc: Service, s: App, next: Snapshot, w: World): (App, bool)
  {
    var newNtp, newMgmt := EffectiveNtp(svc, next.ntpAddress), EffectiveMgmt(svc, next.managementAddress);
    var moves := svc.ntpHook && newNtp != "" && newNtp != OldNtp(svc, s);
    var (ntp, ntpOk) := if moves then RebindNtp(s.ntpBound, newNtp, w.ntpBinds) else (s.ntpBound, true);
    if !ntpOk then (s, false)
    else
      var (mgmt, mgmtOk) :=
        if svc.httpHook && newMgmt != OldMgmt(svc, s) then RebindMgmt(s.mgmtBound, newMgmt, w.httpBinds)
        else (s.mgmtBound, true);
      if !mgmtOk then
        (s.(ntpBound := if moves then RebindNtp(ntp, OldNtp(svc, s), w.rollbackBinds).0 else ntp), false)
      else (s.(ntpBound := ntp, mgmtBound := mgmt), true)
  }

  function ResetStep(svc: Service, s: App, w: World, reason: string): (App, Result<ApplyResult, Error>)
  {
    var loaded := LoadBootstrap(svc, s, w);
    if loaded.Failure? then (s, Failure(loaded.error))
    else if w.authOk.Failure? then (s, Failure(w.authOk.error))
    else
      var (s1, ok) := RebindBoth(svc, s, loaded.value, w);
      if !ok then (s1, Failure(Internal)) else Install(svc, s1, loaded.value, reason)
  }

  // ----- boot

  function Boot(svc: Service, st: State, now: Instant, keyFile: Option<KeyTable>): Result<App, Error>
  {
    var snap := Compile(svc.env, st, "", Context(now, 0, None), keyFile);
    if snap.Failure? then Failure(snap.error)
    else
      var mgmt := EffectiveMgmt(svc, snap.value.managementAddress);
      Success(App(
        Some(snap.value), None, Some(snap.value),
        [], QueryLog.Log(QueryLog.ClampSize(snap.value.queryLogSize), []), [], 0, 0,
        Some(mgmt), EffectiveNtp(svc, snap.value.ntpAddress), mgmt))
  }
}
