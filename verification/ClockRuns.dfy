/** A rate clock over whole runs of the service: what is served at the end is the
    boot's wall time plus every committed rate times the time spent under it. */
module ClockRuns {
  import opened Wrappers
  import opened View
  import opened Model
  import opened Snapshot
  import opened Compiler
  import opened Operations
  import opened Pipeline
  import opened PipelineRuns
  import opened EpochChain
  import Recency
  import QueryLog

  // ----- the changes of a run

  /** The document makes the named filter a rate clock with no epoch key. */
  predicate RateClock(st: State, name: string)
  {
    var f := LookupFilter(st.filters, name);
    f.Some? && f.value.view.rate.Some? && RateDocument(st, name, f.value.view.rate.value)
  }

  function RateOf(st: State, name: string): real
    requires RateClock(st, name)
  {
    LookupFilter(st.filters, name).value.view.rate.value
  }

  predicate Commits(svc: Service, s: App, r: Request)
  {
    r.ApplyRequest? && ApplyStep(svc, s, r.req, r.now, r.keyFile).1.fired
  }

  function ClockOf(s: App, name: string): Option<View>
  {
    if s.active.None? then None else LookupView(s.active.value.filters, name)
  }

  /** A request that leaves the filter a rate clock: no Reset that succeeds, no commit
      that takes the clock away or comes while it is clipped. */
  predicate Steady(svc: Service, s: App, r: Request, name: string)
  {
    && (r.ResetRequest? ==> ResetStep(svc, s, r.w, r.reason).1.Failure?)
    && (Commits(svc, s, r) ==>
          var s' := ApplyStep(svc, s, r.req, r.now, r.keyFile).0;
          s'.active.Some? && RateClock(s'.active.value.canonical, name) &&
          (ClockOf(s, name).Some? ==> Unclipped(ClockOf(s, name).value, r.now)))
  }

  predicate SteadyRun(svc: Service, s: App, rs: seq<Request>, name: string)
    decreases |rs|
  {
    rs == [] || (Steady(svc, s, rs[0], name) && SteadyRun(svc, Step(svc, s, rs[0]), rs[1..], name))
  }

  /** What the operations of a request make of the active document. */
  function Asked(prev: Snapshot, req: ChangeIn): State
  {
    var after := ApplyOperations(prev.canonical, req.Operations());
    if after.Success? then after.value else prev.canonical
  }

  /** The compile of st that made a snapshot active. */
  function EventOf(
    st: State, snap: Snapshot, boot: string, keyFile: Option<KeyTable>, now: Instant, name: string): Event
    requires RateClock(snap.canonical, name)
  {
    Event(st, boot, snap.generation, keyFile, now, RateOf(snap.canonical, name))
  }

  /** The compile behind a commit, if the request is one. */
  function ChangeOf(svc: Service, s: App, r: Request, name: string): seq<Event>
    requires Steady(svc, s, r, name)
  {
    if !Commits(svc, s, r) || s.active.None? then []
    else
      var prev := s.active.value;
      [EventOf(Asked(prev, r.req), Step(svc, s, r).active.value, prev.bootstrapRevision, r.keyFile, r.now, name)]
  }

  /** The compiles behind the commits of a run, in order. */
  function Changed(svc: Service, s: App, rs: seq<Request>, name: string): seq<Event>
    requires SteadyRun(svc, s, rs, name)
    decreases |rs|
  {
    if rs == [] then [] else ChangeOf(svc, s, rs[0], name) + Changed(svc, Step(svc, s, rs[0]), rs[1..], name)
  }

  // ----- a run is a chain of clock changes

  /** The chain so far leads to the active snapshot. */
  ghost predicate Tracked(svc: Service, s: App, name: string, evs: seq<Event>, snaps: seq<Snapshot>)
  {
    Chain(svc.env, name, None, evs, snaps) && Unbroken(name, evs, snaps) && s.active == Some(Last(snaps))
  }

  /** Normalizing leaves a rate clock what it is. */
  lemma NormalizedRate(st: State, name: string, rate: real)
    ensures RateDocument(Normalize(st), name, rate) <==> RateDocument(st, name, rate)
  {
    LookupMaterialized(st.filters, name);
  }

  /** The snapshot a commit installs is what the result of its operations compiles to
      on top of the one it replaces. */
  lemma CommitCompiles(svc: Service, s: App, boot: string, req: ChangeIn, now: Instant, keyFile: Option<KeyTable>)
    requires Inv(svc, s, boot) && ApplyStep(svc, s, req, now, keyFile).1.fired
    ensures var s' := ApplyStep(svc, s, req, now, keyFile).0;
            var prev := s.active.value;
            s'.active.Some? && s'.active.value.generation == prev.generation + 1 &&
            s'.active.value.canonical == Normalize(Asked(prev, req)) &&
            Compile(svc.env, Asked(prev, req), prev.bootstrapRevision,
                    Context(now, prev.generation + 1, Some(prev)), keyFile) == Success(s'.active.value)
  {
    hide Compile, Normalize, Chained, SnapshotOk, FixedPart, EffectiveMgmt, LastRevision, BuildOn, QueryLog.Resized;
    ApplyCases(svc, s, req, now, keyFile);
    var prev := s.active.value;
    var after, next := CandidateMade(svc, prev, req, now, keyFile);
    CompiledOk(svc, after, prev.bootstrapRevision, Context(now, prev.generation + 1, Some(prev)), keyFile);
    hide ApplyStep, Recency.Lookup, Fingerprint, Recency.Sound, Recency.StoreApply, PlanFrom;
  }

  lemma ChainLonger(env: Env, name: string, evs: seq<Event>, snaps: seq<Snapshot>, ev: Event, snap: Snapshot)
    requires Chain(env, name, None, evs, snaps) && Unbroken(name, evs, snaps)
    requires RateDocument(ev.st, name, ev.rate) && Compiled(env, ev, Some(Last(snaps))) == Success(snap)
    requires LookupView(Last(snaps).filters, name).Some? && Unclipped(Clock(Last(snaps), name), ev.now)
    ensures Chain(env, name, None, evs + [ev], snaps + [snap]) && Unbroken(name, evs + [ev], snaps + [snap])
  {
    hide Compiled, RateDocument, Unclipped;
    assert (evs + [ev])[..|evs|] == evs && (snaps + [snap])[..|snaps|] == snaps;
  }

  lemma CommitTracked(
    svc: Service, s: App, boot: string, r: Request, name: string, evs: seq<Event>, snaps: seq<Snapshot>)
    requires Inv(svc, s, boot) && Tracked(svc, s, name, evs, snaps) && Steady(svc, s, r, name) && Commits(svc, s, r)
    ensures var s' := Step(svc, s, r);
            s'.active.Some? && RateClock(s'.active.value.canonical, name) &&
            Tracked(svc, s', name,
                    evs + [EventOf(Asked(s.active.value, r.req), s'.active.value, s.active.value.bootstrapRevision,
                                   r.keyFile, r.now, name)],
                    snaps + [s'.active.value])
  {
    hide ApplyStep, ResetStep, Compile, Inv, Chain, Unbroken, Unclipped, Normalize, Asked, RateDocument;
    CommitCompiles(svc, s, boot, r.req, r.now, r.keyFile);
    ChainOnIdeal(svc.env, name, None, evs, snaps);
    var snap := Step(svc, s, r).active.value;
    var st := Asked(s.active.value, r.req);
    var ev := EventOf(st, snap, s.active.value.bootstrapRevision, r.keyFile, r.now, name);
    NormalizedRate(st, name, ev.rate);
    ChainLonger(svc.env, name, evs, snaps, ev, snap);
  }

  lemma OtherwiseActiveStays(svc: Service, s: App, boot: string, r: Request, name: string)
    requires Inv(svc, s, boot) && Steady(svc, s, r, name) && !Commits(svc, s, r)
    ensures Step(svc, s, r).active == s.active
  {
    hide PlanStep, ApplyStep, ResetStep, LoadBootstrap, QueryLog.Inserted;
    assert Recency.Sound(s.cache, svc.max);
    hide Inv;
    match r
    case PlanRequest(req, now, keyFile) => PlanTouchesCacheOnly(svc, s, req, now, keyFile);
    case ApplyRequest(req, now, keyFile) => ApplyCases(svc, s, req, now, keyFile);
    case ResetRequest(w, reason) => ResetAllOrNothing(svc, s, w, reason);
    case Query(e) =>
  }

  lemma StepTracked(
    svc: Service, s: App, boot: string, r: Request, name: string, evs: seq<Event>, snaps: seq<Snapshot>)
    returns (all: seq<Snapshot>)
    requires Inv(svc, s, boot) && Steady(svc, s, r, name) && Tracked(svc, s, name, evs, snaps)
    ensures Tracked(svc, Step(svc, s, r), name, evs + ChangeOf(svc, s, r, name), all)
  {
    all := snaps;
    hide Inv, Step, Steady, Commits, Chain, Unbroken;
    if Commits(svc, s, r) {
      CommitTracked(svc, s, boot, r, name, evs, snaps);
      all := snaps + [Step(svc, s, r).active.value];
    } else {
      OtherwiseActiveStays(svc, s, boot, r, name);
      assert evs + ChangeOf(svc, s, r, name) == evs;
    }
  }

  lemma {:induction false} RunTracked(
    svc: Service, s: App, boot: string, rs: seq<Request>, name: string, evs: seq<Event>, snaps: seq<Snapshot>)
    returns (all: seq<Snapshot>)
    requires ValidService(svc) && Inv(svc, s, boot) && SteadyRun(svc, s, rs, name) && Tracked(svc, s, name, evs, snaps)
    ensures Tracked(svc, Run(svc, s, rs), name, evs + Changed(svc, s, rs, name), all)
    decreases |rs|
  {
    hide Inv, ValidService, Tracked, Step, Steady, Commits, ChangeOf;
    all := snaps;
    if rs == [] {
      assert evs + Changed(svc, s, rs, name) == evs;
    } else {
      var s' := Step(svc, s, rs[0]);
      StepKeepsInv(svc, s, boot, rs[0]);
      var change := ChangeOf(svc, s, rs[0], name);
      all := StepTracked(svc, s, boot, rs[0], name, evs, snaps);
      all := RunTracked(svc, s', boot, rs[1..], name, evs + change, all);
      assert evs + Changed(svc, s, rs, name) == evs + change + Changed(svc, s', rs[1..], name);
    }
  }

  lemma BootTracked(svc: Service, st: State, now: Instant, keyFile: Option<KeyTable>, name: string)
    requires Boot(svc, st, now, keyFile).Success?
    ensures var s := Boot(svc, st, now, keyFile).value;
            s.active.Some? &&
            (RateClock(s.active.value.canonical, name) ==>
               Tracked(svc, s, name, [EventOf(st, s.active.value, "", keyFile, now, name)], [s.active.value]))
  {
    hide Compile, Normalize, RateDocument, SnapshotOk, EffectiveMgmt, EffectiveNtp;
    CompiledOk(svc, st, "", Context(now, 0, None), keyFile);
    var snap := Boot(svc, st, now, keyFile).value.active.value;
    if RateClock(snap.canonical, name) {
      NormalizedRate(st, name, RateOf(snap.canonical, name));
    }
  }

  lemma TrackedOnIdeal(svc: Service, s: App, name: string, evs: seq<Event>, snaps: seq<Snapshot>)
    requires Tracked(svc, s, name, evs, snaps)
    ensures evs != [] && snaps != [] && Runs(Last(snaps), name, Last(evs).rate)
  {
    ChainOnIdeal(svc.env, name, None, evs, snaps);
  }

  /** Boot a document with a rate clock and run any requests that leave it one: at
      every instant the clock is read unclipped it serves the wall time of the boot
      plus each committed rate times the real time spent under it, within a
      nanosecond for each stretch of constant rate. */
  lemma RunSumsRates(
    svc: Service, st: State, now: Instant, keyFile: Option<KeyTable>, rs: seq<Request>, name: string, t: Instant)
    requires ValidService(svc) && Boot(svc, st, now, keyFile).Success?
    requires var s := Boot(svc, st, now, keyFile).value;
             s.active.Some? && RateClock(s.active.value.canonical, name) && SteadyRun(svc, s, rs, name)
    ensures var s := Boot(svc, st, now, keyFile).value;
            var evs := [EventOf(st, s.active.value, "", keyFile, now, name)] + Changed(svc, s, rs, name);
            var clock := ClockOf(Run(svc, s, rs), name);
            clock.Some? && clock.value.mode == Rate && clock.value.rate == Last(evs).rate &&
            (Unclipped(clock.value, t) ==>
               var slack := (EpochChain.Changes(evs) + 1) as real;
               Ideal(evs, t) - slack < Served(clock.value, t) as real < Ideal(evs, t) + slack)
  {
    hide Boot, Run, Inv, ValidService, Chain, Unbroken, Unclipped, Served, Ideal, EpochChain.Changes;
    BootHolds(svc, st, now, keyFile);
    BootTracked(svc, st, now, keyFile, name);
    var s := Boot(svc, st, now, keyFile).value;
    var first := EventOf(st, s.active.value, "", keyFile, now, name);
    var all := RunTracked(svc, s, s.active.value.revision, rs, name, [first], [s.active.value]);
    var evs := [first] + Changed(svc, s, rs, name);
    TrackedOnIdeal(svc, Run(svc, s, rs), name, evs, all);
    if Unclipped(Clock(Last(all), name), t) {
      ServedSumsRates(svc.env, name, None, evs, all, t);
    }
  }
}
