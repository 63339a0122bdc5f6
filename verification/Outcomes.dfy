/** What has to hold for a document to compile, a candidate to be built, an apply to commit
    and a Reset to succeed, and which error it is otherwise. */
module Outcomes {
  import opened Wrappers
  import opened View
  import opened Model
  import opened Validate
  import opened Snapshot
  import opened Warnings
  import opened Compiler
  import opened Operations
  import opened Routing
  import opened Pipeline
  import opened PipelineRuns
  import opened Idempotence
  import Recency
  import QueryLog

  // ----- the NTP section, internal/config/validate.go

  /** One line of the report on the NTP section. */
  datatype NtpViolation =
    | BadServeMode | NtsEnabled | BadRestrict | BadVersion(i: nat) | RepeatedVersion(i: nat)
    | NonePerSecond | NonePerClient | BadLogSize | BadClientCidr(i: nat)

  predicate Breaks(ps: Parsers, n: Ntp, v: NtpViolation)
  {
    match v
    case BadServeMode => n.serveMode != "" && n.serveMode != "unicast"
    case NtsEnabled => n.nts
    case BadRestrict =>
      n.restrict.default != "" && n.restrict.default != "serve" && n.restrict.default != "limited" &&
      n.restrict.default != "ignore"
    case BadVersion(i) => i < |n.versions| && n.versions[i] != 3 && n.versions[i] != 4
    case RepeatedVersion(i) => i < |n.versions| && n.versions[i] in n.versions[..i]
    case NonePerSecond => n.admission.maxPacketsPerSec < 1
    case NonePerClient => n.admission.maxPacketsPerIp < 1
    case BadLogSize => n.queryLogSize < 1 || n.queryLogSize > 4096
    case BadClientCidr(i) =>
      n.allowClientCidrs.Some? && i < |n.allowClientCidrs.value| && ps.prefix(n.allowClientCidrs.value[i]).None?
  }

  method ValidateNtp(ps: Parsers, n: Ntp) returns (vs: seq<NtpViolation>)
    ensures forall v :: v in vs <==> Breaks(ps, n, v)
  {
    vs := [];
    if n.serveMode != "" && n.serveMode != "unicast" {
      vs := vs + [BadServeMode];
    }
    if n.nts {
      vs := vs + [NtsEnabled];
    }
    if n.restrict.default !in {"", "serve", "limited", "ignore"} {
      vs := vs + [BadRestrict];
    }
    var versions := ValidateVersions(ps, n);
    var amounts := ValidateLimits(ps, n);
    vs := vs + versions + amounts;
    var cidrs := n.allowClientCidrs.GetOr([]);
    for i := 0 to |cidrs|
      invariant forall v :: v in vs <==> Breaks(ps, n, v) && (v.BadClientCidr? ==> v.i < i)
    {
      if ps.prefix(cidrs[i]).None? {
        vs := vs + [BadClientCidr(i)];
      }
    }
  }

  method ValidateVersions(ps: Parsers, n: Ntp) returns (vs: seq<NtpViolation>)
    ensures forall v :: v in vs <==> (v.BadVersion? || v.RepeatedVersion?) && Breaks(ps, n, v)
  {
    vs := [];
    var seen: set<int> := {};
    for i := 0 to |n.versions|
      invariant forall x :: x in seen <==> x in n.versions[..i]
      invariant forall v :: v in vs <==> (v.BadVersion? || v.RepeatedVersion?) && v.i < i && Breaks(ps, n, v)
    {
      var x := n.versions[i];
      assert n.versions[..i + 1] == n.versions[..i] + [x];
      if x != 3 && x != 4 {
        vs := vs + [BadVersion(i)];
      }
      if x in seen {
        vs := vs + [RepeatedVersion(i)];
      }
      seen := seen + {x};
    }
  }

  method ValidateLimits(ps: Parsers, n: Ntp) returns (vs: seq<NtpViolation>)
    ensures forall v :: v in vs <==> (v.NonePerSecond? || v.NonePerClient? || v.BadLogSize?) && Breaks(ps, n, v)
  {
    vs := [];
    if n.admission.maxPacketsPerSec < 1 {
      vs := vs + [NonePerSecond];
    }
    if n.admission.maxPacketsPerIp < 1 {
      vs := vs + [NonePerClient];
    }
    if n.queryLogSize < 1 || n.queryLogSize > 4096 {
      vs := vs + [BadLogSize];
    }
  }

  /** Nothing is reported exactly of a valid section. */
  lemma NothingBroken(ps: Parsers, n: Ntp)
    ensures (forall v :: !Breaks(ps, n, v)) <==> ValidNtp(ps, n)
  {
    if forall v :: !Breaks(ps, n, v) {
      assert !Breaks(ps, n, BadServeMode) && !Breaks(ps, n, NtsEnabled) && !Breaks(ps, n, BadRestrict);
      assert !Breaks(ps, n, NonePerSecond) && !Breaks(ps, n, NonePerClient) && !Breaks(ps, n, BadLogSize);
      forall i, j | 0 <= i < j < |n.versions|
        ensures n.versions[i] != n.versions[j]
      {
        assert !Breaks(ps, n, RepeatedVersion(j)) && n.versions[..j][i] == n.versions[i];
      }
      assert forall i: nat {:trigger n.versions[i]} :: i < |n.versions| ==> !Breaks(ps, n, BadVersion(i));
      if n.allowClientCidrs.Some? {
        forall i: nat | i < |n.allowClientCidrs.value|
          ensures ps.prefix(n.allowClientCidrs.value[i]).Some?
        {
          assert !Breaks(ps, n, BadClientCidr(i));
        }
      }
    }
  }

  // ----- compiling

  /** A rate clock whose epoch key names no instant, and which cannot go on as it was. A
      valid document has one only where the key is nothing but white space. */
  predicate Unanchored(ps: Parsers, f: Filter, ctx: Context)
  {
    f.view.mode == Rate && f.view.epoch != "" && ps.time(f.view.epoch).None? &&
    var prev := PreviousView(ctx.previous, f.name);
    !(prev.Some? && prev.value.hasRate && f.view.rate == Some(prev.value.rate) &&
      PreviousEpoch(ctx.previous, f.name) == f.view.epoch)
  }

  lemma {:induction false} PrefixesParse(ps: Parsers, cidrs: seq<string>)
    ensures ParsePrefixes(ps, cidrs).Some? <==> forall j :: 0 <= j < |cidrs| ==> ps.prefix(cidrs[j]).Some?
  {
    if cidrs != [] {
      PrefixesParse(ps, cidrs[1..]);
      if ParsePrefixes(ps, cidrs).Some? {
        ParsedPrefixes(ps, cidrs);
      }
    }
  }

  lemma FilterCompiles(ps: Parsers, f: Filter, ctx: Context)
    requires ValidView(ps, f.view) && forall j :: 0 <= j < |f.Cidrs()| ==> ps.prefix(f.Cidrs()[j]).Some?
    ensures CompileFilter(ps, f, ctx).Some? <==> !Unanchored(ps, f, ctx)
  {
    PrefixesParse(ps, f.Cidrs());
    hide ParsePrefixes, Served, Blank, PreviousView, PreviousEpoch;
  }

  lemma {:induction false} AllCompile(ps: Parsers, fs: seq<Filter>, ctx: Context)
    ensures CompileFilters(ps, fs, ctx).Some? <==> forall i :: 0 <= i < |fs| ==> CompileFilter(ps, fs[i], ctx).Some?
  {
    hide CompileFilter;
    if fs != [] {
      AllCompile(ps, fs[1..], ctx);
      if CompileFilters(ps, fs, ctx).Some? {
        CompiledShape(ps, fs, ctx);
      }
    }
  }

  lemma FiltersCompile(ps: Parsers, fs: seq<Filter>, ctx: Context)
    requires ValidFilters(ps, fs)
    ensures CompileFilters(ps, fs, ctx).Some? <==> forall i :: 0 <= i < |fs| ==> !Unanchored(ps, fs[i], ctx)
  {
    AllCompile(ps, fs, ctx);
    hide CompileFilters, CompileFilter, Unanchored, ValidView;
    forall i | 0 <= i < |fs|
      ensures CompileFilter(ps, fs[i], ctx).Some? <==> !Unanchored(ps, fs[i], ctx)
    {
      FilterCompiles(ps, fs[i], ctx);
    }
  }

  lemma AllowCompiles(ps: Parsers, n: Ntp)
    requires ValidNtp(ps, n)
    ensures CompileAllow(ps, n.allowClientCidrs).Some?
  {
    PrefixesParse(ps, n.allowClientCidrs.GetOr([]));
  }

  /** A document compiles if and only if its normal form is valid, its key file (if it
      names one) could be read, and every rate clock can be anchored; the error says
      which of them failed first. */
  lemma CompilesExactly(env: Env, st: State, boot: string, ctx: Context, keyFile: Option<KeyTable>)
    ensures var n := Normalize(st);
            var loose := exists i :: 0 <= i < |n.filters| && Unanchored(env.ps, n.filters[i], ctx);
            var r := Compile(env, st, boot, ctx, keyFile);
            if !ValidState(env, n) then r == Failure(ValidationFailed)
            else if loose then r == Failure(Internal)
            else if n.ntp.keysFile != "" && keyFile == None then r == Failure(ValidationFailed)
            else r.Success?
  {
    hide Normalize, CompileFilters, CompileAllow, CompileWarnings, Unanchored, ValidNtp, ValidFilters;
    var n := Normalize(st);
    if ValidState(env, n) {
      FiltersCompile(env.ps, n.filters, ctx);
      AllowCompiles(env.ps, n.ntp);
    }
  }

  // ----- Plan and Apply

  /** What a change asks for can be had: it names the active revision, its operations are
      accepted one after the other, and their result compiles. */
  lemma BuildsExactly(svc: Service, s: App, boot: string, req: ChangeIn, now: Instant, keyFile: Option<KeyTable>)
    requires ValidService(svc) && Inv(svc, s, boot)
    ensures s.active.Some? &&
            var prev := s.active.value;
            var after := ApplyOperations(prev.canonical, req.Operations());
            var r := BuildCandidate(svc, s, req, now, keyFile);
            if req.expectedRevision == "" then r == Failure(ValidationFailed)
            else if req.expectedRevision != prev.revision then r == Failure(RevisionConflict)
            else if after.Failure? then r == Failure(after.error)
            else
              var c := Compile(svc.env, after.value, prev.bootstrapRevision,
                               Context(now, prev.generation + 1, Some(prev)), keyFile);
              if c.Failure? then r == Failure(c.error) else r.Success? && r.value.next == c.value
  {
    hide *;
    BootRevision(svc, s, boot);
    BuildsOn(svc, s, s.active.value, req, now, keyFile);
  }

  lemma BuildsOn(svc: Service, s: App, prev: Snapshot, req: ChangeIn, now: Instant, keyFile: Option<KeyTable>)
    requires s.active == Some(prev)
    ensures var after := ApplyOperations(prev.canonical, req.Operations());
            var r := BuildCandidate(svc, s, req, now, keyFile);
            if req.expectedRevision == "" then r == Failure(ValidationFailed)
            else if req.expectedRevision != prev.revision then r == Failure(RevisionConflict)
            else if after.Failure? then r == Failure(after.error)
            else
              var c := Compile(svc.env, after.value, prev.bootstrapRevision,
                               Context(now, prev.generation + 1, Some(prev)), keyFile);
              if c.Failure? then r == Failure(c.error) else r.Success? && r.value.next == c.value
  {
    hide Compile, ApplyOperations, RejectsResetOnly, DiffStates;
    if ApplyOperations(prev.canonical, req.Operations()).Success? {
      OperationsKeepFixed(prev.canonical, req.Operations());
    }
  }

  /** An apply commits if and only if its key is not taken by another request, the cache
      has no outcome for it, and the candidate can be built. */
  lemma CommitsExactly(svc: Service, s: App, req: ChangeIn, now: Instant, keyFile: Option<KeyTable>)
    ensures var (s', r) := ApplyStep(svc, s, req, now, keyFile);
            var key, fp := req.idempotencyKey, Fingerprint(svc, req);
            var taken := key != "" && Recency.Has(s.cache, key) && s.cache[Recency.IndexOf(s.cache, key)].fp != fp;
            var answered := exists a :: Remembers(s.cache, key, fp, a);
            (r.fired <==> !taken && !answered && BuildCandidate(svc, s, req, now, keyFile).Success?) &&
            (taken ==> r.result == Failure(IdempotencyConflict)) &&
            (r.fired ==> r.result.Success?)
  {
    hide BuildOn, Fingerprint, QueryLog.Resized, Recency.StoreApply, PlanFrom, Recency.ToFront;
    var key, fp := req.idempotencyKey, Fingerprint(svc, req);
    if key != "" && Recency.Has(s.cache, key) {
      var e := s.cache[Recency.IndexOf(s.cache, key)];
      if e.fp == fp && e.apply.Some? {
        assert Remembers(s.cache, key, fp, e.apply.value);
      }
    }
  }

  // ----- Reset

  /** Both rebinds succeed exactly when each listener that has to move to an address it is
      not at can be bound there; turning management off cannot fail. */
  lemma RebindsExactly(svc: Service, s: App, next: Snapshot, w: World)
    requires EffectiveNtp(svc, next.ntpAddress) != ""
    ensures var ntp, mgmt := EffectiveNtp(svc, next.ntpAddress), EffectiveMgmt(svc, next.managementAddress);
            RebindBoth(svc, s, next, w).1 <==>
            && (svc.ntpHook && ntp != OldNtp(svc, s) && ntp != s.ntpBound ==> w.ntpBinds)
            && (svc.httpHook && mgmt != OldMgmt(svc, s) && mgmt != s.mgmtBound && mgmt != "" ==> w.httpBinds)
  {
    hide EffectiveNtp, EffectiveMgmt, OldNtp, OldMgmt;
  }

  /** A Reset succeeds if and only if its document loads, the tokens pass and both rebinds
      succeed; the error is that of the first that fails. */
  lemma ResetsExactly(svc: Service, s: App, w: World, reason: string)
    ensures var loaded, r := LoadBootstrap(svc, s, w), ResetStep(svc, s, w, reason).1;
            if loaded.Failure? then r == Failure(loaded.error)
            else if w.authOk.Failure? then r == Failure(w.authOk.error)
            else
              var ntp, mgmt := EffectiveNtp(svc, loaded.value.ntpAddress),
                               EffectiveMgmt(svc, loaded.value.managementAddress);
              if (svc.ntpHook && ntp != OldNtp(svc, s) && ntp != s.ntpBound && !w.ntpBinds) ||
                 (svc.httpHook && mgmt != OldMgmt(svc, s) && mgmt != s.mgmtBound && mgmt != "" && !w.httpBinds)
              then r == Failure(Internal)
              else r.Success?
  {
    hide LoadBootstrap, RebindBoth, Install, EffectiveNtp, EffectiveMgmt, OldNtp, OldMgmt, SnapshotOk;
    if LoadBootstrap(svc, s, w).Success? {
      LoadedIs(svc, s, w);
      var next := LoadBootstrap(svc, s, w).value;
      RebindsExactly(svc, s, next, w);
      Installed(svc, RebindBoth(svc, s, next, w).0, next, reason);
    }
  }
}
