/** internal/compiler/compile.go and internal/snapshot: what a snapshot takes from the
    document it holds, and that every active snapshot of every run takes exactly that. */
module Mirror {
  import opened Wrappers
  import opened Address
  import opened View
  import opened Model
  import opened Validate
  import opened Snapshot
  import opened Compiler
  import opened Routing
  import opened Pipeline
  import opened PipelineRuns
  import Recency
  import QueryLog
  import Warnings

  /** One of the listed prefixes holds the address, or its unmapped form. */
  predicate Listed(ps: Parsers, cidrs: seq<string>, ip: Addr)
  {
    exists i :: 0 <= i < |cidrs| && ps.prefix(cidrs[i]).Some? &&
                (Contains(ps.prefix(cidrs[i]).value, ip.Unmap()) || Contains(ps.prefix(cidrs[i]).value, ip))
  }

  /** A compiled view carries the written one, stamped with the generation. An absolute
      or frozen one carries the instant its text names. */
  predicate ViewAsWritten(ps: Parsers, name: string, w: ViewSpec, v: View, generation: nat)
  {
    && v.name == name && v.generation == generation && v.mode == w.mode && v.offset == w.offset
    && w.rate == (if v.hasRate then Some(v.rate) else None)
    && (w.mode == Absolute ==> ps.time(w.absolute) == Some(v.absolute))
    && (w.mode == Freeze ==> ps.time(w.freezeAt) == Some(v.freezeAt))
    && v.leap == w.leap && v.stratum == w.stratum && v.refId == w.refId && v.precision == w.precision
    && v.rootDelay == w.rootDelay && v.rootDispersion == w.rootDispersion && v.jitter == w.jitter
    && v.minPoll == w.minPoll && v.maxPoll == w.maxPoll
  }

  ghost predicate FilterAsWritten(ps: Parsers, f: Filter, c: CompiledFilter, generation: nat)
  {
    && c.name == f.name && c.enabled == f.enabled
    && |c.prefixes| == |f.Cidrs()|
    && (forall j :: 0 <= j < |c.prefixes| ==> ps.prefix(f.Cidrs()[j]) == Some(c.prefixes[j]))
    && ViewAsWritten(ps, f.name, f.view, c.view, generation)
  }

  /** The snapshot lets in, admits, restricts and answers as its document says. */
  ghost predicate AsWritten(ps: Parsers, snap: Snapshot)
  {
    var c := snap.canonical;
    && snap.ntpAddress == c.listeners.ntp && snap.managementAddress == c.listeners.management
    && c.ntp.versions != [] && (forall vn :: VersionOk(snap, vn) <==> vn in c.ntp.versions)
    && c.ntp.allowClientCidrs.Some?
    && (forall ip :: Allowed(snap, ip) <==> Listed(ps, c.ntp.allowClientCidrs.value, ip))
    && snap.restrictDefault == c.ntp.restrict.default && snap.kod == c.ntp.restrict.kod
    && snap.maxPacketsPerSec == c.ntp.admission.maxPacketsPerSec
    && snap.maxPacketsPerIp == c.ntp.admission.maxPacketsPerIp
    && snap.queryLogSize == c.ntp.queryLogSize
    && (c.ntp.keysFile == "" <==> snap.keys == None)
    && |snap.filters| == |c.filters|
    && forall i :: 0 <= i < |c.filters| ==> FilterAsWritten(ps, c.filters[i], snap.filters[i], snap.generation)
  }

  // ----- one compile

  lemma ViewMirrors(ps: Parsers, f: Filter, ctx: Context)
    requires CompileView(ps, f, ctx).Some?
    ensures ViewAsWritten(ps, f.name, f.view, CompileView(ps, f, ctx).value, ctx.generation)
  {
    hide RateEpoch;
  }

  lemma FilterMirrors(ps: Parsers, f: Filter, ctx: Context)
    requires CompileFilter(ps, f, ctx).Some?
    ensures FilterAsWritten(ps, f, CompileFilter(ps, f, ctx).value, ctx.generation)
  {
    hide CompileView, ViewAsWritten;
    ParsedPrefixes(ps, f.Cidrs());
    ViewMirrors(ps, f, ctx);
  }

  lemma AllowMirrors(ps: Parsers, cidrs: seq<string>, snap: Snapshot, ip: Addr)
    requires CompileAllow(ps, Some(cidrs)) == Some((snap.allow, snap.allowDenyAll))
    ensures Allowed(snap, ip) <==> Listed(ps, cidrs, ip)
  {
    hide Contains;
    if cidrs != [] {
      ParsedPrefixes(ps, cidrs);
      assert |snap.allow| == |cidrs| && forall j :: 0 <= j < |cidrs| ==> ps.prefix(cidrs[j]) == Some(snap.allow[j]);
      hide ParsePrefixes;
      if Listed(ps, cidrs, ip) {
        var i :| 0 <= i < |cidrs| && ps.prefix(cidrs[i]).Some? &&
                 (Contains(ps.prefix(cidrs[i]).value, ip.Unmap()) || Contains(ps.prefix(cidrs[i]).value, ip));
        assert Contains(snap.allow[i], ip.Unmap()) || Contains(snap.allow[i], ip);
      }
      if InPrefixes(snap.allow, ip) {
        var i :| 0 <= i < |snap.allow| && (Contains(snap.allow[i], ip.Unmap()) || Contains(snap.allow[i], ip));
        assert ps.prefix(cidrs[i]) == Some(snap.allow[i]);
      }
    }
  }

  lemma VersionsMirror(vs: seq<int>, snap: Snapshot, vn: int)
    requires vs != [] && snap.versions == (set v | v in vs)
    ensures VersionOk(snap, vn) <==> vn in vs
  {
    assert vs[0] in snap.versions;
  }

  lemma NormalizedLists(st: State)
    ensures Normalize(st).ntp.versions != [] && Normalize(st).ntp.allowClientCidrs.Some?
  {
  }

  lemma FiltersMirror(ps: Parsers, fs: seq<Filter>, ctx: Context)
    requires CompileFilters(ps, fs, ctx).Some?
    ensures var cs := CompileFilters(ps, fs, ctx).value;
            |cs| == |fs| && forall i :: 0 <= i < |fs| ==> FilterAsWritten(ps, fs[i], cs[i], ctx.generation)
  {
    hide CompileFilter, CompileFilters, FilterAsWritten;
    CompiledShape(ps, fs, ctx);
    forall i | 0 <= i < |fs|
      ensures FilterAsWritten(ps, fs[i], CompileFilters(ps, fs, ctx).value[i], ctx.generation)
    {
      FilterMirrors(ps, fs[i], ctx);
    }
  }

  /** Whatever compiles, compiles to a snapshot that does as its document says. */
  lemma CompileMirrors(env: Env, st: State, boot: string, ctx: Context, keyFile: Option<KeyTable>)
    requires Compile(env, st, boot, ctx, keyFile).Success?
    ensures var snap := Compile(env, st, boot, ctx, keyFile).value;
            AsWritten(env.ps, snap) && snap.compiledAt == ctx.now &&
            snap.keys == if snap.canonical.ntp.keysFile == "" then None else keyFile
  {
    hide FilterAsWritten, Normalize, CompileFilters, CompileAllow, ValidState, Allowed, Listed, VersionOk,
         Warnings.CompileWarnings;
    NormalizedLists(st);
    var snap, n := Compile(env, st, boot, ctx, keyFile).value, Normalize(st);
    FiltersMirror(env.ps, n.filters, ctx);
    forall ip
      ensures Allowed(snap, ip) <==> Listed(env.ps, n.ntp.allowClientCidrs.value, ip)
    {
      AllowMirrors(env.ps, n.ntp.allowClientCidrs.value, snap, ip);
    }
    forall vn
      ensures VersionOk(snap, vn) <==> vn in n.ntp.versions
    {
      VersionsMirror(n.ntp.versions, snap, vn);
    }
  }

  /** What a compile warns of, told by the document as it was before its defaults were
      filled in and by the snapshot it became. */
  lemma CompileWarnsExactly(
    env: Env, st: State, boot: string, ctx: Context, keyFile: Option<KeyTable>, w: Warning)
    requires Compile(env, st, boot, ctx, keyFile).Success?
    ensures var snap := Compile(env, st, boot, ctx, keyFile).value;
            w in snap.warnings <==>
            || (st.ntp.allowClientCidrs.None? && w == Warning(AllowlistPath, UniversalAllowlist))
            || (exists i :: 0 <= i < |snap.filters| && Warnings.AboutView(snap.filters[i].view, ctx.now, w))
            || exists i: nat :: Warnings.Warned(snap.filters, i, w)
  {
    hide CompileFilters, CompileAllow, ValidState, Normalize, Warnings.CompileWarnings, Warnings.AboutView,
         Warnings.Warned;
    Warnings.WarnedExactly(st, Compile(env, st, boot, ctx, keyFile).value.filters, ctx.now, w);
  }

  // ----- every run

  ghost predicate Mirrored(svc: Service, s: App) { s.active.Some? && AsWritten(svc.env.ps, s.active.value) }

  lemma ApplyMirrors(svc: Service, s: App, boot: string, req: ChangeIn, now: Instant, keyFile: Option<KeyTable>)
    requires Inv(svc, s, boot) && Mirrored(svc, s)
    ensures Mirrored(svc, ApplyStep(svc, s, req, now, keyFile).0)
  {
    assert Recency.Sound(s.cache, svc.max) && s.active.Some?;
    hide *;
    ApplyCases(svc, s, req, now, keyFile);
    if ApplyStep(svc, s, req, now, keyFile).1.fired {
      ActiveAfterCommit(svc, s, req, now, keyFile);
    } else {
      SameActive(svc, s, ApplyStep(svc, s, req, now, keyFile).0);
    }
  }

  lemma SameActive(svc: Service, s: App, t: App)
    requires Mirrored(svc, s) && t.active == s.active
    ensures Mirrored(svc, t)
  {
    hide AsWritten;
  }

  lemma ActiveAfterCommit(svc: Service, s: App, req: ChangeIn, now: Instant, keyFile: Option<KeyTable>)
    requires Recency.Sound(s.cache, svc.max) && s.active.Some? && ApplyStep(svc, s, req, now, keyFile).1.fired
    ensures Mirrored(svc, ApplyStep(svc, s, req, now, keyFile).0)
  {
    hide AsWritten, Compile, BuildOn;
    ApplyCases(svc, s, req, now, keyFile);
    var prev := s.active.value;
    var after, next := CandidateMade(svc, prev, req, now, keyFile);
    CompileMirrors(svc.env, after, prev.bootstrapRevision, Context(now, prev.generation + 1, Some(prev)), keyFile);
    hide ApplyStep, Recency.Lookup, Fingerprint, Recency.Sound, Recency.StoreApply, PlanFrom, QueryLog.Resized;
  }

  lemma ResetMirrors(svc: Service, s: App, w: World, reason: string)
    requires Mirrored(svc, s)
    ensures Mirrored(svc, ResetStep(svc, s, w, reason).0)
  {
    hide ResetStep, LoadBootstrap, AsWritten, Displaces, RebindBoth, EffectiveNtp, EffectiveMgmt, OldNtp, OldMgmt;
    var (s', r) := ResetStep(svc, s, w, reason);
    if r.Failure? {
      ResetAllOrNothing(svc, s, w, reason);
      assert s'.(ntpBound := s.ntpBound).active == s'.active;
    } else {
      ResetInstalls(svc, s, w, reason);
      LoadMirrors(svc, s, w);
    }
  }

  lemma LoadMirrors(svc: Service, s: App, w: World)
    requires LoadBootstrap(svc, s, w).Success?
    ensures AsWritten(svc.env.ps, LoadBootstrap(svc, s, w).value)
  {
    hide Compile, AsWritten;
    var gen := if s.active.Some? then s.active.value.generation + 1 else 0;
    var st := if svc.bootstrapPath then w.file.value else s.bootstrap.value.canonical;
    CompileMirrors(svc.env, st, "", Context(w.now, gen, None), w.keyFile);
  }

  lemma StepMirrors(svc: Service, s: App, boot: string, r: Request)
    requires Inv(svc, s, boot) && Mirrored(svc, s)
    ensures Mirrored(svc, Step(svc, s, r))
  {
    assert Recency.Sound(s.cache, svc.max);
    hide Inv, Mirrored, PlanStep, ApplyStep, ResetStep;
    match r
    case PlanRequest(req, now, keyFile) =>
      PlanTouchesCacheOnly(svc, s, req, now, keyFile);
      SameActive(svc, s, Step(svc, s, r));
    case ApplyRequest(req, now, keyFile) => ApplyMirrors(svc, s, boot, req, now, keyFile);
    case ResetRequest(w, reason) => ResetMirrors(svc, s, w, reason);
    case Query(e) => SameActive(svc, s, Step(svc, s, r));
  }

  lemma {:induction false} RunMirrors(svc: Service, s: App, boot: string, rs: seq<Request>)
    requires ValidService(svc) && Inv(svc, s, boot) && Mirrored(svc, s)
    ensures Mirrored(svc, Run(svc, s, rs))
    decreases |rs|
  {
    hide Inv, ValidService, Mirrored, Step;
    if rs != [] {
      StepKeepsInv(svc, s, boot, rs[0]);
      StepMirrors(svc, s, boot, rs[0]);
      RunMirrors(svc, Step(svc, s, rs[0]), boot, rs[1..]);
    }
  }

  lemma BootMirrors(svc: Service, st: State, now: Instant, keyFile: Option<KeyTable>)
    requires Boot(svc, st, now, keyFile).Success?
    ensures Mirrored(svc, Boot(svc, st, now, keyFile).value)
  {
    hide Compile, AsWritten, EffectiveNtp, EffectiveMgmt;
    CompileMirrors(svc.env, st, "", Context(now, 0, None), keyFile);
  }

  /** Over every run from a boot the active snapshot lets in, admits, restricts and
      answers exactly as the active document says. */
  lemma EveryRunAsWritten(svc: Service, st: State, now: Instant, keyFile: Option<KeyTable>, rs: seq<Request>)
    requires ValidService(svc) && Boot(svc, st, now, keyFile).Success?
    ensures var s := Run(svc, Boot(svc, st, now, keyFile).value, rs);
            s.active.Some? && AsWritten(svc.env.ps, s.active.value)
  {
    hide Inv, ValidService, Boot, Run, AsWritten;
    BootHolds(svc, st, now, keyFile);
    BootMirrors(svc, st, now, keyFile);
    var s := Boot(svc, st, now, keyFile).value;
    RunMirrors(svc, s, PipelineRuns.LastRevision([], s.active.value.revision), rs);
  }

  /** The NTP part of a snapshot keeps the rules of a document. */
  ghost predicate Legal(ps: Parsers, snap: Snapshot)
  {
    var n := snap.canonical.ntp;
    && snap.maxPacketsPerSec >= 1 && snap.maxPacketsPerIp >= 1 && 1 <= snap.queryLogSize <= 4096
    && (snap.restrictDefault == "serve" || snap.restrictDefault == "limited" || snap.restrictDefault == "ignore")
    && (forall vn :: VersionOk(snap, vn) ==> vn == 3 || vn == 4)
    && (forall i, j :: 0 <= i < j < |n.versions| ==> n.versions[i] != n.versions[j])
    && n.serveMode == "unicast" && !n.nts
    && n.allowClientCidrs.Some?
    && forall i :: 0 <= i < |n.allowClientCidrs.value| ==> ps.prefix(n.allowClientCidrs.value[i]).Some?
  }

  lemma NormalWords(c: State)
    requires Normalize(c) == c
    ensures c.ntp.restrict.default != "" && c.ntp.serveMode != ""
  {
    DefaultTwice(c.ntp.restrict.default, "serve");
    DefaultTwice(c.ntp.serveMode, "unicast");
  }

  lemma ActiveIsLegal(svc: Service, s: App, boot: string)
    requires Inv(svc, s, boot) && Mirrored(svc, s)
    ensures s.active.Some? && Legal(svc.env.ps, s.active.value)
  {
    assert SnapshotOk(svc, s.active.value);
    var c := s.active.value.canonical;
    assert Normalize(c) == c && ValidNtp(svc.env.ps, c.ntp) by { assert ValidState(svc.env, c); }
    hide Inv, SnapshotOk, Normalize, ValidState, FilterAsWritten, Listed, Allowed, VersionOk;
    NormalWords(c);
  }

  /** Over every run from a boot the limits of the active snapshot are positive, its
      versions are 3 and 4 or one of them, its restriction is one of the three, its
      query log has a legal size, and every listed client prefix parses. */
  lemma EveryRunLegal(svc: Service, st: State, now: Instant, keyFile: Option<KeyTable>, rs: seq<Request>)
    requires ValidService(svc) && Boot(svc, st, now, keyFile).Success?
    ensures var s := Run(svc, Boot(svc, st, now, keyFile).value, rs);
            s.active.Some? && Legal(svc.env.ps, s.active.value)
  {
    hide Inv, ValidService, Boot, Run, AsWritten, Legal;
    BootHolds(svc, st, now, keyFile);
    BootMirrors(svc, st, now, keyFile);
    var s := Boot(svc, st, now, keyFile).value;
    var boot := PipelineRuns.LastRevision([], s.active.value.revision);
    RunMirrors(svc, s, boot, rs);
    RunKeepsInv(svc, s, boot, rs);
    ActiveIsLegal(svc, Run(svc, s, rs), boot);
  }
}
