/** internal/app/reset.go: a Reset starts afresh. What it installs is what a process booted
    on the same document at that instant would serve. */
module FreshReset {
  import opened Wrappers
  import opened NtpTime
  import opened View
  import opened Model
  import opened Validate
  import opened Snapshot
  import opened Warnings
  import opened Compiler
  import opened Pipeline
  import opened PipelineRuns
  import Idempotence
  import JsonDiff
  import QueryLog
  import Routing

  // ----- the generation is only a stamp

  function Stamped(c: CompiledFilter, g: nat): CompiledFilter { c.(view := c.view.(generation := g)) }

  function StampedAll(fs: seq<CompiledFilter>, g: nat): (r: seq<CompiledFilter>)
    ensures |r| == |fs| && forall i :: 0 <= i < |fs| ==> r[i] == Stamped(fs[i], g)
  {
    seq(|fs|, i requires 0 <= i < |fs| => Stamped(fs[i], g))
  }

  /** The snapshot with another generation, on itself and on its views. */
  function Restamped(s: Snapshot, g: nat): Snapshot { s.(generation := g, filters := StampedAll(s.filters, g)) }

  lemma ViewStamped(ps: Parsers, f: Filter, now: Instant, g: nat, h: nat)
    ensures CompileView(ps, f, Context(now, h, None)) ==
            match CompileView(ps, f, Context(now, g, None))
            case None => None
            case Some(v) => Some(v.(generation := h))
  {
  }

  lemma {:induction false} FiltersStamped(ps: Parsers, fs: seq<Filter>, now: Instant, g: nat, h: nat)
    ensures CompileFilters(ps, fs, Context(now, h, None)) ==
            match CompileFilters(ps, fs, Context(now, g, None))
            case None => None
            case Some(cs) => Some(StampedAll(cs, h))
  {
    hide CompileView;
    if fs == [] {
      assert StampedAll([], h) == [];
    } else {
      ViewStamped(ps, fs[0], now, g, h);
      FiltersStamped(ps, fs[1..], now, g, h);
      var ctx := Context(now, g, None);
      var c, rest := CompileFilter(ps, fs[0], ctx), CompileFilters(ps, fs[1..], ctx);
      if c.Some? && rest.Some? {
        assert StampedAll([c.value] + rest.value, h) == [Stamped(c.value, h)] + StampedAll(rest.value, h);
      }
    }
  }

  lemma {:induction false} WarningsStamped(fs: seq<CompiledFilter>, now: Instant, g: nat)
    ensures FilterWarnings(StampedAll(fs, g), now) == FilterWarnings(fs, now)
  {
    if fs != [] {
      WarningsStamped(fs[1..], now, g);
      assert StampedAll(fs, g)[1..] == StampedAll(fs[1..], g);
      SameViewWarnings(fs[0].view, now, g);
    }
    hide ViewWarnings;
  }

  lemma SameViewWarnings(v: View, now: Instant, g: nat)
    ensures ViewWarnings(v.(generation := g), now) == ViewWarnings(v, now)
  {
  }

  lemma {:induction false} OverlapsWithStamped(fs: seq<CompiledFilter>, g: nat, i: nat, j: nat)
    requires i < |fs| && j <= |fs|
    ensures OverlapsWith(StampedAll(fs, g), i, j) == OverlapsWith(fs, i, j)
    decreases |fs| - j
  {
    if j < |fs| {
      OverlapsWithStamped(fs, g, i, j + 1);
    }
  }

  lemma {:induction false} OverlapsStamped(fs: seq<CompiledFilter>, g: nat, i: nat)
    requires i <= |fs|
    ensures OverlapsFrom(StampedAll(fs, g), i) == OverlapsFrom(fs, i)
    decreases |fs| - i
  {
    hide OverlapsWith;
    if i < |fs| {
      OverlapsWithStamped(fs, g, i, i + 1);
      OverlapsStamped(fs, g, i + 1);
    }
  }

  /** With no snapshot before it, a compile depends on the generation in nothing but the
      stamp. */
  lemma CompileStamped(env: Env, st: State, now: Instant, g: nat, h: nat, keyFile: Option<KeyTable>)
    ensures Compile(env, st, "", Context(now, h, None), keyFile) ==
            match Compile(env, st, "", Context(now, g, None), keyFile)
            case Failure(e) => Failure(e)
            case Success(s) => Success(Restamped(s, h))
  {
    hide CompileFilters, Normalize, ValidState, CompileAllow, FilterWarnings, OverlapsFrom, StampedAll;
    var n := Normalize(st);
    FiltersStamped(env.ps, n.filters, now, g, h);
    var fs := CompileFilters(env.ps, n.filters, Context(now, g, None));
    if fs.Some? {
      WarningsStamped(fs.value, now, h);
      OverlapsStamped(fs.value, h, 0);
    }
  }

  // ----- Reset and Boot

  /** The document a Reset reads: the file, or the one it started with. */
  function Document(svc: Service, s: App, w: World): Option<State>
  {
    if svc.bootstrapPath then (if w.file.Success? then Some(w.file.value) else None)
    else if s.bootstrap.Some? then Some(s.bootstrap.value.canonical) else None
  }

  lemma LoadIsBoot(svc: Service, s: App, w: World, st: State)
    requires Document(svc, s, w) == Some(st)
    ensures var g := if s.active.Some? then s.active.value.generation + 1 else 0;
            LoadBootstrap(svc, s, w) ==
            match Boot(svc, st, w.now, w.keyFile)
            case Failure(e) => Failure(e)
            case Success(b) => if b.active.Some? then Success(Restamped(b.active.value, g)) else Failure(Internal)
  {
    hide Compile, Restamped, EffectiveNtp, EffectiveMgmt;
    var g := if s.active.Some? then s.active.value.generation + 1 else 0;
    CompileStamped(svc.env, st, w.now, 0, g, w.keyFile);
  }

  lemma BootIs(svc: Service, st: State, now: Instant, keyFile: Option<KeyTable>)
    requires Boot(svc, st, now, keyFile).Success?
    ensures var b := Boot(svc, st, now, keyFile).value;
            b.active.Some? && b.bootstrap == b.active && b.cache == [] && b.log.kept == [] &&
            1 <= b.active.value.queryLogSize <= QueryLog.MAX_SIZE && b.log.cap == b.active.value.queryLogSize &&
            b.mgmtEffective == Some(EffectiveMgmt(svc, b.active.value.managementAddress))
  {
    hide Compile, Normalize, SnapshotOk, EffectiveNtp, EffectiveMgmt;
    CompiledOk(svc, st, "", Context(now, 0, None), keyFile);
    ValidLogSize(svc, Boot(svc, st, now, keyFile).value.active.value);
  }

  /** A Reset that succeeds leaves the state that booting its document at that instant
      would: the same snapshot up to the generation stamped on it, nothing logged and
      nothing cached. The history goes on: generation, audit and counts continue,
      and the replaced snapshot is the previous one. */
  lemma ResetIsBoot(svc: Service, s: App, w: World, reason: string)
    requires ResetStep(svc, s, w, reason).1.Success?
    ensures var s' := ResetStep(svc, s, w, reason).0;
            var g := if s.active.Some? then s.active.value.generation + 1 else 0;
            Document(svc, s, w).Some? &&
            var b := Boot(svc, Document(svc, s, w).value, w.now, w.keyFile);
            b.Success? && b.value.active.Some? &&
            s'.active == Some(Restamped(b.value.active.value, g)) && s'.bootstrap == s'.active &&
            s'.previous == (if s.active.Some? then s.active else s.previous) &&
            s'.cache == b.value.cache && s'.log == b.value.log && s'.mgmtEffective == b.value.mgmtEffective &&
            s'.applyOk == s.applyOk + 1 && s'.applyError == s.applyError &&
            |s'.audit| == |s.audit| + 1 && s'.audit[..|s.audit|] == s.audit
  {
    hide *;
    ResetLoads(svc, s, w, reason);
    var next := LoadBootstrap(svc, s, w).value;
    ResetLeaves(svc, s, w, reason, next);
    var st := ReadDocument(svc, s, w);
    LoadIsBoot(svc, s, w, st);
    BootIs(svc, st, w.now, w.keyFile);
    var b := Boot(svc, st, w.now, w.keyFile).value;
    StampKeeps(b.active.value, if s.active.Some? then s.active.value.generation + 1 else 0);
  }

  lemma ResetLoads(svc: Service, s: App, w: World, reason: string)
    requires ResetStep(svc, s, w, reason).1.Success?
    ensures LoadBootstrap(svc, s, w).Success?
  {
    hide LoadBootstrap, RebindBoth, Install;
  }

  lemma ResetLeaves(svc: Service, s: App, w: World, reason: string, next: Snapshot)
    requires ResetStep(svc, s, w, reason).1.Success? && LoadBootstrap(svc, s, w) == Success(next)
    ensures var s' := ResetStep(svc, s, w, reason).0;
            s'.active == s'.bootstrap == Some(next) &&
            s'.previous == (if s.active.Some? then s.active else s.previous) &&
            s'.cache == [] && s'.log.kept == [] &&
            (1 <= next.queryLogSize <= QueryLog.MAX_SIZE ==> s'.log.cap == next.queryLogSize) &&
            s'.mgmtEffective == Some(EffectiveMgmt(svc, next.managementAddress)) &&
            s'.applyOk == s.applyOk + 1 && s'.applyError == s.applyError &&
            |s'.audit| == |s.audit| + 1 && s'.audit[..|s.audit|] == s.audit
  {
    hide LoadBootstrap, RebindBoth, Install, SnapshotOk, Displaces, EffectiveNtp, EffectiveMgmt, OldNtp, OldMgmt;
    LoadedIs(svc, s, w);
    RebindOutcome(svc, s, next, w);
    var s1 := RebindBoth(svc, s, next, w).0;
    Installed(svc, s1, next, reason);
    InstalledRest(svc, s1, next, reason);
  }

  lemma StampKeeps(s: Snapshot, g: nat)
    ensures var t := Restamped(s, g);
            t.queryLogSize == s.queryLogSize && t.managementAddress == s.managementAddress
  {
  }

  lemma InstalledRest(svc: Service, s: App, next: Snapshot, reason: string)
    ensures var s' := Install(svc, s, next, reason).0;
            s'.previous == (if s.active.Some? then s.active else s.previous) && s'.applyError == s.applyError
  {
  }

  lemma ReadDocument(svc: Service, s: App, w: World) returns (st: State)
    requires LoadBootstrap(svc, s, w).Success?
    ensures Document(svc, s, w) == Some(st)
  {
    hide Compile;
    st := if svc.bootstrapPath then w.file.value else s.bootstrap.value.canonical;
  }

  /** A document that would not boot does not load, with the same error and nothing
      changed; without a document there is the error of reading it. */
  lemma UnbootableResetFails(svc: Service, s: App, w: World, reason: string)
    ensures Document(svc, s, w).None? ==>
              ResetStep(svc, s, w, reason) ==
              (s, Failure(if svc.bootstrapPath && w.file.Failure? then w.file.error else ValidationFailed))
    ensures Document(svc, s, w).Some? ==>
              var b := Boot(svc, Document(svc, s, w).value, w.now, w.keyFile);
              b.Failure? ==> ResetStep(svc, s, w, reason) == (s, Failure(b.error))
  {
    hide Boot, RebindBoth, Install, Compile;
    if Document(svc, s, w).Some? {
      LoadIsBoot(svc, s, w, Document(svc, s, w).value);
    }
  }

  // ----- what a fresh clock serves

  /** A clock set at now by a compile that looks at no earlier snapshot, mode by mode: at
      any instant t where only the host's clock counts, at now where the clock
      has been anchored there. */
  ghost predicate ServesAfresh(ps: Parsers, w: ViewSpec, v: View, now: Instant)
  {
    match w.mode
    case FollowReal => forall t :: Served(v, t) == ClampServed(t.wall)
    case Offset => forall t: Instant :: Served(v, t) == ClampServed(t.wall + w.offset)
    case Absolute =>
      ps.time(w.absolute).Some? &&
      forall t: Instant :: -0x8000_0000_0000_0000 <= t.mono - now.mono < 0x8000_0000_0000_0000 ==>
        Served(v, t) == ClampServed(ps.time(w.absolute).value + (t.mono - now.mono))
    case Freeze => ps.time(w.freezeAt).Some? && forall t :: Served(v, t) == ClampServed(ps.time(w.freezeAt).value)
    case Rate =>
      && (w.epoch == "" ==> Served(v, now) == ClampServed(now.wall))
      && (w.epoch != "" ==> ps.time(w.epoch).Some? && Served(v, now) == ClampServed(ps.time(w.epoch).value))
    case OtherMode(_) => true
  }

  lemma FreshView(ps: Parsers, f: Filter, now: Instant, g: nat)
    requires CompileView(ps, f, Context(now, g, None)).Some?
    ensures ServesAfresh(ps, f.view, CompileView(ps, f, Context(now, g, None)).value, now)
  {
    var v := CompileView(ps, f, Context(now, g, None)).value;
    hide ClampServed;
    if f.view.mode.Rate? {
      assert Sub(now, v.epochMono) == 0;
      assert RateDelta(0, v.rate) == 0 by {
        RateDeltaIs(0, v.rate);
        TruncateInt(0);
      }
      assert Served(v, now) == ClampServed(v.epochVirtual);
      hide RateDelta;
    }
  }

  lemma FreshFilters(ps: Parsers, fs: seq<Filter>, now: Instant, g: nat)
    requires CompileFilters(ps, fs, Context(now, g, None)).Some?
    ensures var cs := CompileFilters(ps, fs, Context(now, g, None)).value;
            |cs| == |fs| && forall i :: 0 <= i < |fs| ==> ServesAfresh(ps, fs[i].view, cs[i].view, now)
  {
    hide CompileView, ServesAfresh;
    Routing.CompiledShape(ps, fs, Context(now, g, None));
    forall i | 0 <= i < |fs|
      ensures ServesAfresh(ps, fs[i].view, CompileFilters(ps, fs, Context(now, g, None)).value[i].view, now)
    {
      FreshView(ps, fs[i], now, g);
    }
  }

  /** Every filter of the snapshot serves its clock set at now. */
  ghost predicate AllFresh(ps: Parsers, snap: Snapshot, now: Instant)
  {
    |snap.filters| == |snap.canonical.filters| &&
    forall i :: 0 <= i < |snap.filters| ==> ServesAfresh(ps, snap.canonical.filters[i].view, snap.filters[i].view, now)
  }

  lemma FreshCompile(env: Env, st: State, boot: string, now: Instant, g: nat, keyFile: Option<KeyTable>)
    requires Compile(env, st, boot, Context(now, g, None), keyFile).Success?
    ensures AllFresh(env.ps, Compile(env, st, boot, Context(now, g, None), keyFile).value, now)
  {
    hide CompileFilters, ServesAfresh, Normalize, ValidState, CompileAllow, CompileWarnings;
    FreshFilters(env.ps, Normalize(st).filters, now, g);
  }

  /** After a boot every clock is set at the instant of the boot. */
  lemma BootIsFresh(svc: Service, st: State, now: Instant, keyFile: Option<KeyTable>)
    requires Boot(svc, st, now, keyFile).Success?
    ensures var b := Boot(svc, st, now, keyFile).value;
            b.active.Some? && AllFresh(svc.env.ps, b.active.value, now) && b.active.value.canonical == Normalize(st) &&
            b.active.value.generation == 0
  {
    hide Compile, Normalize, AllFresh, EffectiveNtp, EffectiveMgmt, SnapshotOk;
    FreshCompile(svc.env, st, "", now, 0, keyFile);
    CompiledOk(svc, st, "", Context(now, 0, None), keyFile);
  }

  /** After a Reset every clock is set at the instant of the Reset, whatever it had been
      before: a rate clock with no epoch key serves the host's wall time there, one
      with a key the instant its key names. */
  lemma ResetIsFresh(svc: Service, s: App, w: World, reason: string)
    requires ResetStep(svc, s, w, reason).1.Success?
    ensures var s' := ResetStep(svc, s, w, reason).0;
            s'.active.Some? && AllFresh(svc.env.ps, s'.active.value, w.now) &&
            Document(svc, s, w).Some? && s'.active.value.canonical == Normalize(Document(svc, s, w).value)
  {
    hide ResetStep, Boot, Normalize, Document, AllFresh, Restamped;
    ResetIsBoot(svc, s, w, reason);
    var st := Document(svc, s, w).value;
    BootIsFresh(svc, st, w.now, w.keyFile);
    var b := Boot(svc, st, w.now, w.keyFile).value.active.value;
    StampedFresh(svc.env.ps, b, w.now, if s.active.Some? then s.active.value.generation + 1 else 0);
  }

  lemma StampedFresh(ps: Parsers, s: Snapshot, now: Instant, g: nat)
    requires AllFresh(ps, s, now)
    ensures AllFresh(ps, Restamped(s, g), now) && Restamped(s, g).canonical == s.canonical
  {
    hide ServesAfresh;
    forall i | 0 <= i < |s.filters|
      ensures ServesAfresh(ps, s.canonical.filters[i].view, Restamped(s, g).filters[i].view, now)
    {
      StampedServes(s.filters[i].view, g);
      StampedFreshly(ps, s.canonical.filters[i].view, s.filters[i].view, now, g);
    }
  }

  lemma StampedServes(v: View, g: nat)
    ensures forall t :: Served(v.(generation := g), t) == Served(v, t)
  {
    hide RateDelta, ClampServed;
  }

  lemma StampedFreshly(ps: Parsers, w: ViewSpec, v: View, now: Instant, g: nat)
    requires ServesAfresh(ps, w, v, now)
    ensures ServesAfresh(ps, w, v.(generation := g), now)
  {
    StampedServes(v, g);
    hide Served, ClampServed;
  }

  // ----- what a Reset answers with

  /** The answer to a Reset: from the replaced revision to the new one, with a diff that
      patches the old document's tree into the new one's, no operations, no drift
      (what is active is what was booted), and the number of its audit event. */
  lemma ResetReports(svc: Service, s: App, w: World, reason: string)
    requires ValidService(svc) && s.active.Some? && ResetStep(svc, s, w, reason).1.Success?
    ensures var (s', r) := ResetStep(svc, s, w, reason);
            s'.active.Some? && r.Success? &&
            var before, after, res := s.active.value, s'.active.value, r.value;
            res.plan.previousRevision == before.revision && res.plan.candidateRevision == after.revision &&
            res.runtimeRevision == after.revision && res.generation == after.generation == before.generation + 1 &&
            !res.plan.drifted && res.plan.operations == [] && res.plan.warnings == Notices(after.warnings) &&
            res.auditId == |s'.audit| &&
            JsonDiff.PatchAll(Some(JsonDiff.Embed(svc.tree(before.canonical))), res.plan.diff) ==
            Some(JsonDiff.Embed(svc.tree(after.canonical)))
  {
    hide LoadBootstrap, RebindBoth, SnapshotOk, Displaces, EffectiveNtp, EffectiveMgmt, OldNtp, OldMgmt, ValidService,
         Notices, QueryLog.Resized;
    LoadedIs(svc, s, w);
    var next := LoadBootstrap(svc, s, w).value;
    RebindOutcome(svc, s, next, w);
    Idempotence.DiffIsPatch(svc, s.active.value.canonical, next.canonical);
    hide JsonDiff.PatchAll;
  }

  // ----- where the listeners go

  /** Equal but for ASCII case. */
  predicate SameIgnoringCase(a: string, lower: string)
  {
    |a| == |lower| && forall i :: 0 <= i < |a| ==> a[i] == lower[i] || a[i] as int + 32 == lower[i] as int
  }

  predicate OffWord(s: string)
  {
    s == "" || s == "-" || SameIgnoringCase(s, "off") || SameIgnoringCase(s, "none")
  }

  /** White space around it or not: nothing, a dash, or the word off or none. */
  ghost predicate SaysOff(s: string)
  {
    exists i, j :: 0 <= i <= j <= |s| && Blank(s[..i]) && Blank(s[j..]) && OffWord(s[i..j])
  }

  /** An override decides where a listener goes, whatever the document says, and turns
      management off if it says so; without one the document decides. */
  lemma OverrideWins(svc: Service, addr: string)
    ensures EffectiveNtp(svc, addr) == if svc.ntpOverride == "" then addr else svc.ntpOverride
    ensures EffectiveMgmt(svc, addr) ==
            if svc.mgmtOverride == "" then addr else if SaysOff(svc.mgmtOverride) then "" else svc.mgmtOverride
  {
    OffMeansOff(svc.mgmtOverride);
    hide ManagementOff, SaysOff;
  }

  lemma LowerTwoWays(s: string)
    ensures ToLower(s) in {"", "off", "none", "-"} <==> OffWord(s)
  {
    if s == "-" {
      assert ToLower(s) == "-";
    }
    if SameIgnoringCase(s, "off") {
      assert ToLower(s) == "off";
    }
    if SameIgnoringCase(s, "none") {
      assert ToLower(s) == "none";
    }
    if ToLower(s) in {"", "off", "none", "-"} {
      assert forall i :: 0 <= i < |s| ==> ToLower(s)[i] == Lower(s[i]);
      assert ToLower(s) == "-" ==> s == "-";
    }
  }

  lemma {:induction false} TrimLeftBlank(a: string, t: string)
    requires Blank(a)
    ensures TrimLeft(a + t) == TrimLeft(t)
  {
    if a == "" {
      assert a + t == t;
    } else {
      assert (a + t)[1..] == a[1..] + t;
      TrimLeftBlank(a[1..], t);
    }
  }

  lemma {:induction false} TrimRightBlank(t: string, b: string)
    requires Blank(b)
    ensures TrimRight(t + b) == TrimRight(t)
  {
    if b == "" {
      assert t + b == t;
    } else {
      var n := |b| - 1;
      assert (t + b)[..|t + b| - 1] == t + b[..n];
      TrimRightBlank(t, b[..n]);
    }
  }

  lemma {:induction false} TrimmedLeft(s: string) returns (i: nat)
    ensures i <= |s| && TrimLeft(s) == s[i..] && Blank(s[..i])
  {
    i := 0;
    if s != "" && Space(s[0]) {
      i := TrimmedLeft(s[1..]);
      i := i + 1;
      assert s[..i] == [s[0]] + s[1..][..i - 1] && s[i..] == s[1..][i - 1..];
    }
  }

  lemma {:induction false} TrimmedRight(s: string) returns (j: nat)
    ensures j <= |s| && TrimRight(s) == s[..j] && Blank(s[j..])
  {
    j := |s|;
    if s != "" && Space(s[|s| - 1]) {
      j := TrimmedRight(s[..|s| - 1]);
      assert s[j..] == s[..|s| - 1][j..] + [s[|s| - 1]] && s[..j] == s[..|s| - 1][..j];
    }
  }

  lemma TrimmedWord(a: string, w: string, b: string)
    requires Blank(a) && Blank(b) && (w == "" || (!Space(w[0]) && !Space(w[|w| - 1])))
    ensures TrimRight(TrimLeft(a + w + b)) == w
  {
    hide Space, Blank;
    assert a + w + b == a + (w + b);
    TrimLeftBlank(a, w + b);
    if w == "" {
      assert w + b == b + "";
      TrimLeftBlank(b, "");
    } else {
      TrimRightBlank(w, b);
    }
  }

  lemma WordEdges(w: string)
    requires OffWord(w)
    ensures w == "" || (!Space(w[0]) && !Space(w[|w| - 1]))
  {
  }

  lemma OffSays(s: string)
    requires OffWord(TrimRight(TrimLeft(s)))
    ensures SaysOff(s)
  {
    hide OffWord, Blank, TrimLeft, TrimRight;
    var i := TrimmedLeft(s);
    var k := TrimmedRight(s[i..]);
    assert s[i..i + k] == s[i..][..k] && s[i + k..] == s[i..][k..];
  }

  lemma SaysIsOff(s: string)
    requires SaysOff(s)
    ensures OffWord(TrimRight(TrimLeft(s)))
  {
    hide OffWord, Blank, TrimLeft, TrimRight;
    var i, j :| 0 <= i <= j <= |s| && Blank(s[..i]) && Blank(s[j..]) && OffWord(s[i..j]);
    assert s == s[..i] + s[i..j] + s[j..];
    WordEdges(s[i..j]);
    TrimmedWord(s[..i], s[i..j], s[j..]);
  }

  lemma OffMeansOff(s: string)
    ensures ManagementOff(s) <==> SaysOff(s)
  {
    hide OffWord, SaysOff, TrimLeft, TrimRight, ToLower;
    LowerTwoWays(TrimRight(TrimLeft(s)));
    if ManagementOff(s) {
      OffSays(s);
    }
    if SaysOff(s) {
      SaysIsOff(s);
    }
  }
}
