/** internal/app/operations.go seen from outside: what a committed change leaves in the
    document and in the snapshot that answers packets, and for how long. */
module Edits {
  import opened Wrappers
  import opened View
  import opened Model
  import opened Validate
  import opened Snapshot
  import opened Compiler
  import opened Operations
  import opened Pipeline
  import opened PipelineRuns
  import opened Mirror
  import Idempotence
  import Recency
  import QueryLog

  /** A filter with the defaults of its view filled in. */
  function Given(f: Filter): Filter { f.(view := MaterializeView(f.view)) }

  function Plain(name: string): string { if Blank(name) then "serve" else name }

  /** No filter of that name is left: none in the document, none compiled, and no
      address is matched by one. */
  ghost predicate Gone(snap: Snapshot, name: string)
  {
    && (forall f :: f in snap.canonical.filters ==> f.name != name)
    && (forall f :: f in snap.filters ==> f.name != name)
    && forall ip :: Match(snap.filters, ip).Some? ==> snap.filters[Match(snap.filters, ip).value].name != name
  }

  // ----- normalizing the result

  lemma NormalizedParts(st: State)
    ensures var n := Normalize(st);
            && n.ntp.admission == st.ntp.admission && n.ntp.queryLogSize == st.ntp.queryLogSize
            && n.management.http == st.management.http
            && n.ntp.restrict == Restrict(Plain(st.ntp.restrict.default), st.ntp.restrict.kod)
            && (st.ntp.allowClientCidrs.Some? ==> n.ntp.allowClientCidrs == st.ntp.allowClientCidrs)
            && (st.ntp.allowClientCidrs.None? ==> n.ntp.allowClientCidrs == Some(["0.0.0.0/0", "::/0"]))
            && |n.filters| == |st.filters|
            && forall i :: 0 <= i < |st.filters| ==> n.filters[i] == Given(st.filters[i])
  {
  }

  lemma GoneFromDocument(ps: Parsers, snap: Snapshot, name: string)
    requires AsWritten(ps, snap) && forall f :: f in snap.canonical.filters ==> f.name != name
    ensures Gone(snap, name)
  {
    hide Allowed, Listed, VersionOk, ViewAsWritten;
    forall f | f in snap.filters
      ensures f.name != name
    {
      var i :| 0 <= i < |snap.filters| && snap.filters[i] == f;
      assert FilterAsWritten(ps, snap.canonical.filters[i], f, snap.generation);
    }
  }

  // ----- one commit

  /** What a commit installs: its document is the normalized result of its operations,
      its snapshot does as that document says, and the query log has its size. */
  lemma CommitInstalls(svc: Service, s: App, boot: string, req: ChangeIn, now: Instant, keyFile: Option<KeyTable>)
    requires ValidService(svc) && Inv(svc, s, boot) && ApplyStep(svc, s, req, now, keyFile).1.fired
    ensures var s' := ApplyStep(svc, s, req, now, keyFile).0;
            s.active.Some? && s'.active.Some? &&
            var result := ApplyOperations(s.active.value.canonical, req.Operations());
            result.Success? && s'.active.value.canonical == Normalize(result.value) &&
            AsWritten(svc.env.ps, s'.active.value) && s'.log.cap == s'.active.value.queryLogSize
  {
    assert Recency.Sound(s.cache, svc.max) && s.active.Some?;
    var s' := ApplyStep(svc, s, req, now, keyFile).0;
    Idempotence.ApplyCommits(svc, s, boot, req, now, keyFile);
    ActiveAfterCommit(svc, s, req, now, keyFile);
    ApplyKeeps(svc, s, boot, req, now, keyFile);
    assert Inv(svc, s', boot) ==> s'.log.cap == s'.active.value.queryLogSize;
    hide Inv, ValidService, ApplyStep, ApplyOperations, Normalize, AsWritten, SnapshotOk;
  }

  /** The last operation of a committed change, applied to what the ones before it made
      of the document. */
  lemma LastStep(st: State, ops: seq<Operation>, front: seq<Operation>, op: Operation) returns (mid: State)
    requires ops == front + [op] && ApplyOperations(st, ops).Success?
    ensures ApplyOperations(st, front) == Success(mid) && ApplyOne(mid, op) == ApplyOperations(st, ops)
  {
    hide *;
    OneAfterAnother(st, front, op);
    mid := ApplyOperations(st, front).value;
  }

  /** Whatever else a committed change did, its last operation stands in the snapshot:
      admission, restriction, allowlist, query log, HTTP limits and filters are the
      payload's, and a removed name is gone. */
  lemma LastEditStands(
    svc: Service, s: App, boot: string, req: ChangeIn, now: Instant, keyFile: Option<KeyTable>,
    front: seq<Operation>, op: Operation)
    requires ValidService(svc) && Inv(svc, s, boot) && ApplyStep(svc, s, req, now, keyFile).1.fired
    requires req.Operations() == front + [op]
    ensures var s' := ApplyStep(svc, s, req, now, keyFile).0;
            s'.active.Some? && Stands(svc.env.ps, s'.active.value, op) &&
            (op.op.ReplaceQueryLog? ==> op.queryLog == Some(s'.log.cap))
  {
    var s' := ApplyStep(svc, s, req, now, keyFile).0;
    hide *;
    CommitInstalls(svc, s, boot, req, now, keyFile);
    var mid := LastStep(s.active.value.canonical, req.Operations(), front, op);
    LastStands(svc.env.ps, mid, op, s'.active.value);
  }

  /** The operation's payload is what the snapshot answers with. */
  ghost predicate Stands(ps: Parsers, snap: Snapshot, op: Operation)
  {
    var c := snap.canonical;
    match op.op
    case ReplaceAdmission => op.admission == Some(Admission(snap.maxPacketsPerSec, snap.maxPacketsPerIp))
    case ReplaceRestrict =>
      op.restrict.Some? && snap.kod == op.restrict.value.kod && snap.restrictDefault == Plain(op.restrict.value.default)
    case ReplaceAllowClientCidrs =>
      forall ip :: Allowed(snap, ip) <==> Listed(ps, op.allowClientCidrs.GetOr(["0.0.0.0/0", "::/0"]), ip)
    case ReplaceQueryLog => op.queryLog == Some(snap.queryLogSize)
    case ReplaceManagementHttp => op.http == Some(c.management.http)
    case ReplaceFilters =>
      |c.filters| == |snap.filters| == |op.filters| &&
      forall i :: 0 <= i < |op.filters| ==>
        c.filters[i] == Given(op.filters[i]) && FilterAsWritten(ps, c.filters[i], snap.filters[i], snap.generation)
    case UpsertFilter =>
      op.filter.Some? &&
      exists i :: 0 <= i < |c.filters| && i < |snap.filters| && c.filters[i] == Given(op.filter.value) &&
                  FilterAsWritten(ps, c.filters[i], snap.filters[i], snap.generation)
    case RemoveFilter => Gone(snap, op.name)
    case UnknownOp(_) => false
  }

  lemma LastStands(ps: Parsers, mid: State, op: Operation, snap: Snapshot)
    requires ApplyOne(mid, op).Success? && AsWritten(ps, snap)
    requires snap.canonical == Normalize(ApplyOne(mid, op).value)
    ensures Stands(ps, snap, op)
    ensures op.op.ReplaceQueryLog? ==> op.queryLog == Some(snap.queryLogSize)
  {
    hide ApplyOne, Normalize, Plain, Listed, Allowed, VersionOk, FilterAsWritten, Given, Gone;
    var t := ApplyOne(mid, op).value;
    NormalizedParts(t);
    ReplacesItsPart(mid, op);
    if op.op.RemoveFilter? {
      RemovalStands(ps, mid, op, snap);
    } else if op.op.UpsertFilter? {
      UpsertStands(ps, mid, op, snap);
    }
    OperationRefused(mid, op);
  }

  lemma GivenName()
    ensures forall f :: Given(f).name == f.name
  {
    hide MaterializeView;
  }

  lemma RemovalStands(ps: Parsers, mid: State, op: Operation, snap: Snapshot)
    requires op.op.RemoveFilter? && ApplyOne(mid, op).Success? && AsWritten(ps, snap)
    requires snap.canonical == Normalize(ApplyOne(mid, op).value)
    ensures Gone(snap, op.name)
  {
    hide ApplyOne, Normalize, Selects, AsWritten, Gone, Plain, Validate.UniqueNames, Given;
    var t := ApplyOne(mid, op).value;
    NormalizedParts(t);
    GivenName();
    var at := RemovesTheNamed(mid, op);
    forall f | f in snap.canonical.filters
      ensures f.name != op.name
    {
      var i :| 0 <= i < |snap.canonical.filters| && snap.canonical.filters[i] == f;
      assert t.filters[i] in t.filters;
    }
    GoneFromDocument(ps, snap, op.name);
  }

  lemma UpsertStands(ps: Parsers, mid: State, op: Operation, snap: Snapshot)
    requires op.op.UpsertFilter? && ApplyOne(mid, op).Success? && AsWritten(ps, snap)
    requires snap.canonical == Normalize(ApplyOne(mid, op).value)
    ensures Stands(ps, snap, op)
  {
    var t, f := ApplyOne(mid, op).value, op.filter;
    NormalizedParts(t);
    UpsertsTheFilter(mid, op);
    hide ApplyOne, Normalize, Plain, Listed, Allowed, VersionOk, FilterAsWritten, Given;
    var i := FirstOrEnd(mid.filters, f.value.name);
    assert t.filters[i] == f.value;
    assert FilterAsWritten(ps, snap.canonical.filters[i], snap.filters[i], snap.generation);
  }

  /** Where the first filter of a name stands, or the length of the list. */
  lemma {:induction false} FirstOrEnd(list: seq<Filter>, name: string) returns (i: nat)
    ensures i <= |list| && (i < |list| ==> FirstNamed(list, name, i))
    ensures i == |list| ==> forall g :: g in list ==> g.name != name
  {
    i := |list|;
    if list != [] {
      i := FirstOrEnd(list[..|list| - 1], name);
      assert forall k :: 0 <= k < |list| - 1 ==> list[..|list| - 1][k] == list[k];
      if i == |list| - 1 && list[i].name != name {
        i := |list|;
        assert forall k :: 0 <= k < |list| - 1 ==> list[k] in list[..|list| - 1];
      }
    }
  }

  // ----- a change of one operation

  /** The document with one part put back: with the operation's own part restored, the
      new document is the old one. */
  predicate OnlyIts(before: State, after: State, op: Op)
  {
    match op
    case ReplaceAdmission => after.(ntp := after.ntp.(admission := before.ntp.admission)) == before
    case ReplaceRestrict => after.(ntp := after.ntp.(restrict := before.ntp.restrict)) == before
    case ReplaceAllowClientCidrs => after.(ntp := after.ntp.(allowClientCidrs := before.ntp.allowClientCidrs)) == before
    case ReplaceQueryLog => after.(ntp := after.ntp.(queryLogSize := before.ntp.queryLogSize)) == before
    case ReplaceManagementHttp => after.(management := after.management.(http := before.management.http)) == before
    case ReplaceFilters => after.(filters := before.filters) == before
    case UpsertFilter => after.(filters := before.filters) == before
    case RemoveFilter => after.(filters := before.filters) == before
    case UnknownOp(_) => false
  }

  /** The whole effect on the document of one operation: nothing but its part. A
      removal keeps every filter of another name, in order and with its place among
      the others; an upsert keeps every filter of another name beside its own. */
  ghost predicate SoleEffect(b: State, a: State, op: Operation)
  {
    && OnlyIts(b, a, op.op)
    && (op.op.RemoveFilter? ==>
          exists at :: Selects(a.filters, b.filters, at) &&
                       forall i :: i in at <==> 0 <= i < |b.filters| && b.filters[i].name != op.name)
    && (op.op.UpsertFilter? ==>
          op.filter.Some? &&
          forall g :: g in a.filters <==>
                      g == Given(op.filter.value) || (g in b.filters && g.name != op.filter.value.name))
  }

  /** A committed change of one operation has the effect of that operation and leaves
      every other part of the active document as it was. */
  lemma SoleEditOnly(
    svc: Service, s: App, boot: string, req: ChangeIn, now: Instant, keyFile: Option<KeyTable>, op: Operation)
    requires ValidService(svc) && Inv(svc, s, boot) && ApplyStep(svc, s, req, now, keyFile).1.fired
    requires req.Operations() == [op]
    ensures var s' := ApplyStep(svc, s, req, now, keyFile).0;
            s.active.Some? && s'.active.Some? && SoleEffect(s.active.value.canonical, s'.active.value.canonical, op)
  {
    hide *;
    CommitInstalls(svc, s, boot, req, now, keyFile);
    ActiveIsNormal(svc, s, boot);
    var b := s.active.value.canonical;
    assert [] + [op] == [op];
    OneAfterAnother(b, [], op);
    SoleEffectOf(b, op);
  }

  lemma ActiveIsNormal(svc: Service, s: App, boot: string)
    requires Inv(svc, s, boot)
    ensures s.active.Some? && Normalize(s.active.value.canonical) == s.active.value.canonical
    ensures UniqueNames(s.active.value.canonical.filters)
  {
    assert SnapshotOk(svc, s.active.value);
    var b := s.active.value.canonical;
    assert Normalize(b) == b && ValidState(svc.env, b);
    hide Normalize, Inv, SnapshotOk;
  }

  lemma SoleEffectOf(b: State, op: Operation)
    requires Normalize(b) == b && UniqueNames(b.filters) && ApplyOne(b, op).Success?
    ensures SoleEffect(b, Normalize(ApplyOne(b, op).value), op)
  {
    hide Normalize, ApplyOne, OnlyIts, UniqueNames, Selects, Given;
    SoleEdit(b, op);
    var at := SoleRemoval(b, op);
    SoleUpsert(b, op);
  }

  lemma SoleEdit(b: State, op: Operation)
    requires Normalize(b) == b && ApplyOne(b, op).Success?
    ensures OnlyIts(b, Normalize(ApplyOne(b, op).value), op.op)
  {
    var t := ApplyOne(b, op).value;
    OperationRefused(b, op);
    ReplacesItsPart(b, op);
    ListEditsOnly(b, op);
    OneKeepsFixed(b, op);
    FixedSurvivesNormalize(b, t);
    NormalizedParts(b);
    NormalizedParts(t);
    hide ApplyOne, Normalize, Given, Plain, FixedPart, OnlyIts;
    if t.filters == b.filters {
      assert Normalize(t).filters == b.filters;
    }
    SameButIts(b, t, Normalize(t), op.op);
  }

  lemma ListEditsOnly(b: State, op: Operation)
    requires ApplyOne(b, op).Success?
    ensures op.op.RemoveFilter? || op.op.UpsertFilter? ==> ApplyOne(b, op).value.(filters := b.filters) == b
  {
    hide ApplyOne;
    if op.op.RemoveFilter? {
      var at := RemovesTheNamed(b, op);
    } else if op.op.UpsertFilter? {
      UpsertsTheFilter(b, op);
    }
  }

  /** Part by part: what only a Reset changes is compared whole. */
  lemma SameButIts(b: State, t: State, n: State, op: Op)
    requires OnlyIts(b, t, op) && FixedPart(n) == FixedPart(b)
    requires t.filters == b.filters ==> n.filters == b.filters
    requires n.ntp.admission == t.ntp.admission && n.ntp.queryLogSize == t.ntp.queryLogSize
    requires n.management.http == t.management.http
    requires t.ntp.restrict == b.ntp.restrict ==> n.ntp.restrict == b.ntp.restrict
    requires t.ntp.allowClientCidrs == b.ntp.allowClientCidrs ==> n.ntp.allowClientCidrs == b.ntp.allowClientCidrs
    ensures OnlyIts(b, n, op)
  {
  }

  lemma AlreadyGiven(b: State)
    requires Normalize(b) == b
    ensures forall f :: f in b.filters ==> Given(f) == f
  {
    hide MaterializeView;
    NormalizedParts(b);
    forall f | f in b.filters
      ensures Given(f) == f
    {
      var i :| 0 <= i < |b.filters| && b.filters[i] == f;
    }
  }

  lemma SoleRemoval(b: State, op: Operation) returns (at: seq<nat>)
    requires Normalize(b) == b && ApplyOne(b, op).Success?
    ensures op.op.RemoveFilter? ==>
              Selects(Normalize(ApplyOne(b, op).value).filters, b.filters, at) &&
              forall i :: i in at <==> 0 <= i < |b.filters| && b.filters[i].name != op.name
  {
    at := [];
    var t := ApplyOne(b, op).value;
    AlreadyGiven(b);
    NormalizedParts(t);
    hide ApplyOne, Normalize, Given, Plain;
    if op.op.RemoveFilter? {
      at := RemovesTheNamed(b, op);
      assert Normalize(t).filters == t.filters by {
        assert forall i :: 0 <= i < |t.filters| ==> t.filters[i] in b.filters;
      }
    }
  }

  lemma SoleUpsert(b: State, op: Operation)
    requires Normalize(b) == b && UniqueNames(b.filters) && ApplyOne(b, op).Success?
    ensures op.op.UpsertFilter? ==>
              op.filter.Some? &&
              forall g :: g in Normalize(ApplyOne(b, op).value).filters <==>
                          g == Given(op.filter.value) || (g in b.filters && g.name != op.filter.value.name)
  {
    if op.op.UpsertFilter? {
      var t := ApplyOne(b, op).value;
      AlreadyGiven(b);
      NormalizedParts(t);
      UpsertsTheFilter(b, op);
      hide ApplyOne, Normalize, Given, Plain, UniqueNames;
      forall g
        ensures g in Normalize(t).filters <==>
                g == Given(op.filter.value) || (g in b.filters && g.name != op.filter.value.name)
      {
        MappedMembers(t.filters, Normalize(t).filters, g);
        if exists f :: f in t.filters && g == Given(f) {
          var f :| f in t.filters && g == Given(f);
        }
        if g in b.filters && g.name != op.filter.value.name {
          assert g in t.filters && Given(g) == g;
        }
        if g == Given(op.filter.value) {
          assert op.filter.value in t.filters;
        }
      }
    }
  }

  lemma MappedMembers(list: seq<Filter>, mapped: seq<Filter>, g: Filter)
    requires |list| == |mapped| && forall i :: 0 <= i < |list| ==> mapped[i] == Given(list[i])
    ensures g in mapped <==> exists f :: f in list && g == Given(f)
  {
    hide Given;
    if g in mapped {
      var i :| 0 <= i < |mapped| && mapped[i] == g;
      assert list[i] in list && g == Given(list[i]);
    }
    if f :| f in list && g == Given(f) {
      var i :| 0 <= i < |list| && list[i] == f;
      assert mapped[i] == g;
    }
  }

  // ----- a removed filter stays away

  /** The operation puts a filter of that name into the document. */
  predicate Brings(op: Operation, name: string)
  {
    || (op.op.ReplaceFilters? && exists f :: f in op.filters && f.name == name)
    || (op.op.UpsertFilter? && op.filter.Some? && op.filter.value.name == name)
  }

  /** No Reset, and no apply with an operation that brings the name. */
  predicate NeverBrought(rs: seq<Request>, name: string)
  {
    forall r :: r in rs ==>
      !r.ResetRequest? && (r.ApplyRequest? ==> forall op :: op in r.req.Operations() ==> !Brings(op, name))
  }

  ghost predicate Absent(st: State, name: string) { forall f :: f in st.filters ==> f.name != name }

  lemma OneKeepsAbsent(st: State, op: Operation, name: string)
    requires Absent(st, name) && !Brings(op, name) && ApplyOne(st, op).Success?
    ensures Absent(ApplyOne(st, op).value, name)
  {
    ReplacesItsPart(st, op);
    if op.op.RemoveFilter? {
      var at := RemovesTheNamed(st, op);
    } else if op.op.UpsertFilter? {
      UpsertsTheFilter(st, op);
      var i := FirstOrEnd(st.filters, op.filter.value.name);
      hide ApplyOne;
    } else {
      hide Upsert, Without, Named;
    }
  }

  lemma {:induction false} OperationsKeepAbsent(st: State, ops: seq<Operation>, name: string)
    requires Absent(st, name) && ApplyOperations(st, ops).Success? && forall op :: op in ops ==> !Brings(op, name)
    ensures Absent(ApplyOperations(st, ops).value, name)
    decreases |ops|
  {
    hide ApplyOne, Absent, Brings;
    if ops != [] {
      OneKeepsAbsent(st, ops[0], name);
      OperationsKeepAbsent(ApplyOne(st, ops[0]).value, ops[1..], name);
    }
  }

  lemma NormalizeKeepsAbsent(st: State, name: string)
    requires Absent(st, name)
    ensures Absent(Normalize(st), name)
  {
    NormalizedParts(st);
    hide Normalize, Plain;
    forall f | f in Normalize(st).filters
      ensures f.name != name
    {
      var i :| 0 <= i < |Normalize(st).filters| && Normalize(st).filters[i] == f;
      assert st.filters[i] in st.filters;
    }
  }

  ghost predicate Missing(s: App, name: string) { s.active.Some? && Absent(s.active.value.canonical, name) }

  lemma StepKeepsMissing(svc: Service, s: App, boot: string, r: Request, name: string)
    requires ValidService(svc) && Inv(svc, s, boot) && Missing(s, name) && NeverBrought([r], name)
    ensures Missing(Step(svc, s, r), name)
  {
    assert Recency.Sound(s.cache, svc.max);
    assert !r.ResetRequest? && (r.ApplyRequest? ==> forall op :: op in r.req.Operations() ==> !Brings(op, name)) by {
      assert r in [r];
    }
    hide Inv, ValidService, PlanStep, ApplyStep, ResetStep, Absent, Brings, QueryLog.Inserted, Normalize;
    if r.PlanRequest? {
      PlanTouchesCacheOnly(svc, s, r.req, r.now, r.keyFile);
    } else if r.ApplyRequest? {
      ApplyCases(svc, s, r.req, r.now, r.keyFile);
      if ApplyStep(svc, s, r.req, r.now, r.keyFile).1.fired {
        CommitInstalls(svc, s, boot, r.req, r.now, r.keyFile);
        OperationsKeepAbsent(s.active.value.canonical, r.req.Operations(), name);
        NormalizeKeepsAbsent(ApplyOperations(s.active.value.canonical, r.req.Operations()).value, name);
      }
    }
    hide Commit, Recency.Lookup, Fingerprint, BuildCandidate, ApplyOperations;
  }

  lemma {:induction false} RunKeepsMissing(svc: Service, s: App, boot: string, rs: seq<Request>, name: string)
    requires ValidService(svc) && Inv(svc, s, boot) && Missing(s, name) && NeverBrought(rs, name)
    ensures Missing(Run(svc, s, rs), name)
    decreases |rs|
  {
    hide Inv, ValidService, Missing, Step, Brings;
    if rs != [] {
      StepKeepsInv(svc, s, boot, rs[0]);
      StepKeepsMissing(svc, s, boot, rs[0], name);
      RunKeepsMissing(svc, Step(svc, s, rs[0]), boot, rs[1..], name);
    }
  }

  /** A filter removed by a committed change is gone, and stays gone through every run
      that neither resets nor brings its name back: no address is matched by it. */
  lemma RemovedStaysAway(
    svc: Service, s: App, boot: string, req: ChangeIn, now: Instant, keyFile: Option<KeyTable>,
    front: seq<Operation>, op: Operation, rs: seq<Request>)
    requires ValidService(svc) && Inv(svc, s, boot) && Mirrored(svc, s)
    requires ApplyStep(svc, s, req, now, keyFile).1.fired
    requires req.Operations() == front + [op] && op.op.RemoveFilter? && NeverBrought(rs, op.name)
    ensures var t := Run(svc, ApplyStep(svc, s, req, now, keyFile).0, rs);
            t.active.Some? && Gone(t.active.value, op.name)
  {
    var s1 := ApplyStep(svc, s, req, now, keyFile).0;
    LastEditStands(svc, s, boot, req, now, keyFile, front, op);
    assert s1.active.Some? && Gone(s1.active.value, op.name) && Missing(s1, op.name) by { hide Inv, ApplyStep; }
    hide *;
    ApplyKeeps(svc, s, boot, req, now, keyFile);
    ApplyMirrors(svc, s, boot, req, now, keyFile);
    RunKeepsMissing(svc, s1, boot, rs, op.name);
    RunMirrors(svc, s1, boot, rs);
    MissingIsGone(svc, Run(svc, s1, rs), op.name);
  }

  lemma MissingIsGone(svc: Service, s: App, name: string)
    requires Missing(s, name) && Mirrored(svc, s)
    ensures s.active.Some? && Gone(s.active.value, name)
  {
    hide AsWritten, Gone;
    GoneFromDocument(svc.env.ps, s.active.value, name);
  }
}
