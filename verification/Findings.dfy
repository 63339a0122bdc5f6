/** The four expectations that fail, each at a concrete run of one service. */
module Findings {
  import opened Wrappers
  import opened NtpTime
  import opened View
  import opened Model
  import opened Snapshot
  import opened Warnings
  import opened Compiler
  import opened Operations
  import opened OperationJson
  import opened Recency
  import opened Pipeline
  import opened PipelineRuns
  import opened Idempotence
  import opened Retention
  import opened Agreement
  import opened Witness
  import EpochChain
  import JsonDiff

  // ----- a lost rollback

  const MOVED := BASE.(ntp := ":1123", mgmt := ":9088")

  /** NTP binds, management does not, and nor does the way back. */
  function BadWorld(now: Instant): World
  {
    World(Success(Document(MOVED)), now, None, Success(()), true, false, false)
  }

  /** The old file is back and everything binds. */
  function GoodWorld(now: Instant): World
  {
    World(Success(Document(BASE)), now, None, Success(()), true, true, true)
  }

  lemma Reloads(s: App, d: Draft, w: World)
    requires d.Sane() && w.file == Success(Document(d)) && w.keyFile.None?
    ensures var r := LoadBootstrap(Serving(), s, w);
            r.Success? && r.value.ntpAddress == d.ntp && r.value.managementAddress == d.mgmt
  {
    hide Serving, Document, Compile, Revision;
    ServingHas();
    DocumentCompiles(d, "", Context(w.now, if s.active.Some? then s.active.value.generation + 1 else 0, None));
  }

  /** From a boot at :123, a Reset that cannot move management leaves the NTP
      listener at :1123, and a second one, with the old file back and every bind
      working, succeeds and leaves it there. */
  lemma ListenerIsStranded(now: Instant)
    ensures var booted := Boot(Serving(), Document(BASE), now, None);
            booted.Success? && booted.value.ntpBound == ":123" &&
            var (s1, first) := ResetStep(Serving(), booted.value, BadWorld(now), "move");
            var (s2, second) := ResetStep(Serving(), s1, GoodWorld(now), "restore");
            first.Failure? && s1.ntpBound == ":1123" && second.Success? && s2.ntpBound == ":1123" &&
            s2.active.Some? && EffectiveNtp(Serving(), s2.active.value.ntpAddress) == ":123"
  {
    hide Serving, Document, Boot, LoadBootstrap, Install;
    BaseIsSane();
    Boots(BASE, now);
    var s := Boot(Serving(), Document(BASE), now, None).value;
    ServingHas();
    Reloads(s, MOVED, BadWorld(now));
    var s1 := ResetStep(Serving(), s, BadWorld(now), "move").0;
    assert s1 == s.(ntpBound := ":1123");
    Reloads(s1, BASE, GoodWorld(now));
    Installed(Serving(), s1, LoadBootstrap(Serving(), s1, GoodWorld(now)).value, "restore");
  }

  // ----- a stale plan

  const OTHER := ChangeIn("a", "", "grow the log", Some([LogSize(128)]))
  const AGAIN := REQUEST.(expectedRevision := "b")

  /** What a request that has a candidate commits. */
  lemma Commits(s: App, boot: string, req: ChangeIn, now: Instant)
    requires ValidService(Serving()) && Inv(Serving(), s, boot) && BuildCandidate(Serving(), s, req, now, None).Success?
    requires Unanswered(Serving(), s, req)
    ensures var (s', r) := ApplyStep(Serving(), s, req, now, None);
            var c := BuildCandidate(Serving(), s, req, now, None).value;
            r == Applied(Success(ResultOf(s, c)), true) && s'.active == Some(c.next) && Inv(Serving(), s', boot)
  {
    hide *;
    ApplyFires(Serving(), s, req, now, None);
    Committed(Serving(), s, boot, req, now, None);
    ApplyKeeps(Serving(), s, boot, req, now, None);
    FiredSucceeds(Serving(), s, req, now, None);
  }

  lemma FiredSucceeds(svc: Service, s: App, req: ChangeIn, now: Instant, keyFile: Option<KeyTable>)
    requires ApplyStep(svc, s, req, now, keyFile).1.fired && ApplyStep(svc, s, req, now, keyFile).1.result.Success?
    ensures var r := ApplyStep(svc, s, req, now, keyFile).1; r == Applied(Success(r.result.value), true)
  {
  }

  lemma KeylessIsUnanswered(s: App, req: ChangeIn)
    requires req.idempotencyKey == ""
    ensures Unanswered(Serving(), s, req)
  {
  }

  lemma ActiveStays(s: App, boot: string, req: ChangeIn, now: Instant)
    requires Inv(Serving(), s, boot)
    ensures PlanStep(Serving(), s, req, now, None).0.active == s.active &&
            Inv(Serving(), PlanStep(Serving(), s, req, now, None).0, boot)
  {
    PlanKeeps(Serving(), s, boot, req, now, None);
    assert Sound(s.cache, Serving().max);
    hide PlanStep, Inv, Serving;
    PlanTouchesCacheOnly(Serving(), s, req, now, None);
  }

  /** A booted state, ready for requests. */
  lemma Ready(d: Draft, now: Instant) returns (s: App, boot: string)
    requires d.Sane()
    ensures ValidService(Serving()) && Boot(Serving(), Document(d), now, None) == Success(s) && Inv(Serving(), s, boot)
    ensures s.cache == [] && s.active.Some? && s.active.value.canonical == Document(d)
    ensures s.active.value.revision == boot == Revision(Document(d)) != ""
  {
    hide Serving, Document, Boot, Inv;
    ServingIsValid();
    Boots(d, now);
    BootHolds(Serving(), Document(d), now, None);
    s := Boot(Serving(), Document(d), now, None).value;
    boot := s.active.value.revision;
  }

  lemma OtherHasCandidate(s: App, now: Instant)
    requires s.active.Some? && s.active.value.canonical == Document(BASE) && s.active.value.revision == "a"
    ensures var r := BuildCandidate(Serving(), s, OTHER, now, None); r.Success? && r.value.next.revision == "b"
  {
    hide Serving, Document, BuildCandidate, ApplyOperations, Normalize;
    BaseIsSane();
    Resizes(BASE, 128);
    DraftsDiffer(BASE.(size := 128));
    CandidateFor(s, OTHER, BASE, Document(BASE.(size := 128)), BASE.(size := 128), now);
  }

  lemma DraftsDiffer(d: Draft)
    requires d != BASE
    ensures Revision(Document(d)) == "b"
  {
    assert Document(d).filters[0].view == (if d.shift then SHIFTED else Clock(d.epoch));
    assert Document(BASE).filters[0].view == Clock("");
  }

  /** A plan made at revision "a", a commit that leads to "b", and the same plan
      asked for again at "b": it still reports "a". */
  lemma PlanIsStale(now: Instant)
    ensures var booted := Boot(Serving(), Document(BASE), now, None);
            booted.Success? &&
            var (s1, first) := PlanStep(Serving(), booted.value, REQUEST, now, None);
            var (s2, done) := ApplyStep(Serving(), s1, OTHER, now, None);
            first.Success? && done.fired && s2.active.Some? && s2.active.value.revision == "b" &&
            PlanStep(Serving(), s2, AGAIN, now, None).1 == first && first.value.previousRevision == "a"
  {
    hide *;
    BaseIsSane();
    var s, boot := Ready(BASE, now);
    RequestHasCandidate(s, now);
    RequestHasKey();
    FirstPlan(Serving(), s, REQUEST, now, None);
    NothingCached(s);
    ActiveStays(s, boot, REQUEST, now);
    var (s1, first) := PlanStep(Serving(), s, REQUEST, now, None);
    OtherHasCandidate(s1, now);
    RequestsSay();
    KeylessIsUnanswered(s1, OTHER);
    Commits(s1, boot, OTHER, now);
    OneApply(Serving(), s1, OTHER, now);
    OtherLeavesPlan(s1, now);
    RepeatedPlan(Serving(), s, boot, REQUEST, now, None, [ApplyRequest(OTHER, now, None)], AGAIN, now, None);
    PlanAnswer(Serving(), s, REQUEST, now, None);
    OperationsAsked(Serving(), s, REQUEST, now, None);
  }

  lemma RequestsSay()
    ensures OTHER.idempotencyKey == "" && AGAIN == REQUEST.(expectedRevision := "b") && AGAIN.expectedRevision == "b"
  {
  }

  lemma NothingCached(s: App)
    requires s.cache == []
    ensures forall req :: CachedPlan(Serving(), s, req).None?
  {
  }

  lemma OneApply(svc: Service, s: App, req: ChangeIn, now: Instant)
    ensures PipelineRuns.Run(svc, s, [ApplyRequest(req, now, None)]) == ApplyStep(svc, s, req, now, None).0
  {
    hide ApplyStep;
    assert [ApplyRequest(req, now, None)][1..] == [];
  }

  /** A request without a key crowds nothing out. */
  lemma OtherLeavesPlan(s: App, now: Instant)
    ensures !Loses(Serving(), s, [ApplyRequest(OTHER, now, None)], REQUEST.idempotencyKey,
                   Fingerprint(Serving(), REQUEST))
  {
    hide BuildCandidate, PipelineRuns.Step, Fingerprint, Serving;
    assert [ApplyRequest(OTHER, now, None)][1..] == [];
  }

  // ----- an empty list taken for none

  function AllowOnly(cidrs: Option<seq<string>>): Operation
  {
    Operation(ReplaceAllowClientCidrs, [], None, "", None, None, cidrs, None, None)
  }

  const OPEN := ChangeIn("a", "key", "clients", Some([AllowOnly(None)]))
  const CLOSE := OPEN.(list := Some([AllowOnly(Some([]))]))
  const CLOSE_AFRESH := CLOSE.(idempotencyKey := "fresh")
  const NARROW := OPEN.(list := Some([AllowOnly(Some(["::/0"]))]))
  const RESIZE := OPEN.(list := Some([LogSize(32)]))

  lemma AllowRequests()
    ensures CLOSE.idempotencyKey == OPEN.idempotencyKey != "" && SameRequest(OPEN, CLOSE) && !(OPEN == CLOSE)
    ensures CLOSE_AFRESH.idempotencyKey != OPEN.idempotencyKey && CLOSE_AFRESH.idempotencyKey != ""
    ensures OPEN.expectedRevision == CLOSE_AFRESH.expectedRevision == "a"
  {
    assert SameOnTheWire(OPEN.Operations()[0], CLOSE.Operations()[0]);
  }

  lemma Allows(cidrs: Option<seq<string>>) returns (st: State)
    requires cidrs == None || cidrs == Some([])
    ensures ApplyOperations(Document(BASE), [AllowOnly(cidrs)]) == Success(st)
    ensures Normalize(st) == Document(BASE.(allow := cidrs.GetOr(UNIVERSAL)))
  {
    st := Document(BASE).(ntp := Document(BASE).ntp.(allowClientCidrs := cidrs));
    assert [AllowOnly(cidrs)][1..] == [];
    assert ApplyOne(Document(BASE), AllowOnly(cidrs)) == Success(st);
    var d := BASE.(allow := cidrs.GetOr(UNIVERSAL));
    DocumentIsNormal(d);
    assert NormalizeNtp(st.ntp) == NormalizeNtp(Document(d).ntp);
    hide NormalizeNtp, Default, MaterializeFilters;
  }

  lemma AllowHasCandidate(s: App, req: ChangeIn, cidrs: Option<seq<string>>, now: Instant)
    requires cidrs == None || cidrs == Some([])
    requires s.active.Some? && s.active.value.canonical == Document(BASE) && s.active.value.revision == "a"
    requires req.expectedRevision == "a" && req.Operations() == [AllowOnly(cidrs)]
    ensures var r := BuildCandidate(Serving(), s, req, now, None);
            r.Success? && r.value.next.canonical == Document(BASE.(allow := cidrs.GetOr(UNIVERSAL)))
  {
    hide Serving, Document, BuildCandidate, ApplyOperations, Normalize;
    BaseIsSane();
    var st := Allows(cidrs);
    CandidateFor(s, req, BASE, st, BASE.(allow := cidrs.GetOr(UNIVERSAL)), now);
  }

  lemma EmptyIsUnanswered(s: App, req: ChangeIn)
    requires s.cache == []
    ensures Unanswered(Serving(), s, req)
  {
  }

  /** Opening the server to every client and then closing it under the same key: the
      second request is answered with the first one's result, and every client stays
      admitted. It is the empty list that does it: under a fresh key the same request
      closes the server, and under this one a list with a prefix, or another operation,
      is refused. */
  lemma CloseIsTakenForOpen(now: Instant)
    ensures var booted := Boot(Serving(), Document(BASE), now, None);
            booted.Success? &&
            var (s1, admitted) := ApplyStep(Serving(), booted.value, OPEN, now, None);
            var (s2, closed) := ApplyStep(Serving(), s1, CLOSE, now, None);
            admitted.fired && !closed.fired && closed.result == admitted.result && closed.result.Success? &&
            s2.active.Some? && s2.active.value.canonical.ntp.allowClientCidrs == Some(UNIVERSAL)
    ensures var booted := Boot(Serving(), Document(BASE), now, None);
            booted.Success? &&
            var (s', closed) := ApplyStep(Serving(), booted.value, CLOSE_AFRESH, now, None);
            closed.fired && s'.active.Some? && s'.active.value.canonical.ntp.allowClientCidrs == Some([])
    ensures var booted := Boot(Serving(), Document(BASE), now, None);
            booted.Success? &&
            var s1 := ApplyStep(Serving(), booted.value, OPEN, now, None).0;
            forall other :: other in {NARROW, RESIZE} ==>
              ApplyStep(Serving(), s1, other, now, None) == (s1, Applied(Failure(IdempotencyConflict), false))
  {
    hide *;
    BaseIsSane();
    AllowRequests();
    AllowOperations();
    var s, boot := Ready(BASE, now);
    AllowHasCandidate(s, OPEN, None, now);
    EmptyIsUnanswered(s, OPEN);
    Commits(s, boot, OPEN, now);
    var s1 := ApplyStep(Serving(), s, OPEN, now, None).0;
    var a := CommitIsKept(Serving(), s, boot, OPEN, now, None);
    KeptIsRemembered(s1.cache, OPEN.idempotencyKey, Fingerprint(Serving(), OPEN), a);
    EmptyAndAbsentCollide(Serving(), s1, OPEN, CLOSE, now, None, a);
    RememberedIsReplayed(Serving(), s1, CLOSE, now, None, a);
    AllowHasCandidate(s, CLOSE_AFRESH, Some([]), now);
    EmptyIsUnanswered(s, CLOSE_AFRESH);
    Commits(s, boot, CLOSE_AFRESH, now);
    AllowOf(UNIVERSAL);
    AllowOf([]);
    OthersDiffer();
    KeptIsHad(s1.cache, OPEN.idempotencyKey, Fingerprint(Serving(), OPEN), a);
    OtherRequestRejected(Serving(), s1, NARROW, now, None);
    OtherRequestRejected(Serving(), s1, RESIZE, now, None);
  }

  lemma KeptIsHad(cache: Cached, key: string, fp: string, a: ApplyResult)
    requires Keeps(cache, key, fp, Outcome(a))
    ensures key != "" && Has(cache, key) && cache[IndexOf(cache, key)].fp == fp
  {
  }

  lemma OperationShows(ft: FloatText, op: Operation)
    ensures var j := OperationJson.OperationJson(ft, op);
            TextAt(j, "op") == OpText(op.op) &&
            ItemsAt(j, "allowClientCidrs") == Strings(op.allowClientCidrs.GetOr([])).items
  {
    assert Different(OP_KEYS);
    FieldAt(OP_KEYS, OperationFields(ft, op), 0);
    FieldAt(OP_KEYS, OperationFields(ft, op), 6);
    assert OP_KEYS[0] == "op" && OP_KEYS[6] == "allowClientCidrs";
    hide Fields, FilterJson, FilterList, RestrictJson, AdmissionJson, QueryLogJson, HttpJson;
  }

  lemma ChangeShows(ft: FloatText, reason: string, ops: seq<Operation>)
    ensures var j := ChangeJson(ft, reason, Some(ops));
            TextAt(j, "reason") == reason && ItemsAt(j, "operations") == OperationList(ft, ops)
  {
    var keys, vals := ["reason", "operations"],
                      [Some(JsonDiff.Text(reason)), Some(JsonDiff.Array(OperationList(ft, ops)))];
    FieldAt(keys, vals, 0);
    FieldAt(keys, vals, 1);
    hide Fields, OperationList;
  }

  /** What the hash sees of a change of one operation. */
  lemma HashOfOne(ft: FloatText, reason: string, op: Operation)
    ensures Hash(ChangeJson(ft, reason, Some([op]))) ==
            reason + ("/" + OpText(op.op) + Texts(Strings(op.allowClientCidrs.GetOr([])).items) + "")
  {
    ChangeShows(ft, reason, [op]);
    OperationShows(ft, op);
    hide ChangeJson, OperationJson.OperationJson, OpText, Texts, Strings, TextAt, ItemsAt;
    assert OperationList(ft, [op])[1..] == [];
    assert Marks([]) == "";
  }

  lemma OthersDiffer()
    ensures Fingerprint(Serving(), NARROW) != Fingerprint(Serving(), OPEN)
    ensures Fingerprint(Serving(), RESIZE) != Fingerprint(Serving(), OPEN)
    ensures NARROW.idempotencyKey == RESIZE.idempotencyKey == OPEN.idempotencyKey
  {
    var ft := Serving().float;
    ServingHas();
    hide Serving, Hash, ChangeJson;
    HashOfOne(ft, "clients", AllowOnly(None));
    HashOfOne(ft, "clients", AllowOnly(Some(["::/0"])));
    HashOfOne(ft, "clients", LogSize(32));
    assert |Texts(Strings([]).items)| == 0 && |Texts(Strings(["::/0"]).items)| == 5;
    assert |OpText(ReplaceAllowClientCidrs)| == 23 && |OpText(ReplaceQueryLog)| == 15;
  }

  lemma AllowOperations()
    ensures OPEN.Operations() == [AllowOnly(None)] && CLOSE_AFRESH.Operations() == [AllowOnly(Some([]))]
    ensures BASE.(allow := None.GetOr(UNIVERSAL)) == BASE.(allow := UNIVERSAL) && Some([]).GetOr(UNIVERSAL) == []
  {
  }

  lemma KeptIsRemembered(cache: Cached, key: string, fp: string, a: ApplyResult)
    requires Keeps(cache, key, fp, Outcome(a))
    ensures Remembers(cache, key, fp, a)
  {
  }

  lemma AllowOf(allow: seq<string>)
    ensures Document(BASE.(allow := allow)).ntp.allowClientCidrs == Some(allow)
  {
  }

  // ----- a dropped epoch key

  const ANCHORED := BASE.(epoch := EPOCH)

  function DropEpoch(): Operation
  {
    Operation(UpsertFilter, [], Some(Document(BASE).filters[0]), "", None, None, None, None, None)
  }

  const DROP := ChangeIn("b", "", "drop the epoch key", Some([DropEpoch()]))

  const START := Instant(1 * SECOND, 0)
  const LATER := Instant(3 * SECOND, 2 * SECOND)

  lemma Drops()
    ensures ApplyOperations(Document(ANCHORED), DROP.Operations()) == Success(Document(BASE))
    ensures Normalize(Document(BASE)) == Document(BASE)
  {
    assert DROP.Operations() == [DropEpoch()] && [DropEpoch()][1..] == [];
    assert Upsert(Document(ANCHORED).filters, Document(BASE).filters[0]) == Document(BASE).filters;
    assert ApplyOne(Document(ANCHORED), DropEpoch()) == Success(Document(BASE));
    hide Document, Normalize;
    DocumentIsNormal(BASE);
  }

  lemma AnchoredView(snap: Snapshot)
    requires CompileFilters(Serving().env.ps, Document(ANCHORED).filters, Context(START, 0, None)) == Some(snap.filters)
    ensures LookupView(snap.filters, "all").Some?
    ensures var v := EpochChain.Clock(snap, "all");
            v.mode == Rate && v.hasRate && v.rate == 2.0 && v.epochVirtual == 0 && v.epochMono == START
  {
    var ps, f := Serving().env.ps, Document(ANCHORED).filters[0];
    ServingHas();
    assert ps.time(EPOCH) == Some(0);
    assert f.view.epoch == EPOCH != "";
    hide Serving, ParsePrefixes, Served;
    assert CompileFilter(ps, f, Context(START, 0, None)).Some?;
    assert Document(ANCHORED).filters[1..] == [];
    assert CompileFilters(ps, [], Context(START, 0, None)) == Some([]);
    assert snap.filters[0] == CompileFilter(ps, f, Context(START, 0, None)).value;
  }

  lemma AnchoredServes(v: View)
    requires v.mode == Rate && v.rate == 2.0 && v.epochVirtual == 0 && v.epochMono == START
    ensures Served(v, LATER) == 4 * SECOND
  {
    RateDeltaIs(2 * SECOND, 2.0);
    assert Scaled(2 * SECOND, 2.0) == (4 * SECOND) as real;
    TruncateInt(4 * SECOND);
  }

  lemma BootFilters(d: Draft, now: Instant)
    requires d.Sane()
    ensures var r := Boot(Serving(), Document(d), now, None);
            r.Success? && r.value.active.Some? &&
            CompileFilters(Serving().env.ps, Document(d).filters, Context(now, 0, None)) ==
              Some(r.value.active.value.filters)
  {
    hide Serving, Document, ValidState, CompileFilters, CompileAllow, Normalize, EffectiveMgmt, EffectiveNtp;
    DocumentIsNormal(d);
    DocumentCompiles(d, "", Context(now, 0, None));
  }

  lemma AnchoredIs()
    ensures ANCHORED.Sane() && PreviousOf(Document(ANCHORED)) == EPOCH != "" && Revision(Document(ANCHORED)) == "b"
    ensures DROP.expectedRevision == "b" && DROP.idempotencyKey == ""
    ensures EpochChain.RateDocument(Document(BASE), "all", 2.0)
    ensures ClampServed(LATER.wall) == 3 * SECOND
  {
    DraftsDiffer(ANCHORED);
  }

  function PreviousOf(st: State): string
  {
    var f := LookupFilter(st.filters, "all");
    if f.None? then "" else f.value.view.epoch
  }

  lemma DropCompiles(s: App, now: Instant) returns (c: Candidate, boot: string)
    requires s.active.Some? && s.active.value.canonical == Document(ANCHORED) && s.active.value.revision == "b"
    ensures BuildCandidate(Serving(), s, DROP, now, None) == Success(c)
    ensures Compile(Serving().env, Document(BASE), boot, Context(now, s.active.value.generation + 1, s.active), None) ==
            Success(c.next)
  {
    hide Serving, Document, Compile, ApplyOperations, Normalize, RejectsResetOnly;
    BaseIsSane();
    AnchoredIs();
    Drops();
    CandidateFor(s, DROP, ANCHORED, Document(BASE), BASE, now);
    c := BuildCandidate(Serving(), s, DROP, now, None).value;
    boot := s.active.value.bootstrapRevision;
    var st, next := CandidateMade(Serving(), s.active.value, DROP, now, None);
  }

  lemma PreviousIs(snap: Snapshot)
    ensures PreviousEpoch(Some(snap), "all") == PreviousOf(snap.canonical)
  {
  }

  /** A clock at double speed from an explicit epoch serves four seconds past it after
      two; with the key dropped at that instant and the rate kept, it serves the
      host's three. */
  lemma ClockJumps()
    ensures var booted := Boot(Serving(), Document(ANCHORED), START, None);
            booted.Success? && booted.value.active.Some? &&
            var (s1, r) := ApplyStep(Serving(), booted.value, DROP, LATER, None);
            r.fired && s1.active.Some? &&
            var before, after := booted.value.active.value, s1.active.value;
            LookupView(before.filters, "all").Some? && LookupView(after.filters, "all").Some? &&
            EpochChain.Clock(before, "all").rate == EpochChain.Clock(after, "all").rate &&
            Served(EpochChain.Clock(before, "all"), LATER) == 4 * SECOND &&
            Served(EpochChain.Clock(after, "all"), LATER) == 3 * SECOND
  {
    hide *;
    AnchoredIs();
    var s, boot := Ready(ANCHORED, START);
    var prev := s.active.value;
    BootFilters(ANCHORED, START);
    AnchoredView(prev);
    AnchoredServes(EpochChain.Clock(prev, "all"));
    PreviousIs(prev);
    var c, b := DropCompiles(s, LATER);
    KeylessIsUnanswered(s, DROP);
    Commits(s, boot, DROP, LATER);
    EpochChain.DroppingEpochJumps(
      Serving().env, prev, Document(BASE), b, Context(LATER, prev.generation + 1, Some(prev)), None, "all", 2.0);
    RunsMeans(c.next);
  }

  lemma RunsMeans(snap: Snapshot)
    requires EpochChain.Runs(snap, "all", 2.0)
    ensures LookupView(snap.filters, "all").Some? && EpochChain.Clock(snap, "all").rate == 2.0
  {
  }

  // ----- a warning that comes with the clock

  const MOVED_ON := BASE.(shift := true)

  function ShiftClock(): Operation
  {
    Operation(UpsertFilter, [], Some(Document(MOVED_ON).filters[0]), "", None, None, None, None, None)
  }

  const SHIFT := ChangeIn("a", "", "shift the clock", Some([ShiftClock()]))

  const NEXT := Instant(1 * SECOND + 1, 1)

  lemma Shifts()
    ensures ApplyOperations(Document(BASE), SHIFT.Operations()) == Success(Document(MOVED_ON))
    ensures Normalize(Document(MOVED_ON)) == Document(MOVED_ON)
    ensures MOVED_ON.Sane() && SHIFT.expectedRevision == "a" && SHIFT.idempotencyKey == ""
  {
    assert SHIFT.Operations() == [ShiftClock()] && [ShiftClock()][1..] == [];
    assert Upsert(Document(BASE).filters, Document(MOVED_ON).filters[0]) == Document(MOVED_ON).filters;
    assert ApplyOne(Document(BASE), ShiftClock()) == Success(Document(MOVED_ON));
    hide Document, Normalize;
    DocumentIsNormal(MOVED_ON);
  }

  lemma CandidateFilters(svc: Service, s: App, req: ChangeIn, now: Instant)
    requires BuildCandidate(svc, s, req, now, None).Success? && s.active.Some?
    ensures var next := BuildCandidate(svc, s, req, now, None).value.next;
            next.compiledAt == now &&
            CompileFilters(svc.env.ps, next.canonical.filters, Context(now, s.active.value.generation + 1, s.active)) ==
            Some(next.filters)
  {
    hide BuildOn, Compile, CompileFilters, ApplyOperations, DiffStates;
    var prev := s.active.value;
    var after, next := CandidateMade(svc, prev, req, now, None);
    CompileIs(svc.env, after, prev.bootstrapRevision, Context(now, prev.generation + 1, Some(prev)));
  }

  lemma CompileIs(env: Env, st: State, boot: string, ctx: Context)
    requires Compile(env, st, boot, ctx, None).Success?
    ensures var r := Compile(env, st, boot, ctx, None).value;
            r.compiledAt == ctx.now && CompileFilters(env.ps, r.canonical.filters, ctx) == Some(r.filters)
  {
    hide Normalize, ValidState, CompileFilters, CompileAllow;
  }

  lemma ShiftedIsClamped(fs: seq<CompiledFilter>, ctx: Context)
    requires CompileFilters(Serving().env.ps, Document(MOVED_ON).filters, ctx) == Some(fs)
    ensures |fs| == 1 && (ServedClamped(fs[0].view, ctx.now) <==> Clamped(ctx.now.wall + ERA1_END - 1 - SECOND))
  {
    var ps, f := Serving().env.ps, Document(MOVED_ON).filters[0];
    assert Document(MOVED_ON).filters[1..] == [];
    assert CompileFilters(ps, [], ctx) == Some([]);
    assert f.view == SHIFTED;
    hide Serving, ParsePrefixes, Document;
    assert fs == [CompileFilter(ps, f, ctx).value];
  }

  lemma ShiftHasCandidate(s: App, now: Instant)
    requires s.active.Some? && s.active.value.canonical == Document(BASE) && s.active.value.revision == "a"
    ensures var r := BuildCandidate(Serving(), s, SHIFT, now, None);
            r.Success? && r.value.next.compiledAt == now && |r.value.next.filters| == 1 &&
            (ServedClamped(r.value.next.filters[0].view, now) <==> Clamped(now.wall + ERA1_END - 1 - SECOND))
  {
    hide Serving, Document, BuildCandidate, ApplyOperations, Normalize, CompileFilters, ServedClamped;
    BaseIsSane();
    Shifts();
    CandidateFor(s, SHIFT, BASE, Document(MOVED_ON), MOVED_ON, now);
    CandidateFilters(Serving(), s, SHIFT, now);
    ShiftedIsClamped(BuildCandidate(Serving(), s, SHIFT, now, None).value.next.filters,
                     Context(now, s.active.value.generation + 1, s.active));
  }

  /** A plan that shifts the clock to the last nanosecond that can be served, and the
      apply of the same request a nanosecond later: it commits just that plan, but for
      a warning that the served time is clamped. */
  lemma WarningComes()
    ensures var booted := Boot(Serving(), Document(BASE), START, None);
            booted.Success? &&
            var (s1, plan) := PlanStep(Serving(), booted.value, SHIFT, START, None);
            var applied := ApplyStep(Serving(), s1, SHIFT, NEXT, None).1;
            plan.Success? && applied.fired && applied.result.Success? &&
            Alike(plan.value, applied.result.value.plan) && plan.value != applied.result.value.plan
  {
    hide *;
    BaseIsSane();
    var s, boot := Ready(BASE, START);
    ShiftHasCandidate(s, START);
    NothingCached(s);
    KeylessPlans(Serving(), s, SHIFT, START) by { Shifts(); }
    ActiveStays(s, boot, SHIFT, START);
    var s1 := PlanStep(Serving(), s, SHIFT, START, None).0;
    ShiftHasCandidate(s1, NEXT);
    SameActiveSamePlan(Serving(), s, s1, SHIFT, START, NEXT, None);
    NotClampedAlike(BuildCandidate(Serving(), s, SHIFT, START, None).value.next,
                    BuildCandidate(Serving(), s1, SHIFT, NEXT, None).value.next);
    PlanAnswer(Serving(), s, SHIFT, START, None);
    Shifts();
    KeylessIsUnanswered(s1, SHIFT);
    ApplyFires(Serving(), s1, SHIFT, NEXT, None);
    ApplyReportsPlan(Serving(), s1, boot, SHIFT, NEXT, None);
  }

  lemma KeylessPlans(svc: Service, s: App, req: ChangeIn, now: Instant)
    requires req.idempotencyKey == "" && BuildCandidate(svc, s, req, now, None).Success?
    ensures PlanStep(svc, s, req, now, None).1.Success?
  {
    hide BuildCandidate, Fingerprint, PlanFrom;
  }

  lemma NotClampedAlike(a: Snapshot, b: Snapshot)
    requires |a.filters| == |b.filters| == 1 && a.compiledAt == START && b.compiledAt == NEXT
    requires ServedClamped(a.filters[0].view, START) <==> Clamped(START.wall + ERA1_END - 1 - SECOND)
    requires ServedClamped(b.filters[0].view, NEXT) <==> Clamped(NEXT.wall + ERA1_END - 1 - SECOND)
    ensures !ClampedAlike(a, b)
  {
    assert a.filters[1..] == [] && b.filters[1..] == [];
    assert !Clamped(START.wall + ERA1_END - 1 - SECOND) && Clamped(NEXT.wall + ERA1_END - 1 - SECOND);
    hide ServedClamped, Clamped;
    assert !CountsAgree([], START, [], NEXT, 0, 1);
    assert Marked(a.filters[0].view, START, 0) == 0 && Marked(b.filters[0].view, NEXT, 0) == 1;
  }
}
