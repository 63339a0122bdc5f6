/** One service, document and run that meet the assumptions of the main results
    together, so that none of them speaks of nothing. */
module Witness {
  import opened Wrappers
  import opened Address
  import opened NtpTime
  import opened View
  import opened Model
  import opened Validate
  import opened Snapshot
  import opened Compiler
  import opened Operations
  import opened Recency
  import opened Pipeline
  import opened PipelineRuns
  import opened Agreement
  import EpochChain
  import JsonDiff

  // ----- a diff, listed

  ghost function Listed(es: set<JsonDiff.Entry>): seq<JsonDiff.Entry>
  {
    if es == {} then []
    else
      var e :| e in es;
      [e] + Listed(es - {e})
  }

  lemma {:induction false} ListedOnce(es: set<JsonDiff.Entry>)
    ensures JsonDiff.NoDuplicates(Listed(es)) && forall e :: e in Listed(es) <==> e in es
  {
    if es != {} {
      var e :| e in es && Listed(es) == [e] + Listed(es - {e});
      ListedOnce(es - {e});
    }
  }

  // ----- documents with one clock at double speed

  /** What the documents here differ in. */
  datatype Draft = Draft(size: int, ntp: string, mgmt: string, epoch: string, shift: bool, allow: seq<string>)
  {
    predicate Sane()
    {
      1 <= size <= MAX_QUERY_LOG && ntp in {":123", ":1123"} && mgmt in {":8088", ":9088"} &&
      epoch in {"", EPOCH} && (shift ==> epoch == "") && (allow == UNIVERSAL || allow == [])
    }
  }

  const EPOCH := "1970-01-01T00:00:00Z"
  const BASE := Draft(64, ":123", ":8088", "", false, UNIVERSAL)
  const API_VERSION := "labntp.dev/v1alpha1"

  /** From one second after the epoch it serves the last nanosecond that can be served. */
  const SHIFTED := ViewSpec(
    Offset, ERA1_END - 1 - SECOND, "", "", None, "", NoLeap, 2, "LOCL", -20, 0, 0, 0, None, None)

  function Clock(epoch: string): ViewSpec
  {
    ViewSpec(Rate, 0, "", "", Some(2.0), epoch, NoLeap, 2, "LOCL", -20, 0, 0, 0, None, None)
  }

  function Document(d: Draft): State
  {
    State(
      API_VERSION, "LabNTP", "lab", map[], Listeners(d.ntp, d.mgmt, "/v1", "/mcp"), Auth("bearer", []),
      Ntp([3, 4], "unicast", false, "", Restrict("serve", false), Some(d.allow), Admission(100, 10), d.size),
      [Filter("all", true, Some(UNIVERSAL), if d.shift then SHIFTED else Clock(d.epoch))],
      Management([], false, Http(1, 1, 1, 1)), false, Observability("info", "127.0.0.1:9090", false, 128))
  }

  function Prefixes(s: string): Option<Prefix>
  {
    if s == "0.0.0.0/0" then Some(V4_DEFAULT) else if s == "::/0" then Some(V6_DEFAULT) else None
  }

  function Times(s: string): Option<int> { if s == EPOCH then Some(0) else None }

  /** The checks of the document itself; all else in these documents is what they take. */
  predicate Accepted(st: State) { st.apiVersion == API_VERSION && st.kind == "LabNTP" && st.name != "" }

  /** Only the base document has the revision "a". */
  function Revision(st: State): string { if st == Document(BASE) then "a" else "b" }

  function TextAt(j: JsonDiff.Json, key: string): string
  {
    if j.Object? && key in j.fields && j.fields[key].Text? then j.fields[key].s else ""
  }

  function ItemsAt(j: JsonDiff.Json, key: string): seq<JsonDiff.Json>
  {
    if j.Object? && key in j.fields && j.fields[key].Array? then j.fields[key].items else []
  }

  function Texts(js: seq<JsonDiff.Json>): string
  {
    if js == [] then "" else "," + (if js[0].Text? then js[0].s else "") + Texts(js[1..])
  }

  function Marks(ops: seq<JsonDiff.Json>): string
  {
    if ops == [] then "" else "/" + TextAt(ops[0], "op") + Texts(ItemsAt(ops[0], "allowClientCidrs")) + Marks(ops[1..])
  }

  /** The reason, and of each operation its verb and the clients it lists. */
  function Hash(j: JsonDiff.Json): string { TextAt(j, "reason") + Marks(ItemsAt(j, "operations")) }

  ghost function Serving(): Service
  {
    Service(
      Env(Parsers(Prefixes, Times, s => false), Accepted, Revision), st => JsonDiff.Text(Revision(st)),
      (b, a) => Listed(JsonDiff.Diff(Some(b), Some(a))), r => "2", Hash, "", "", true, true, true, 4)
  }

  lemma ServingIsValid()
    ensures ValidService(Serving())
  {
    forall b, a
      ensures JsonDiff.NoDuplicates(Serving().diff(b, a))
      ensures forall e :: e in Serving().diff(b, a) <==> e in JsonDiff.Diff(Some(b), Some(a))
    {
      ListedOnce(JsonDiff.Diff(Some(b), Some(a)));
    }
    hide Document, Prefixes;
  }

  lemma ServingHas()
    ensures var svc := Serving();
            svc.env.revision == Revision && svc.env.ps.prefix == Prefixes && svc.env.ps.time == Times &&
            svc.hash == Hash && svc.ntpHook && svc.httpHook && svc.bootstrapPath && svc.max == 4 &&
            svc.ntpOverride == "" && svc.mgmtOverride == ""
  {
  }

  lemma Kept(s: string, d: string)
    requires s != "" && !Space(s[0])
    ensures Default(s, d) == s
  {
    assert s[0] in s;
  }

  lemma FiltersAreNormal(d: Draft)
    ensures MaterializeFilters(Document(d).filters) == Document(d).filters
  {
    var f := Document(d).filters[0];
    Kept("LOCL", "LOCL");
    assert MaterializeView(f.view) == f.view by { hide Default; }
    hide MaterializeView;
    assert MaterializeFilters([f]) == [f.(view := MaterializeView(f.view))];
  }

  lemma NtpIsNormal(d: Draft)
    ensures NormalizeNtp(Document(d).ntp) == Document(d).ntp
  {
    Kept("unicast", "unicast");
    Kept("serve", "serve");
    hide Default;
  }

  lemma ListenersKept(d: Draft)
    requires d.Sane()
    ensures Default(d.ntp, ":123") == d.ntp && Default(d.mgmt, ":8088") == d.mgmt
    ensures Default("/v1", "/v1") == "/v1" && Default("/mcp", "/mcp") == "/mcp"
  {
    assert d.ntp[0] == ':' && d.mgmt[0] == ':';
    Kept(d.ntp, ":123");
    Kept(d.mgmt, ":8088");
    Kept("/v1", "/v1");
    Kept("/mcp", "/mcp");
  }

  lemma RestKept()
    ensures Default("bearer", "bearer") == "bearer" && Default("info", "info") == "info"
    ensures Default("127.0.0.1:9090", "127.0.0.1:9090") == "127.0.0.1:9090"
  {
    Kept("bearer", "bearer");
    Kept("info", "info");
    Kept("127.0.0.1:9090", "127.0.0.1:9090");
  }

  lemma DocumentIsNormal(d: Draft)
    requires d.Sane()
    ensures Normalize(Document(d)) == Document(d)
  {
    hide Default, MaterializeFilters, NormalizeNtp;
    FiltersAreNormal(d);
    NtpIsNormal(d);
    ListenersKept(d);
    RestKept();
  }

  lemma DocumentIsValid(d: Draft)
    requires d.Sane()
    ensures ValidState(Serving().env, Document(d))
  {
    var ps, f := Serving().env.ps, Document(d).filters[0];
    assert f.Cidrs()[0] == "0.0.0.0/0" && f.Cidrs()[1] == "::/0";
    assert HasRoute(ps, f, V4_DEFAULT) && HasRoute(ps, f, V6_DEFAULT);
    assert ValidView(ps, f.view);
    assert ValidName("all");
    assert ValidFilters(ps, Document(d).filters);
  }

  lemma RoutesParse(ps: Parsers)
    requires ps.prefix == Prefixes
    ensures ParsePrefixes(ps, UNIVERSAL).Some?
  {
    assert UNIVERSAL[1..] == ["::/0"];
    assert ParsePrefixes(ps, UNIVERSAL[1..]).Some?;
  }

  lemma FiltersCompile(d: Draft, ctx: Context)
    requires d.Sane()
    ensures CompileFilters(Serving().env.ps, Document(d).filters, ctx).Some?
    ensures CompileAllow(Serving().env.ps, Document(d).ntp.allowClientCidrs).Some?
  {
    var ps, fs := Serving().env.ps, Document(d).filters;
    RoutesParse(ps);
    assert ps.time(EPOCH).Some?;
    hide ParsePrefixes, LookupView, LookupFilter, Served, Serving;
    assert CompileFilter(ps, fs[0], ctx).Some?;
    assert fs[1..] == [];
  }

  lemma CompileSays(env: Env, st: State, boot: string, ctx: Context)
    requires var n := Normalize(st);
             ValidState(env, n) && CompileFilters(env.ps, n.filters, ctx).Some? &&
             CompileAllow(env.ps, n.ntp.allowClientCidrs).Some? && n.ntp.keysFile == ""
    ensures var r, n := Compile(env, st, boot, ctx, None), Normalize(st);
            r.Success? && r.value.canonical == n && r.value.revision == env.revision(n) &&
            r.value.ntpAddress == n.listeners.ntp && r.value.managementAddress == n.listeners.management
  {
    hide ValidState, CompileFilters, CompileAllow, Normalize;
  }

  /** A document that normalizes to one of these compiles. */
  lemma Compiles(st: State, d: Draft, boot: string, ctx: Context)
    requires d.Sane() && Normalize(st) == Document(d)
    ensures var r := Compile(Serving().env, st, boot, ctx, None);
            r.Success? && r.value.canonical == Document(d) && r.value.revision == Revision(Document(d)) &&
            r.value.ntpAddress == d.ntp && r.value.managementAddress == d.mgmt
  {
    assert Document(d).ntp.keysFile == "" && Document(d).listeners == Listeners(d.ntp, d.mgmt, "/v1", "/mcp");
    ServingHas();
    hide *;
    DocumentIsValid(d);
    FiltersCompile(d, ctx);
    CompileSays(Serving().env, st, boot, ctx);
  }

  lemma DocumentCompiles(d: Draft, boot: string, ctx: Context)
    requires d.Sane()
    ensures var r := Compile(Serving().env, Document(d), boot, ctx, None);
            r.Success? && r.value.canonical == Document(d) && r.value.revision == Revision(Document(d)) &&
            r.value.ntpAddress == d.ntp && r.value.managementAddress == d.mgmt
    ensures d.epoch == "" && !d.shift ==> EpochChain.RateDocument(Document(d), "all", 2.0)
  {
    assert d.epoch == "" && !d.shift ==> EpochChain.RateDocument(Document(d), "all", 2.0);
    hide *;
    DocumentIsNormal(d);
    Compiles(Document(d), d, boot, ctx);
  }

  lemma BaseIsSane()
    ensures BASE.Sane() && BASE.epoch == "" && !BASE.shift && Revision(Document(BASE)) == "a"
  {
    hide Document;
  }

  /** A chain of clock changes can start with the document. */
  lemma ChainStarts(now: Instant)
    ensures var ev := EpochChain.Event(Document(BASE), "", 0, None, now, 2.0);
            var r := EpochChain.Compiled(Serving().env, ev, None);
            r.Success? && EpochChain.Chain(Serving().env, "all", None, [ev], [r.value]) &&
            EpochChain.Unbroken("all", [ev], [r.value])
  {
    hide Serving, Document, Compile, EpochChain.RateDocument;
    DocumentCompiles(BASE, "", Context(now, 0, None));
  }

  // ----- a boot, a plan and a commit

  function LogSize(size: int): Operation
  {
    Operation(ReplaceQueryLog, [], None, "", None, None, None, Some(size), None)
  }

  const REQUEST := ChangeIn("a", "key", "shrink the log", Some([LogSize(32)]))

  lemma RevisionIsOwn()
    ensures OwnRevision(Serving(), Document(BASE))
  {
    ServingHas();
    hide Serving, Document, Normalize;
  }

  lemma Boots(d: Draft, now: Instant)
    requires d.Sane()
    ensures var r := Boot(Serving(), Document(d), now, None);
            r.Success? && r.value.cache == [] && r.value.active.Some? && r.value.bootstrap.Some? &&
            r.value.active.value.canonical == Document(d) && r.value.active.value.revision == Revision(Document(d)) &&
            r.value.active.value.ntpAddress == d.ntp && r.value.active.value.managementAddress == d.mgmt &&
            r.value.ntpBound == d.ntp && r.value.mgmtBound == d.mgmt && r.value.mgmtEffective == Some(d.mgmt)
  {
    hide Serving, Document, Compile, Revision;
    ServingHas();
    DocumentCompiles(d, "", Context(now, 0, None));
  }

  lemma Resizes(d: Draft, size: int)
    requires d.Sane() && 1 <= size <= MAX_QUERY_LOG
    ensures ApplyOperations(Document(d), [LogSize(size)]) == Success(Document(d.(size := size)))
    ensures Normalize(Document(d.(size := size))) == Document(d.(size := size))
  {
    assert [LogSize(size)][1..] == [];
    assert ApplyOne(Document(d), LogSize(size)) == Success(Document(d.(size := size)));
    hide Document, Normalize;
    DocumentIsNormal(d.(size := size));
  }

  /** A request at the active revision whose operations lead from one of the
      documents to another has a candidate. */
  lemma CandidateFor(s: App, req: ChangeIn, from: Draft, st: State, to: Draft, now: Instant)
    requires to.Sane() && s.active.Some? && s.active.value.canonical == Document(from)
    requires req.expectedRevision == s.active.value.revision != ""
    requires ApplyOperations(Document(from), req.Operations()) == Success(st) && Normalize(st) == Document(to)
    ensures var r := BuildCandidate(Serving(), s, req, now, None);
            r.Success? && r.value.next.canonical == Document(to) && r.value.next.revision == Revision(Document(to))
  {
    hide Serving, Document, Compile, RejectsResetOnly, ApplyOperations, DiffStates, Revision, Normalize;
    var prev := s.active.value;
    Compiles(st, to, prev.bootstrapRevision, Context(now, prev.generation + 1, Some(prev)));
    OperationsKeepFixed(Document(from), req.Operations());
  }

  lemma RequestHasCandidate(s: App, now: Instant)
    requires s.active.Some? && s.active.value.canonical == Document(BASE) && s.active.value.revision == "a"
    ensures BuildCandidate(Serving(), s, REQUEST, now, None).Success?
  {
    hide Serving, Document, BuildCandidate, ApplyOperations, Normalize;
    BaseIsSane();
    Resizes(BASE, 32);
    CandidateFor(s, REQUEST, BASE, Document(BASE.(size := 32)), BASE.(size := 32), now);
  }

  /** The service boots the document, plans a change and commits it, under every
      assumption the main results make of the service and its states. */
  lemma AssumptionsAreMet(now: Instant)
    ensures ValidService(Serving()) && OwnRevision(Serving(), Document(BASE))
    ensures var booted := Boot(Serving(), Document(BASE), now, None);
            booted.Success? && booted.value.active.Some? && booted.value.active.value.canonical == Document(BASE) &&
            Inv(Serving(), booted.value, "a") && CacheTrue(Serving(), booted.value) &&
            var (planned, plan) := PlanStep(Serving(), booted.value, REQUEST, now, None);
            plan.Success? && planned.active == booted.value.active &&
            ApplyStep(Serving(), planned, REQUEST, now, None).1.fired
  {
    hide *;
    BaseIsSane();
    Boots(BASE, now);
    RevisionIsOwn();
    ServingIsValid();
    BootHolds(Serving(), Document(BASE), now, None);
    var s := Boot(Serving(), Document(BASE), now, None).value;
    BootedMeans(s);
    RequestHasCandidate(s, now);
    PlanTouchesCacheOnly(Serving(), s, REQUEST, now, None);
    var s1 := PlanStep(Serving(), s, REQUEST, now, None).0;
    RequestHasCandidate(s1, now);
    RequestHasKey();
    FirstPlan(Serving(), s, REQUEST, now, None);
    ApplyFires(Serving(), s1, REQUEST, now, None);
  }

  lemma RequestHasKey()
    ensures REQUEST.idempotencyKey != "" && Serving().max > 0
  {
  }

  lemma BootedMeans(s: App)
    requires s.cache == [] && s.active.Some?
    ensures CacheTrue(Serving(), s) && Sound(s.cache, Serving().max) && LastRevision([], "a") == "a"
  {
    hide TruePlan, Serving;
  }

  /** The first request under a key is planned, and its apply is not yet answered. */
  lemma FirstPlan(svc: Service, s: App, req: ChangeIn, now: Instant, keyFile: Option<KeyTable>)
    requires s.cache == [] && svc.max > 0 && req.idempotencyKey != "" &&
             BuildCandidate(svc, s, req, now, keyFile).Success?
    ensures PlanStep(svc, s, req, now, keyFile).1.Success?
    ensures Unanswered(svc, PlanStep(svc, s, req, now, keyFile).0, req)
  {
    hide BuildCandidate, Fingerprint, PlanFrom;
  }
}
