/** internal/model: the desired-state document and the operations on it. */
module Model {
  import opened Wrappers
  import opened View

  function LeapText(l: Leap): string
  {
    match l
    case NoLeap => "none"
    case Insert => "insert"
    case Delete => "delete"
    case Unsync => "unsync"
    case OtherLeap(s) => s
  }

  function ModeText(m: Mode): string
  {
    match m case FollowReal => "follow-real" case Offset => "offset" case Absolute => "absolute" case Freeze => "freeze"
    case Rate => "rate" case OtherMode(s) => s
  }

  datatype ViewSpec = ViewSpec(
    mode: Mode, offset: int, absolute: string, freezeAt: string, rate: Option<real>, epoch: string,
    leap: Leap, stratum: int, refId: string, precision: int,
    rootDelay: int, rootDispersion: int, jitter: int, minPoll: Option<int>, maxPoll: Option<int>)

  /** An absent list of prefixes is an empty one, except in JSON. */
  datatype Filter = Filter(name: string, enabled: bool, list: Option<seq<string>>, view: ViewSpec)
  {
    function Cidrs(): seq<string> { list.GetOr([]) }
  }

  datatype Listeners = Listeners(ntp: string, management: string, restPath: string, mcpPath: string)

  datatype Token = Token(id: string, role: string, secretFile: string, scopes: seq<string>)

  datatype Auth = Auth(mode: string, tokens: seq<Token>)

  datatype Restrict = Restrict(default: string, kod: bool)

  datatype Admission = Admission(maxPacketsPerSec: int, maxPacketsPerIp: int)

  /** allowClientCidrs distinguishes omitted (None) from the empty list. */
  datatype Ntp = Ntp(
    versions: seq<int>, serveMode: string, nts: bool, keysFile: string, restrict: Restrict,
    allowClientCidrs: Option<seq<string>>, admission: Admission, queryLogSize: int)

  datatype Http = Http(bodyLimit: int, requestsPerSecond: int, burst: int, maxConcurrent: int)

  datatype Management = Management(allowedOrigins: seq<string>, allowLegacyClients: bool, http: Http)

  datatype Observability = Observability(logLevel: string, metricsListen: string, publicPath: bool, auditRing: int)

  datatype State = State(
    apiVersion: string, kind: string, name: string, labels: map<string, string>,
    listeners: Listeners, auth: Auth, ntp: Ntp, filters: seq<Filter>,
    management: Management, ui: bool, observability: Observability)

  datatype Op =
    | ReplaceFilters | UpsertFilter | RemoveFilter | ReplaceRestrict | ReplaceAdmission
    | ReplaceAllowClientCidrs | ReplaceQueryLog | ReplaceManagementHttp | UnknownOp(name: string)

  /** One typed mutation: a verb and the optional payloads of the wire form. */
  datatype Operation = Operation(
    op: Op, filters: seq<Filter>, filter: Option<Filter>, name: string, restrict: Option<Restrict>,
    admission: Option<Admission>, allowClientCidrs: Option<seq<string>>, queryLog: Option<int>, http: Option<Http>)

  // ----- normalization (internal/config/normalize.go)

  /** unicode.IsSpace. */
  predicate Space(c: char)
  {
    c in ['\t', '\n', '\U{000B}', '\U{000C}', '\r', ' ', '\U{0085}', '\U{00A0}', '\U{1680}', '\U{2028}', '\U{2029}',
          '\U{202F}', '\U{205F}', '\U{3000}'] || '\U{2000}' <= c <= '\U{200A}'
  }

  /** strings.TrimSpace(s) == "". */
  predicate Blank(s: string) { forall c :: c in s ==> Space(c) }

  function Default(s: string, d: string): string { if Blank(s) then d else s }

  function MaterializeView(v: ViewSpec): ViewSpec
  {
    v.(leap := if v.leap.OtherLeap? && Blank(v.leap.name) then NoLeap else v.leap,
       refId := Default(v.refId, if v.stratum == 1 then "GPS" else if v.stratum == 16 then "INIT" else "LOCL"))
  }

  function MaterializeFilters(fs: seq<Filter>): (r: seq<Filter>)
    ensures |r| == |fs|
    ensures forall i :: 0 <= i < |fs| ==> r[i] == fs[i].(view := MaterializeView(fs[i].view))
  {
    seq(|fs|, i requires 0 <= i < |fs| => fs[i].(view := MaterializeView(fs[i].view)))
  }

  const UNIVERSAL := ["0.0.0.0/0", "::/0"]

  function NormalizeNtp(n: Ntp): Ntp
  {
    n.(versions := if n.versions == [] then [3, 4] else n.versions,
       serveMode := Default(n.serveMode, "unicast"),
       restrict := n.restrict.(default := Default(n.restrict.default, "serve")),
       allowClientCidrs := if n.allowClientCidrs.None? then Some(UNIVERSAL) else n.allowClientCidrs)
  }

  function Normalize(st: State): State
  {
    st.(listeners := Listeners(
          Default(st.listeners.ntp, ":123"), Default(st.listeners.management, ":8088"),
          Default(st.listeners.restPath, "/v1"), Default(st.listeners.mcpPath, "/mcp")),
        auth := st.auth.(mode := Default(st.auth.mode, "bearer")),
        ntp := NormalizeNtp(st.ntp),
        filters := MaterializeFilters(st.filters),
        observability := st.observability.(
          logLevel := Default(st.observability.logLevel, "info"),
          metricsListen := Default(st.observability.metricsListen, "127.0.0.1:9090"),
          auditRing := if st.observability.auditRing == 0 then 128 else st.observability.auditRing))
  }

  lemma DefaultTwice(s: string, d: string)
    requires d != "" && !Space(d[0])
    ensures Default(Default(s, d), d) == Default(s, d)
    ensures !Blank(Default(s, d))
  {
  }

  lemma NtpTwice(n: Ntp)
    ensures NormalizeNtp(NormalizeNtp(n)) == NormalizeNtp(n)
  {
  }

  lemma FiltersTwice(fs: seq<Filter>)
    ensures MaterializeFilters(MaterializeFilters(fs)) == MaterializeFilters(fs)
  {
  }

  /** Materializing defaults twice is materializing them once, and leaves no
      listener address blank. */
  lemma NormalizeIdempotent(st: State)
    ensures Normalize(Normalize(st)) == Normalize(st)
    ensures !Blank(Normalize(st).listeners.ntp) && !Blank(Normalize(st).listeners.management)
  {
    hide Blank;
    DefaultTwice(st.listeners.ntp, ":123");
    DefaultTwice(st.listeners.management, ":8088");
    DefaultTwice(st.listeners.restPath, "/v1");
    DefaultTwice(st.listeners.mcpPath, "/mcp");
    DefaultTwice(st.auth.mode, "bearer");
    DefaultTwice(st.observability.logLevel, "info");
    DefaultTwice(st.observability.metricsListen, "127.0.0.1:9090");
    NtpTwice(st.ntp);
    FiltersTwice(st.filters);
  }

  /** What was given stays; what was blank becomes the default. */
  predicate Filled(got: string, given: string, default: string) { got == if Blank(given) then default else given }

  /** Every default there is, and that nothing else changes. */
  lemma DefaultsFilledIn(st: State)
    ensures var n := Normalize(st);
            && Filled(n.listeners.ntp, st.listeners.ntp, ":123")
            && Filled(n.listeners.management, st.listeners.management, ":8088")
            && Filled(n.listeners.restPath, st.listeners.restPath, "/v1")
            && Filled(n.listeners.mcpPath, st.listeners.mcpPath, "/mcp")
            && Filled(n.auth.mode, st.auth.mode, "bearer") && n.auth.tokens == st.auth.tokens
            && Filled(n.ntp.serveMode, st.ntp.serveMode, "unicast")
            && Filled(n.ntp.restrict.default, st.ntp.restrict.default, "serve")
            && Filled(n.observability.logLevel, st.observability.logLevel, "info")
            && Filled(n.observability.metricsListen, st.observability.metricsListen, "127.0.0.1:9090")
            && (st.observability.auditRing == 0 ==> n.observability.auditRing == 128)
            && (st.observability.auditRing != 0 ==> n.observability.auditRing == st.observability.auditRing)
            && n.ntp.versions == (if st.ntp.versions == [] then [3, 4] else st.ntp.versions)
            && n.ntp.allowClientCidrs.Some?
            && n.ntp.allowClientCidrs.value == st.ntp.allowClientCidrs.GetOr(["0.0.0.0/0", "::/0"])
            && |n.filters| == |st.filters|
            && (forall i :: 0 <= i < |st.filters| ==>
                  var f, g := st.filters[i], n.filters[i];
                  && g.(view := f.view) == f && g.view.(leap := f.view.leap, refId := f.view.refId) == f.view
                  && Filled(LeapText(g.view.leap), LeapText(f.view.leap), "none")
                  && Filled(g.view.refId, f.view.refId,
                            if f.view.stratum == 1 then "GPS" else if f.view.stratum == 16 then "INIT" else "LOCL"))
            && n.(listeners := st.listeners, auth := st.auth, ntp := st.ntp, filters := st.filters,
                  observability := st.observability) == st
            && n.ntp.(versions := st.ntp.versions, serveMode := st.ntp.serveMode, restrict := st.ntp.restrict,
                      allowClientCidrs := st.ntp.allowClientCidrs) == st.ntp
            && n.ntp.restrict.kod == st.ntp.restrict.kod && n.observability.publicPath == st.observability.publicPath
  {
    WordsAreNotBlank();
    hide Blank;
  }

  lemma WordsAreNotBlank()
    ensures !Blank("none") && !Blank("insert") && !Blank("delete") && !Blank("unsync")
  {
    LetterIsNotBlank("none");
    LetterIsNotBlank("insert");
    LetterIsNotBlank("delete");
    LetterIsNotBlank("unsync");
    hide Blank;
  }

  lemma LetterIsNotBlank(s: string)
    requires s != "" && 'a' <= s[0] <= 'z'
    ensures !Blank(s)
  {
    assert s[0] in s;
  }
}
