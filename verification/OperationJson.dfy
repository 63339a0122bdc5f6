/** internal/app/idempotency.go and the JSON tags of internal/model: what a change
    looks like to the fingerprint, and which changes look alike. */
module OperationJson {
  import opened Wrappers
  import opened Model
  import opened JsonDiff

  // ----- integers

  function Digit(d: nat): char
    requires d < 10
  {
    "0123456789"[d]
  }

  function Digits(n: nat): (s: string)
    ensures s != "" && forall i :: 0 <= i < |s| ==> s[i] != '-'
  {
    if n < 10 then [Digit(n)] else Digits(n / 10) + [Digit(n % 10)]
  }

  function Decimal(n: int): string { if n < 0 then "-" + Digits(-n) else Digits(n) }

  lemma DigitTellsApart(c: nat, d: nat)
    requires c < 10 && d < 10 && Digit(c) == Digit(d)
    ensures c == d
  {
  }

  lemma {:induction false} DigitsTellApart(m: nat, n: nat)
    requires Digits(m) == Digits(n)
    ensures m == n
  {
    var s := Digits(m);
    assert s[|s| - 1] == Digit(m % 10) == Digit(n % 10);
    DigitTellsApart(m % 10, n % 10);
    assert m >= 10 ==> s[..|s| - 1] == Digits(m / 10);
    assert n >= 10 ==> s[..|s| - 1] == Digits(n / 10);
    if m >= 10 && n >= 10 {
      DigitsTellApart(m / 10, n / 10);
    }
  }

  lemma DecimalTellsApart(m: int, n: int)
    requires Decimal(m) == Decimal(n)
    ensures m == n
  {
    assert m < 0 ==> Decimal(m)[0] == '-' && Decimal(m)[1..] == Digits(-m);
    assert n < 0 ==> Decimal(n)[0] == '-' && Decimal(n)[1..] == Digits(-n);
    if m < 0 && n < 0 {
      DigitsTellApart(-m, -n);
    } else if m >= 0 && n >= 0 {
      DigitsTellApart(m, n);
    }
  }

  // ----- objects

  /** The fields that are there. */
  function Fields(keys: seq<string>, vals: seq<Option<Json>>): (m: map<string, Json>)
    requires |keys| == |vals|
    ensures forall k :: k in m ==> k in keys
  {
    if keys == [] then map[]
    else
      var rest := Fields(keys[1..], vals[1..]);
      if vals[0].None? then rest else rest[keys[0] := vals[0].value]
  }

  ghost predicate Different(keys: seq<string>) { forall i, j :: 0 <= i < j < |keys| ==> keys[i] != keys[j] }

  lemma FieldsSplit(keys: seq<string>, vals: seq<Option<Json>>)
    requires Different(keys) && |keys| == |vals| > 0
    ensures var m := Fields(keys, vals);
            vals[0] == (if keys[0] in m then Some(m[keys[0]]) else None) &&
            Fields(keys[1..], vals[1..]) == m - {keys[0]} &&
            Different(keys[1..])
  {
    DifferentTail(keys);
    var k, rest := keys[0], Fields(keys[1..], vals[1..]);
    assert k !in rest;
    hide Different;
    PutAndTake(rest, k, vals[0]);
  }

  lemma DifferentTail(keys: seq<string>)
    requires Different(keys) && keys != []
    ensures Different(keys[1..]) && keys[0] !in keys[1..]
  {
  }

  lemma PutAndTake(m: map<string, Json>, k: string, v: Option<Json>)
    requires k !in m
    ensures m - {k} == m && (v.Some? ==> m[k := v.value] - {k} == m)
  {
  }

  /** An object tells which of its fields are there and what they hold. */
  lemma {:induction false} FieldsTellApart(keys: seq<string>, a: seq<Option<Json>>, b: seq<Option<Json>>)
    requires Different(keys) && |keys| == |a| == |b| && Fields(keys, a) == Fields(keys, b)
    ensures a == b
  {
    if keys != [] {
      FieldsSplit(keys, a);
      FieldsSplit(keys, b);
      hide Fields;
      FieldsTellApart(keys[1..], a[1..], b[1..]);
      assert a == [a[0]] + a[1..] && b == [b[0]] + b[1..];
    }
  }

  /** And by name. */
  lemma {:induction false} FieldAt(keys: seq<string>, vals: seq<Option<Json>>, i: nat)
    requires Different(keys) && |keys| == |vals| && i < |keys|
    ensures var m := Fields(keys, vals);
            (keys[i] in m <==> vals[i].Some?) && (vals[i].Some? ==> m[keys[i]] == vals[i].value)
  {
    FieldsSplit(keys, vals);
    hide Fields;
    if i > 0 {
      FieldAt(keys[1..], vals[1..], i - 1);
      assert keys[i] == keys[1..][i - 1] != keys[0];
    }
  }

  // ----- documents' parts

  /** The shortest decimal that reads back as the same float64. */
  type FloatText = real -> string

  function Shown(s: string): Option<Json> { if s == "" then None else Some(Text(s)) }

  function Int(n: int): Json { Number(Decimal(n)) }

  function IntIfAny(n: Option<int>): Option<Json> { if n.None? then None else Some(Int(n.value)) }

  function Strings(ss: seq<string>): Json { Array(seq(|ss|, i requires 0 <= i < |ss| => Text(ss[i]))) }

  /** A nil slice is written as null. */
  function CidrsJson(f: Filter): Json { if f.list.None? then Null else Strings(f.list.value) }

  function RateIfAny(ft: FloatText, r: Option<real>): Option<Json>
  {
    if r.None? then None else Some(Number(ft(r.value)))
  }

  const VIEW_KEYS := ["mode", "offset", "absolute", "freezeAt", "rate", "epoch", "leap", "stratum", "refid",
                      "precision", "rootDelay", "rootDispersion", "jitter", "minpoll", "maxpoll"]

  function ViewFields(ft: FloatText, v: ViewSpec): (vals: seq<Option<Json>>)
    ensures |vals| == |VIEW_KEYS|
  {
    [Some(Text(ModeText(v.mode))), Some(Int(v.offset)), Shown(v.absolute), Shown(v.freezeAt),
     RateIfAny(ft, v.rate), Shown(v.epoch), Some(Text(LeapText(v.leap))),
     Some(Int(v.stratum)), Some(Text(v.refId)), Some(Int(v.precision)), Some(Int(v.rootDelay)),
     Some(Int(v.rootDispersion)), Some(Int(v.jitter)), IntIfAny(v.minPoll), IntIfAny(v.maxPoll)]
  }

  const FILTER_KEYS := ["name", "enabled", "match", "view"]

  function FilterJson(ft: FloatText, f: Filter): Json
  {
    Object(Fields(FILTER_KEYS, [
      Some(Text(f.name)), Some(Bool(f.enabled)), Some(Object(Fields(["cidrs"], [Some(CidrsJson(f))]))),
      Some(Object(Fields(VIEW_KEYS, ViewFields(ft, f.view))))]))
  }

  function FilterList(ft: FloatText, fs: seq<Filter>): Json
  {
    Array(seq(|fs|, i requires 0 <= i < |fs| => FilterJson(ft, fs[i])))
  }

  function RestrictJson(r: Restrict): Json
  {
    Object(Fields(["default", "kod"], [Some(Text(r.default)), Some(Bool(r.kod))]))
  }

  function AdmissionJson(a: Admission): Json
  {
    Object(Fields(["maxPacketsPerSec", "maxPacketsPerIP"],
                  [Some(Int(a.maxPacketsPerSec)), Some(Int(a.maxPacketsPerIp))]))
  }

  function QueryLogJson(size: int): Json { Object(Fields(["size"], [Some(Int(size))])) }

  const HTTP_KEYS := ["bodyLimit", "requestsPerSecond", "burst", "maxConcurrent"]

  function HttpJson(h: Http): Json
  {
    Object(Fields(HTTP_KEYS,
                  [Some(Int(h.bodyLimit)), Some(Int(h.requestsPerSecond)), Some(Int(h.burst)),
                   Some(Int(h.maxConcurrent))]))
  }

  function OpText(op: Op): string
  {
    match op
    case ReplaceFilters => "replaceFilters"
    case UpsertFilter => "upsertFilter"
    case RemoveFilter => "removeFilter"
    case ReplaceRestrict => "replaceRestrict"
    case ReplaceAdmission => "replaceAdmission"
    case ReplaceAllowClientCidrs => "replaceAllowClientCidrs"
    case ReplaceQueryLog => "replaceQueryLog"
    case ReplaceManagementHttp => "replaceManagementHTTP"
    case UnknownOp(name) => name
  }

  // ----- operations and changes

  const OP_KEYS := ["op", "filters", "filter", "name", "restrict", "admission", "allowClientCidrs", "queryLog",
                    "managementHTTP"]

  /** All fields but the first are omitted when empty: an empty list like an absent
      one, a pointer only when it is nil. */
  function OperationFields(ft: FloatText, op: Operation): (vals: seq<Option<Json>>)
    ensures |vals| == |OP_KEYS|
  {
    [Some(Text(OpText(op.op))),
     if op.filters == [] then None else Some(FilterList(ft, op.filters)),
     if op.filter.None? then None else Some(FilterJson(ft, op.filter.value)),
     Shown(op.name),
     if op.restrict.None? then None else Some(RestrictJson(op.restrict.value)),
     if op.admission.None? then None else Some(AdmissionJson(op.admission.value)),
     if op.allowClientCidrs.GetOr([]) == [] then None else Some(Strings(op.allowClientCidrs.value)),
     if op.queryLog.None? then None else Some(QueryLogJson(op.queryLog.value)),
     if op.http.None? then None else Some(HttpJson(op.http.value))]
  }

  function OperationJson(ft: FloatText, op: Operation): Json { Object(Fields(OP_KEYS, OperationFields(ft, op))) }

  function OperationList(ft: FloatText, ops: seq<Operation>): (js: seq<Json>)
    ensures |js| == |ops| && forall i :: 0 <= i < |ops| ==> js[i] == OperationJson(ft, ops[i])
  {
    seq(|ops|, i requires 0 <= i < |ops| => OperationJson(ft, ops[i]))
  }

  /** The value whose marshalled bytes are hashed. */
  function ChangeJson(ft: FloatText, reason: string, ops: Option<seq<Operation>>): Json
  {
    Object(Fields(["reason", "operations"], [
      Some(Text(reason)), Some(if ops.None? then Null else Array(OperationList(ft, ops.value)))]))
  }

  // ----- what a change must look like to be told apart

  /** A verb, mode or leap that is none of the known ones is written as itself. */
  predicate ProperView(v: ViewSpec)
  {
    (v.mode.OtherMode? ==> v.mode.name !in {"follow-real", "offset", "absolute", "freeze", "rate"}) &&
    (v.leap.OtherLeap? ==> v.leap.name !in {"none", "insert", "delete", "unsync"})
  }

  predicate ProperOperation(op: Operation)
  {
    (op.op.UnknownOp? ==>
       op.op.name !in {"replaceFilters", "upsertFilter", "removeFilter", "replaceRestrict", "replaceAdmission",
                       "replaceAllowClientCidrs", "replaceQueryLog", "replaceManagementHTTP"}) &&
    (forall i :: 0 <= i < |op.filters| ==> ProperView(op.filters[i].view)) &&
    (op.filter.Some? ==> ProperView(op.filter.value.view))
  }

  function RateOf(v: ViewSpec): set<real> { if v.rate.None? then {} else {v.rate.value} }

  function RatesOf(op: Operation): set<real>
  {
    (set i, r | 0 <= i < |op.filters| && r in RateOf(op.filters[i].view) :: r) +
    if op.filter.None? then {} else RateOf(op.filter.value.view)
  }

  /** The float formatter distinguishes these rates, as it does any two float64s. */
  ghost predicate TellsApart(ft: FloatText, rates: set<real>)
  {
    forall x, y :: x in rates && y in rates && ft(x) == ft(y) ==> x == y
  }

  /** The same operation, or the same but for an empty client list against none. */
  predicate SameOnTheWire(a: Operation, b: Operation)
  {
    a == b ||
    (a.(allowClientCidrs := None) == b.(allowClientCidrs := None) &&
     a.allowClientCidrs in {None, Some([])} && b.allowClientCidrs in {None, Some([])})
  }

  // ----- telling apart, part by part

  lemma IntTellsApart(m: int, n: int)
    requires Int(m) == Int(n)
    ensures m == n
  {
    DecimalTellsApart(m, n);
  }

  lemma IfAnyTellsApart(m: Option<int>, n: Option<int>)
    requires IntIfAny(m) == IntIfAny(n)
    ensures m == n
  {
    if m.Some? && n.Some? {
      IntTellsApart(m.value, n.value);
    }
  }

  lemma StringsTellApart(a: seq<string>, b: seq<string>)
    requires Strings(a) == Strings(b)
    ensures a == b
  {
    var x, y := Strings(a).items, Strings(b).items;
    assert |x| == |a| && |y| == |b|;
    forall i | 0 <= i < |a|
      ensures a[i] == b[i]
    {
      assert x[i] == Text(a[i]) && y[i] == Text(b[i]);
    }
  }

  lemma NamesTellApart(v: ViewSpec, w: ViewSpec)
    requires ProperView(v) && ProperView(w)
    ensures ModeText(v.mode) == ModeText(w.mode) ==> v.mode == w.mode
    ensures LeapText(v.leap) == LeapText(w.leap) ==> v.leap == w.leap
  {
  }

  lemma OpsTellApart(a: Operation, b: Operation)
    requires ProperOperation(a) && ProperOperation(b) && OpText(a.op) == OpText(b.op)
    ensures a.op == b.op
  {
  }

  lemma ShownTellsApart(s: string, t: string)
    requires Shown(s) == Shown(t)
    ensures s == t
  {
  }

  lemma RateTellsApart(ft: FloatText, v: ViewSpec, w: ViewSpec)
    requires TellsApart(ft, RateOf(v) + RateOf(w)) && RateIfAny(ft, v.rate) == RateIfAny(ft, w.rate)
    ensures v.rate == w.rate
  {
    if v.rate.Some? && w.rate.Some? {
      var x, y := v.rate.value, w.rate.value;
      assert x in RateOf(v) + RateOf(w) && y in RateOf(v) + RateOf(w);
      assert ft(x) == ft(y);
    }
  }

  lemma ViewTellsApart(ft: FloatText, v: ViewSpec, w: ViewSpec)
    requires ProperView(v) && ProperView(w) && TellsApart(ft, RateOf(v) + RateOf(w))
    requires Fields(VIEW_KEYS, ViewFields(ft, v)) == Fields(VIEW_KEYS, ViewFields(ft, w))
    ensures v == w
  {
    hide Fields, Int, IntIfAny, RateIfAny, Shown, ModeText, LeapText;
    var a, b := ViewFields(ft, v), ViewFields(ft, w);
    assert Different(VIEW_KEYS);
    FieldsTellApart(VIEW_KEYS, a, b);
    NamesTellApart(v, w);
    assert a[0] == b[0] && a[6] == b[6] && a[8] == b[8];
    RateTellsApart(ft, v, w) by { assert a[4] == b[4]; }
    IntTellsApart(v.offset, w.offset) by { assert a[1] == b[1]; }
    ShownTellsApart(v.absolute, w.absolute) by { assert a[2] == b[2]; }
    ShownTellsApart(v.freezeAt, w.freezeAt) by { assert a[3] == b[3]; }
    ShownTellsApart(v.epoch, w.epoch) by { assert a[5] == b[5]; }
    IntTellsApart(v.stratum, w.stratum) by { assert a[7] == b[7]; }
    IntTellsApart(v.precision, w.precision) by { assert a[9] == b[9]; }
    IntTellsApart(v.rootDelay, w.rootDelay) by { assert a[10] == b[10]; }
    IntTellsApart(v.rootDispersion, w.rootDispersion) by { assert a[11] == b[11]; }
    IntTellsApart(v.jitter, w.jitter) by { assert a[12] == b[12]; }
    IfAnyTellsApart(v.minPoll, w.minPoll) by { assert a[13] == b[13]; }
    IfAnyTellsApart(v.maxPoll, w.maxPoll) by { assert a[14] == b[14]; }
  }

  lemma CidrsTellApart(f: Filter, g: Filter)
    requires CidrsJson(f) == CidrsJson(g)
    ensures f.list == g.list
  {
    if f.list.Some? && g.list.Some? {
      StringsTellApart(f.list.value, g.list.value);
    }
  }

  lemma FilterTellsApart(ft: FloatText, f: Filter, g: Filter)
    requires ProperView(f.view) && ProperView(g.view) && TellsApart(ft, RateOf(f.view) + RateOf(g.view))
    requires FilterJson(ft, f) == FilterJson(ft, g)
    ensures f == g
  {
    hide Fields, CidrsJson, ViewFields, ProperView, TellsApart;
    var a := [Some(Text(f.name)), Some(Bool(f.enabled)), Some(Object(Fields(["cidrs"], [Some(CidrsJson(f))]))),
              Some(Object(Fields(VIEW_KEYS, ViewFields(ft, f.view))))];
    var b := [Some(Text(g.name)), Some(Bool(g.enabled)), Some(Object(Fields(["cidrs"], [Some(CidrsJson(g))]))),
              Some(Object(Fields(VIEW_KEYS, ViewFields(ft, g.view))))];
    assert Different(FILTER_KEYS);
    FieldsTellApart(FILTER_KEYS, a, b);
    assert a[0] == b[0] && a[1] == b[1] && a[2] == b[2] && a[3] == b[3];
    FieldsTellApart(["cidrs"], [Some(CidrsJson(f))], [Some(CidrsJson(g))]);
    assert [Some(CidrsJson(f))][0] == [Some(CidrsJson(g))][0];
    CidrsTellApart(f, g);
    ViewTellsApart(ft, f.view, g.view);
  }

  lemma RatesInside(op: Operation, i: nat)
    requires i < |op.filters|
    ensures RateOf(op.filters[i].view) <= RatesOf(op)
  {
    forall r | r in RateOf(op.filters[i].view)
      ensures r in RatesOf(op)
    {
    }
  }

  lemma FilterListTellsApart(ft: FloatText, a: Operation, b: Operation)
    requires ProperOperation(a) && ProperOperation(b) && TellsApart(ft, RatesOf(a) + RatesOf(b))
    requires FilterList(ft, a.filters) == FilterList(ft, b.filters)
    ensures a.filters == b.filters
  {
    hide FilterJson, ProperView, RateOf;
    var x, y := FilterList(ft, a.filters).items, FilterList(ft, b.filters).items;
    assert |x| == |a.filters| && |y| == |b.filters|;
    forall i | 0 <= i < |a.filters|
      ensures a.filters[i] == b.filters[i]
    {
      assert x[i] == FilterJson(ft, a.filters[i]) && y[i] == FilterJson(ft, b.filters[i]);
      RatesInside(a, i);
      RatesInside(b, i);
      FilterTellsApart(ft, a.filters[i], b.filters[i]);
    }
  }

  lemma OneFilterTellsApart(ft: FloatText, a: Operation, b: Operation)
    requires ProperOperation(a) && ProperOperation(b) && TellsApart(ft, RatesOf(a) + RatesOf(b))
    requires a.filter.Some? && b.filter.Some? && FilterJson(ft, a.filter.value) == FilterJson(ft, b.filter.value)
    ensures a.filter == b.filter
  {
    hide FilterJson, RateOf;
    assert RateOf(a.filter.value.view) <= RatesOf(a) && RateOf(b.filter.value.view) <= RatesOf(b);
    FilterTellsApart(ft, a.filter.value, b.filter.value);
  }

  lemma PayloadsTellApart(a: Operation, b: Operation)
    ensures a.restrict.Some? && b.restrict.Some? && RestrictJson(a.restrict.value) == RestrictJson(b.restrict.value) ==>
              a.restrict == b.restrict
    ensures a.admission.Some? && b.admission.Some? &&
            AdmissionJson(a.admission.value) == AdmissionJson(b.admission.value) ==>
              a.admission == b.admission
    ensures a.queryLog.Some? && b.queryLog.Some? && QueryLogJson(a.queryLog.value) == QueryLogJson(b.queryLog.value) ==>
              a.queryLog == b.queryLog
    ensures a.http.Some? && b.http.Some? && HttpJson(a.http.value) == HttpJson(b.http.value) ==> a.http == b.http
  {
    hide Fields, Int;
    if a.restrict.Some? && b.restrict.Some? && RestrictJson(a.restrict.value) == RestrictJson(b.restrict.value) {
      var r, q := a.restrict.value, b.restrict.value;
      var x, y := [Some(Text(r.default)), Some(Bool(r.kod))], [Some(Text(q.default)), Some(Bool(q.kod))];
      FieldsTellApart(["default", "kod"], x, y);
      assert x[0] == y[0] && x[1] == y[1];
    }
    if a.admission.Some? && b.admission.Some? && AdmissionJson(a.admission.value) == AdmissionJson(b.admission.value) {
      var r, q := a.admission.value, b.admission.value;
      var x := [Some(Int(r.maxPacketsPerSec)), Some(Int(r.maxPacketsPerIp))];
      var y := [Some(Int(q.maxPacketsPerSec)), Some(Int(q.maxPacketsPerIp))];
      FieldsTellApart(["maxPacketsPerSec", "maxPacketsPerIP"], x, y);
      assert x[0] == y[0] && x[1] == y[1];
      IntTellsApart(r.maxPacketsPerSec, q.maxPacketsPerSec);
      IntTellsApart(r.maxPacketsPerIp, q.maxPacketsPerIp);
    }
    if a.queryLog.Some? && b.queryLog.Some? && QueryLogJson(a.queryLog.value) == QueryLogJson(b.queryLog.value) {
      var x, y := [Some(Int(a.queryLog.value))], [Some(Int(b.queryLog.value))];
      FieldsTellApart(["size"], x, y);
      assert x[0] == y[0];
      IntTellsApart(a.queryLog.value, b.queryLog.value);
    }
    if a.http.Some? && b.http.Some? && HttpJson(a.http.value) == HttpJson(b.http.value) {
      HttpTellsApart(a.http.value, b.http.value);
    }
  }

  lemma HttpTellsApart(g: Http, h: Http)
    requires HttpJson(g) == HttpJson(h)
    ensures g == h
  {
    hide Fields, Int;
    var x := [Some(Int(g.bodyLimit)), Some(Int(g.requestsPerSecond)), Some(Int(g.burst)), Some(Int(g.maxConcurrent))];
    var y := [Some(Int(h.bodyLimit)), Some(Int(h.requestsPerSecond)), Some(Int(h.burst)), Some(Int(h.maxConcurrent))];
    FieldsTellApart(HTTP_KEYS, x, y);
    assert x[0] == y[0] && x[1] == y[1] && x[2] == y[2] && x[3] == y[3];
    IntTellsApart(g.bodyLimit, h.bodyLimit);
    IntTellsApart(g.requestsPerSecond, h.requestsPerSecond);
    IntTellsApart(g.burst, h.burst);
    IntTellsApart(g.maxConcurrent, h.maxConcurrent);
  }

  /** Two operations are marshalled alike if and only if they are the same, or the
      same but for an empty client list against none. */
  lemma OperationTellsApart(ft: FloatText, a: Operation, b: Operation)
    requires ProperOperation(a) && ProperOperation(b) && TellsApart(ft, RatesOf(a) + RatesOf(b))
    ensures OperationJson(ft, a) == OperationJson(ft, b) <==> SameOnTheWire(a, b)
  {
    hide Fields, FilterList, FilterJson, RestrictJson, AdmissionJson, QueryLogJson, HttpJson, Strings, Shown, OpText,
      ProperOperation, TellsApart, RatesOf;
    if OperationJson(ft, a) == OperationJson(ft, b) {
      var x, y := OperationFields(ft, a), OperationFields(ft, b);
      assert Different(OP_KEYS);
      FieldsTellApart(OP_KEYS, x, y);
      assert x[0] == y[0] && x[1] == y[1] && x[2] == y[2] && x[3] == y[3] && x[4] == y[4];
      assert x[5] == y[5] && x[6] == y[6] && x[7] == y[7] && x[8] == y[8];
      OpsTellApart(a, b);
      if a.filters != [] && b.filters != [] {
        FilterListTellsApart(ft, a, b);
      }
      if a.filter.Some? && b.filter.Some? {
        OneFilterTellsApart(ft, a, b);
      }
      ShownTellsApart(a.name, b.name);
      PayloadsTellApart(a, b);
      if a.allowClientCidrs.GetOr([]) != [] && b.allowClientCidrs.GetOr([]) != [] {
        StringsTellApart(a.allowClientCidrs.value, b.allowClientCidrs.value);
      }
    }
  }

  // ----- whole changes

  /** The same reason and pairwise the same operations, but for empty client lists
      against none. */
  predicate SameChange(reason: string, ops: Option<seq<Operation>>, reason2: string, ops2: Option<seq<Operation>>)
  {
    reason == reason2 && (ops.None? <==> ops2.None?) && SameOperations(ops.GetOr([]), ops2.GetOr([]))
  }

  predicate SameOperations(ops: seq<Operation>, ops2: seq<Operation>)
  {
    |ops| == |ops2| && forall i :: 0 <= i < |ops| ==> SameOnTheWire(ops[i], ops2[i])
  }

  ghost predicate Proper(ops: seq<Operation>) { forall i :: 0 <= i < |ops| ==> ProperOperation(ops[i]) }

  function AllRates(ops: seq<Operation>): set<real> { set i, r | 0 <= i < |ops| && r in RatesOf(ops[i]) :: r }

  lemma SameLooksAlike(ft: FloatText, a: Operation, b: Operation)
    requires SameOnTheWire(a, b)
    ensures OperationJson(ft, a) == OperationJson(ft, b)
  {
    hide Fields, FilterList, FilterJson, RestrictJson, AdmissionJson, QueryLogJson, HttpJson, Strings, Shown, OpText;
    assert OperationFields(ft, a) == OperationFields(ft, b);
  }

  lemma RatesWithin(ops: seq<Operation>, i: nat)
    requires i < |ops|
    ensures RatesOf(ops[i]) <= AllRates(ops)
  {
    hide RatesOf;
    forall r | r in RatesOf(ops[i])
      ensures r in AllRates(ops)
    {
    }
  }

  lemma SameOperationsLookAlike(ft: FloatText, ops: seq<Operation>, ops2: seq<Operation>)
    requires SameOperations(ops, ops2)
    ensures OperationList(ft, ops) == OperationList(ft, ops2)
  {
    hide OperationJson, SameOnTheWire;
    forall i | 0 <= i < |ops|
      ensures OperationJson(ft, ops[i]) == OperationJson(ft, ops2[i])
    {
      SameLooksAlike(ft, ops[i], ops2[i]);
    }
  }

  lemma OperationsTellApart(ft: FloatText, ops: seq<Operation>, ops2: seq<Operation>)
    requires Proper(ops) && Proper(ops2) && TellsApart(ft, AllRates(ops) + AllRates(ops2))
    requires OperationList(ft, ops) == OperationList(ft, ops2)
    ensures SameOperations(ops, ops2)
  {
    hide OperationJson, SameOnTheWire, ProperOperation, RatesOf, AllRates;
    forall i | 0 <= i < |ops|
      ensures SameOnTheWire(ops[i], ops2[i])
    {
      RatesWithin(ops, i);
      RatesWithin(ops2, i);
      assert OperationList(ft, ops)[i] == OperationList(ft, ops2)[i];
      OperationTellsApart(ft, ops[i], ops2[i]);
    }
  }

  /** Whatever the formatter, two changes that are the same in that sense are
      marshalled alike. */
  lemma SameChangeLooksAlike(
    ft: FloatText, reason: string, ops: Option<seq<Operation>>, reason2: string, ops2: Option<seq<Operation>>)
    requires SameChange(reason, ops, reason2, ops2)
    ensures ChangeJson(ft, reason, ops) == ChangeJson(ft, reason2, ops2)
  {
    hide SameOperations, OperationList;
    SameOperationsLookAlike(ft, ops.GetOr([]), ops2.GetOr([]));
  }

  /** And no others are. */
  lemma ChangeTellsApart(
    ft: FloatText, reason: string, ops: Option<seq<Operation>>, reason2: string, ops2: Option<seq<Operation>>)
    requires Proper(ops.GetOr([])) && Proper(ops2.GetOr([]))
    requires TellsApart(ft, AllRates(ops.GetOr([])) + AllRates(ops2.GetOr([])))
    ensures ChangeJson(ft, reason, ops) == ChangeJson(ft, reason2, ops2) <==> SameChange(reason, ops, reason2, ops2)
  {
    hide SameOperations, OperationList, Proper, TellsApart, AllRates, Fields;
    if SameChange(reason, ops, reason2, ops2) {
      SameChangeLooksAlike(ft, reason, ops, reason2, ops2);
    }
    if ChangeJson(ft, reason, ops) == ChangeJson(ft, reason2, ops2) {
      var x := [Some(Text(reason)), Some(if ops.None? then Null else Array(OperationList(ft, ops.value)))];
      var y := [Some(Text(reason2)), Some(if ops2.None? then Null else Array(OperationList(ft, ops2.value)))];
      FieldsTellApart(["reason", "operations"], x, y);
      assert x[0] == y[0] && x[1] == y[1];
      if ops.Some? && ops2.Some? {
        OperationsTellApart(ft, ops.value, ops2.value);
      } else {
        NothingLooksAlike();
      }
    }
  }

  lemma NothingLooksAlike()
    ensures SameOperations([], [])
  {
  }
}
