/** internal/app/operations.go: typed mutations of a document. */
module Operations {
  import opened Wrappers
  import opened Model
  import opened Validate
  import opened Compiler

  /** Replace the first filter of that name, or append. */
  function Upsert(list: seq<Filter>, f: Filter): seq<Filter>
  {
    if list == [] then [f]
    else if list[0].name == f.name then [f] + list[1..]
    else [list[0]] + Upsert(list[1..], f)
  }

  /** The filters not named so, in order. */
  function Without(list: seq<Filter>, name: string): seq<Filter>
  {
    if list == [] then []
    else if list[0].name == name then Without(list[1..], name)
    else [list[0]] + Without(list[1..], name)
  }

  predicate Named(list: seq<Filter>, name: string) { exists i :: 0 <= i < |list| && list[i].name == name }

  function ApplyOne(st: State, op: Operation): Result<State, Error>
  {
    match op.op
    case UnknownOp(_) => Failure(ValidationFailed)
    case ReplaceFilters => Success(st.(filters := op.filters))
    case UpsertFilter =>
      if op.filter.None? then Failure(ValidationFailed)
      else Success(st.(filters := Upsert(st.filters, op.filter.value)))
    case RemoveFilter =>
      if op.name == "" then Failure(ValidationFailed)
      else if !Named(st.filters, op.name) then Failure(NotFound)
      else Success(st.(filters := Without(st.filters, op.name)))
    case ReplaceRestrict =>
      if op.restrict.None? then Failure(ValidationFailed)
      else Success(st.(ntp := st.ntp.(restrict := op.restrict.value)))
    case ReplaceAdmission =>
      if op.admission.None? then Failure(ValidationFailed)
      else Success(st.(ntp := st.ntp.(admission := op.admission.value)))
    case ReplaceAllowClientCidrs => Success(st.(ntp := st.ntp.(allowClientCidrs := op.allowClientCidrs)))
    case ReplaceQueryLog =>
      if op.queryLog.None? then Failure(ValidationFailed)
      else Success(st.(ntp := st.ntp.(queryLogSize := op.queryLog.value)))
    case ReplaceManagementHttp =>
      if op.http.None? then Failure(ValidationFailed)
      else Success(st.(management := st.management.(http := op.http.value)))
  }

  function ApplyOperations(st: State, ops: seq<Operation>): Result<State, Error>
    decreases |ops|
  {
    if ops == [] then Success(st)
    else
      var r := ApplyOne(st, ops[0]);
      if r.Failure? then r else ApplyOperations(r.value, ops[1..])
  }

  lemma {:induction false} OperationErrors(st: State, ops: seq<Operation>)
    ensures ApplyOperations(st, ops).Failure? ==> ApplyOperations(st, ops).error in {ValidationFailed, NotFound}
    decreases |ops|
  {
    if ops != [] && ApplyOne(st, ops[0]).Success? {
      OperationErrors(ApplyOne(st, ops[0]).value, ops[1..]);
    }
  }

  /** Scopes are not compared. */
  predicate SameToken(a: Token, b: Token) { a.id == b.id && a.role == b.role && a.secretFile == b.secretFile }

  predicate AuthEqual(a: Auth, b: Auth)
  {
    a.mode == b.mode && |a.tokens| == |b.tokens| &&
    forall i :: 0 <= i < |a.tokens| ==> SameToken(a.tokens[i], b.tokens[i])
  }

  /** rejectResetOnly: true when the change touches a reset-only setting it checks. */
  predicate RejectsResetOnly(before: State, after: State)
  {
    before.listeners != after.listeners || before.ntp.nts != after.ntp.nts ||
    before.ntp.keysFile != after.ntp.keysFile || !AuthEqual(before.auth, after.auth)
  }

  /** Everything no operation can change. */
  datatype Fixed = Fixed(
    apiVersion: string, kind: string, name: string, labels: map<string, string>,
    listeners: Listeners, auth: Auth, versions: seq<int>, serveMode: string, nts: bool, keysFile: string,
    origins: seq<string>, legacyClients: bool, ui: bool, observability: Observability)

  function FixedPart(st: State): Fixed
  {
    Fixed(st.apiVersion, st.kind, st.name, st.labels, st.listeners, st.auth, st.ntp.versions, st.ntp.serveMode,
          st.ntp.nts, st.ntp.keysFile, st.management.allowedOrigins, st.management.allowLegacyClients, st.ui,
          st.observability)
  }

  /** No list of operations reaches a reset-only setting, so the check on the
      result never fires. */
  lemma {:induction false} OperationsKeepFixed(st: State, ops: seq<Operation>)
    requires ApplyOperations(st, ops).Success?
    ensures FixedPart(ApplyOperations(st, ops).value) == FixedPart(st)
    ensures !RejectsResetOnly(st, ApplyOperations(st, ops).value)
    decreases |ops|
  {
    hide ApplyOne, FixedPart, RejectsResetOnly;
    if ops == [] {
      FixedIsChecked(st, st);
    } else {
      var next, last := ApplyOne(st, ops[0]).value, ApplyOperations(st, ops).value;
      OneKeepsFixed(st, ops[0]);
      OperationsKeepFixed(next, ops[1..]);
      FixedIsChecked(st, last);
    }
  }

  lemma OneKeepsFixed(st: State, op: Operation)
    requires ApplyOne(st, op).Success?
    ensures FixedPart(ApplyOne(st, op).value) == FixedPart(st)
  {
    hide Upsert, Without, Named;
  }

  /** The check looks at nothing but the fixed part. */
  lemma FixedIsChecked(before: State, after: State)
    requires FixedPart(after) == FixedPart(before)
    ensures !RejectsResetOnly(before, after)
  {
  }

  /** Normalization of an already normalized fixed part changes nothing. */
  lemma FixedSurvivesNormalize(st: State, t: State)
    requires Normalize(st) == st && FixedPart(t) == FixedPart(st)
    ensures FixedPart(Normalize(t)) == FixedPart(st)
  {
  }

  // ----- the slice loops

  method UpsertFilter(list: seq<Filter>, f: Filter) returns (r: seq<Filter>)
    ensures r == Upsert(list, f)
  {
    for i := 0 to |list|
      invariant forall k :: 0 <= k < i ==> list[k].name != f.name
    {
      if list[i].name == f.name {
        UpsertAt(list, f, i);
        return list[i := f];
      }
    }
    UpsertNew(list, f);
    r := list + [f];
  }

  lemma {:induction false} UpsertAt(list: seq<Filter>, f: Filter, i: nat)
    requires i < |list| && list[i].name == f.name && forall k :: 0 <= k < i ==> list[k].name != f.name
    ensures Upsert(list, f) == list[i := f]
  {
    if i > 0 {
      UpsertAt(list[1..], f, i - 1);
      assert list[i := f] == [list[0]] + list[1..][i - 1 := f];
    }
  }

  lemma {:induction false} UpsertNew(list: seq<Filter>, f: Filter)
    requires !Named(list, f.name)
    ensures Upsert(list, f) == list + [f]
  {
    if list != [] {
      forall i | 0 <= i < |list[1..]|
        ensures list[1..][i].name != f.name
      {
        assert list[i + 1].name != f.name;
      }
      UpsertNew(list[1..], f);
      assert list + [f] == [list[0]] + (list[1..] + [f]);
    }
  }

  /** The compaction writes behind its own reading position, into the slice it
      reads; what lies past the kept filters is not touched. */
  method RemoveFilter(a: array<Filter>, name: string) returns (n: nat, found: bool)
    modifies a
    ensures n <= a.Length && a[..n] == Without(old(a[..]), name)
    ensures found <==> Named(old(a[..]), name)
    ensures a[n..] == old(a[n..])
  {
    n, found := 0, false;
    ghost var was := a[..];
    for i := 0 to a.Length
      invariant 0 <= n <= i
      invariant a[n..] == was[n..]
      invariant a[..n] == Without(was[..i], name)
      invariant found <==> Named(was[..i], name)
    {
      WithoutSnoc(was[..i], was[i], name);
      assert was[..i + 1] == was[..i] + [was[i]];
      assert a[i] == a[n..][i - n] == was[i];
      if a[i].name == name {
        found := true;
        assert was[..i + 1][i].name == name;
      } else {
        a[n] := a[i];
        n := n + 1;
      }
    }
    assert was[..a.Length] == was;
  }

  lemma {:induction false} WithoutSnoc(s: seq<Filter>, f: Filter, name: string)
    ensures Without(s + [f], name) == Without(s, name) + if f.name == name then [] else [f]
    ensures Named(s + [f], name) <==> Named(s, name) || f.name == name
  {
    if s == [] {
      assert s + [f] == [f];
      assert Without([f], name) == if f.name == name then Without([], name) else [f] + Without([], name);
    } else {
      WithoutSnoc(s[1..], f, name);
      assert (s + [f])[1..] == s[1..] + [f];
    }
    if Named(s, name) {
      var i :| 0 <= i < |s| && s[i].name == name;
      assert (s + [f])[i].name == name;
    }
    if f.name == name {
      assert (s + [f])[|s|].name == name;
    }
  }

  // ----- names stay unique

  lemma {:induction false} WithoutHolds(s: seq<Filter>, name: string)
    ensures forall f :: f in Without(s, name) <==> f in s && f.name != name
  {
    if s != [] {
      WithoutHolds(s[1..], name);
      assert s == [s[0]] + s[1..];
    }
  }

  lemma UniqueTail(s: seq<Filter>)
    requires s != [] && UniqueNames(s)
    ensures UniqueNames(s[1..]) && forall f :: f in s[1..] ==> f.name != s[0].name
  {
  }

  lemma UniqueCons(f: Filter, s: seq<Filter>)
    requires UniqueNames(s) && forall g :: g in s ==> g.name != f.name
    ensures UniqueNames([f] + s)
  {
  }

  lemma {:induction false} WithoutUnique(s: seq<Filter>, name: string)
    requires UniqueNames(s)
    ensures UniqueNames(Without(s, name))
  {
    if s != [] {
      UniqueTail(s);
      WithoutUnique(s[1..], name);
      WithoutHolds(s[1..], name);
      if s[0].name != name {
        UniqueCons(s[0], Without(s[1..], name));
      }
    }
  }

  /** Upserting or removing keeps names unique; after an upsert the list holds
      exactly the new filter and the others it held. */
  lemma UniqueNamesKept(s: seq<Filter>, f: Filter, name: string)
    requires UniqueNames(s)
    ensures UniqueNames(Upsert(s, f)) && UniqueNames(Without(s, name))
    ensures forall g :: g in Upsert(s, f) <==> g == f || (g in s && g.name != f.name)
  {
    WithoutUnique(s, name);
    if Named(s, f.name) {
      var i :| 0 <= i < |s| && s[i].name == f.name;
      hide Upsert, Without;
      UpsertAt(s, f, i);
      ReplacedMembers(s, f, i);
    } else {
      UpsertNew(s, f);
    }
  }

  lemma ReplacedMembers(s: seq<Filter>, f: Filter, i: nat)
    requires UniqueNames(s) && i < |s| && s[i].name == f.name
    ensures UniqueNames(s[i := f]) && forall g :: g in s[i := f] <==> g == f || (g in s && g.name != f.name)
  {
    forall g | g in s && g.name != f.name
      ensures g in s[i := f]
    {
      var k :| 0 <= k < |s| && s[k] == g;
      assert s[i := f][k] == g;
    }
    assert s[i := f][i] == f;
  }

  // ----- what each operation does to the document

  /** When an operation is refused, and with which code. */
  lemma OperationRefused(st: State, op: Operation)
    ensures var unknown := forall f :: f in st.filters ==> f.name != op.name;
            var r := ApplyOne(st, op);
            (r == Failure(NotFound) <==> op.op.RemoveFilter? && op.name != "" && unknown) &&
            (r == Failure(ValidationFailed) <==>
             || op.op.UnknownOp?
             || (op.op.UpsertFilter? && op.filter == None)
             || (op.op.RemoveFilter? && op.name == "")
             || (op.op.ReplaceRestrict? && op.restrict == None)
             || (op.op.ReplaceAdmission? && op.admission == None)
             || (op.op.ReplaceQueryLog? && op.queryLog == None)
             || (op.op.ReplaceManagementHttp? && op.http == None)) &&
            (r.Failure? ==> r.error == NotFound || r.error == ValidationFailed)
  {
    hide Upsert, Without;
  }

  /** A replace operation sets its own part to the payload, and nothing else. */
  lemma ReplacesItsPart(st: State, op: Operation)
    requires ApplyOne(st, op).Success?
    ensures var t := ApplyOne(st, op).value;
            && (op.op.ReplaceFilters? ==> t.filters == op.filters && t.(filters := st.filters) == st)
            && (op.op.ReplaceRestrict? ==>
                  op.restrict == Some(t.ntp.restrict) && t.(ntp := t.ntp.(restrict := st.ntp.restrict)) == st)
            && (op.op.ReplaceAdmission? ==>
                  op.admission == Some(t.ntp.admission) && t.(ntp := t.ntp.(admission := st.ntp.admission)) == st)
            && (op.op.ReplaceAllowClientCidrs? ==>
                  op.allowClientCidrs == t.ntp.allowClientCidrs &&
                  t.(ntp := t.ntp.(allowClientCidrs := st.ntp.allowClientCidrs)) == st)
            && (op.op.ReplaceQueryLog? ==>
                  op.queryLog == Some(t.ntp.queryLogSize) &&
                  t.(ntp := t.ntp.(queryLogSize := st.ntp.queryLogSize)) == st)
            && (op.op.ReplaceManagementHttp? ==>
                  op.http == Some(t.management.http) &&
                  t.(management := t.management.(http := st.management.http)) == st)
  {
    hide Upsert, Without, Named;
  }

  /** The positions of the kept elements in the list they come from. */
  ghost predicate Selects(kept: seq<Filter>, list: seq<Filter>, at: seq<nat>)
  {
    && |at| == |kept|
    && (forall i :: 0 <= i < |at| ==> at[i] < |list| && kept[i] == list[at[i]])
    && forall i, j :: 0 <= i < j < |at| ==> at[i] < at[j]
  }

  /** A removal keeps every filter of another name, each as often as it was there, in
      the same order, drops all of that name, and leaves the rest of the document. */
  lemma RemovesTheNamed(st: State, op: Operation) returns (at: seq<nat>)
    requires op.op.RemoveFilter? && ApplyOne(st, op).Success?
    ensures var t := ApplyOne(st, op).value;
            && t.(filters := st.filters) == st
            && Selects(t.filters, st.filters, at)
            && (forall i :: i in at <==> 0 <= i < |st.filters| && st.filters[i].name != op.name)
            && (forall f :: f in t.filters <==> f in st.filters && f.name != op.name)
            && (UniqueNames(st.filters) ==> UniqueNames(t.filters))
  {
    hide Selects, UniqueNames;
    at := KeptAt(st.filters, op.name);
    WithoutHolds(st.filters, op.name);
    if UniqueNames(st.filters) {
      WithoutUnique(st.filters, op.name);
    }
    hide Without, Upsert;
  }

  lemma SelectsOneMore(kept: seq<Filter>, front: seq<Filter>, at: seq<nat>, f: Filter)
    requires Selects(kept, front, at)
    ensures Selects(kept, front + [f], at) && Selects(kept + [f], front + [f], at + [|front|])
  {
  }

  lemma {:induction false} KeptAt(s: seq<Filter>, name: string) returns (at: seq<nat>)
    ensures Selects(Without(s, name), s, at)
    ensures forall i :: i in at <==> 0 <= i < |s| && s[i].name != name
  {
    at := [];
    assert Without([], name) == [] && Selects([], [], at);
    hide Without, Selects;
    if s != [] {
      var n := |s| - 1;
      var front := s[..n];
      assert s == front + [s[n]];
      at := KeptAt(front, name);
      WithoutSnoc(front, s[n], name);
      SelectsOneMore(Without(front, name), front, at, s[n]);
      assert Without(front, name) + [] == Without(front, name);
      assert forall i :: 0 <= i < n ==> s[i] == front[i];
      if s[n].name != name {
        at := at + [n];
      }
    }
  }

  /** An upsert puts its filter where the first of that name stands, or at the end, and
      leaves every other position and the rest of the document. With unique names the
      list then holds the new filter and the others it held. */
  lemma UpsertsTheFilter(st: State, op: Operation)
    requires op.op.UpsertFilter? && ApplyOne(st, op).Success?
    ensures op.filter.Some?
    ensures var f, was, t := op.filter.value, st.filters, ApplyOne(st, op).value;
            && t.(filters := was) == st
            && ((forall g :: g in was ==> g.name != f.name) ==> t.filters == was + [f])
            && (forall i: nat :: FirstNamed(was, f.name, i) ==> t.filters == was[i := f])
            && (UniqueNames(was) ==>
                  UniqueNames(t.filters) && forall g :: g in t.filters <==> g == f || (g in was && g.name != f.name))
  {
    var f, was := op.filter.value, st.filters;
    assert ApplyOne(st, op).value.filters == Upsert(was, f) by { hide Upsert; }
    hide Upsert, UniqueNames;
    if forall g :: g in was ==> g.name != f.name {
      UpsertNew(was, f);
    }
    forall i: nat | FirstNamed(was, f.name, i)
      ensures Upsert(was, f) == was[i := f]
    {
      UpsertAt(was, f, i);
    }
    if UniqueNames(was) {
      UniqueNamesKept(was, f, f.name);
    }
  }

  /** Operations take effect in the order given, the later on the result of the
      earlier, and the first that is refused refuses them all. */
  lemma {:induction false} OneAfterAnother(st: State, ops: seq<Operation>, op: Operation)
    ensures var before := ApplyOperations(st, ops);
            ApplyOperations(st, ops + [op]) == (if before.Failure? then before else ApplyOne(before.value, op)) &&
            ApplyOperations(st, []) == Success(st)
    decreases |ops|
  {
    hide ApplyOne;
    if ops == [] {
      assert ops + [op] == [op] && [op][1..] == [];
    } else {
      assert (ops + [op])[1..] == ops[1..] + [op] && (ops + [op])[0] == ops[0];
      if ApplyOne(st, ops[0]).Success? {
        OneAfterAnother(ApplyOne(st, ops[0]).value, ops[1..], op);
      }
    }
  }
}
