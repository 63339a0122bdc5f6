/** internal/app/diff.go: the path-by-path difference of two JSON trees, as a patch. */
module JsonDiff {
  import opened Wrappers

  /** Numbers keep their literal text, as json.Number does. */
  datatype Json =
    | Null | Bool(b: bool) | Number(text: string) | Text(s: string)
    | Array(items: seq<Json>) | Object(fields: map<string, Json>)

  /** Paths are structured: a key may contain dots or brackets. */
  datatype Step = Key(key: string) | Index(index: nat)

  type Path = seq<Step>

  /** An addition has no before, a removal no after, a replacement both. */
  datatype Entry = Entry(path: Path, before: Option<Json>, after: Option<Json>)

  function Child(j: Json, s: Step): Option<Json>
  {
    match (j, s)
    case (Object(m), Key(k)) => if k in m then Some(m[k]) else None
    case (Array(a), Index(i)) => if i < |a| then Some(a[i]) else None
    case _ => None
  }

  function Steps(j: Json): set<Step>
  {
    match j
    case Object(m) => set k | k in m :: Key(k)
    case Array(a) => set i: nat | i < |a| :: Index(i)
    case _ => {}
  }

  predicate SameKind(a: Json, b: Json) { (a.Object? && b.Object?) || (a.Array? && b.Array?) }

  function Under(s: Step, e: Entry): Entry { e.(path := [s] + e.path) }

  function Content(j: Option<Json>): Json { if j.Some? then j.value else Null }

  /** The entries between two trees either of which may be absent. */
  ghost function Diff(before: Option<Json>, after: Option<Json>): set<Entry>
    decreases before.Some?, Content(before)
  {
    if before == after then {}
    else if before.Some? && after.Some? && SameKind(before.value, after.value) then
      set s, e | s in Steps(before.value) + Steps(after.value) &&
                 e in Diff(Child(before.value, s), Child(after.value, s)) :: Under(s, e)
    else {Entry([], before, after)}
  }

  // ----- trees are their children

  lemma StepsAreChildren(j: Json, s: Step)
    ensures s in Steps(j) <==> Child(j, s).Some?
  {
  }

  lemma ChildrenDecide(a: Json, b: Json)
    requires SameKind(a, b) && forall s :: Child(a, s) == Child(b, s)
    ensures a == b
  {
    if a.Object? {
      forall k
        ensures k in a.fields <==> k in b.fields
        ensures k in a.fields ==> a.fields[k] == b.fields[k]
      {
        assert Child(a, Key(k)) == Child(b, Key(k));
      }
      assert a.fields == b.fields;
    } else {
      assert Child(a, Index(|a.items|)) == Child(b, Index(|a.items|));
      assert Child(a, Index(|b.items|)) == Child(b, Index(|b.items|));
      forall i: nat | i < |a.items|
        ensures a.items[i] == b.items[i]
      {
        assert Child(a, Index(i)) == Child(b, Index(i));
      }
      assert a.items == b.items;
    }
  }

  lemma DiffOfContainers(b: Json, a: Json)
    requires SameKind(b, a)
    ensures forall e :: e in Diff(Some(b), Some(a)) <==>
              e.path != [] && e.(path := e.path[1..]) in Diff(Child(b, e.path[0]), Child(a, e.path[0]))
  {
    forall e
      ensures e in Diff(Some(b), Some(a)) <==>
              e.path != [] && e.(path := e.path[1..]) in Diff(Child(b, e.path[0]), Child(a, e.path[0]))
    {
      if e.path != [] {
        var s, tail := e.path[0], e.(path := e.path[1..]);
        StepsAreChildren(b, s);
        StepsAreChildren(a, s);
        assert Under(s, tail) == e;
      }
      if e in Diff(Some(b), Some(a)) {
        var s, d :| s in Steps(b) + Steps(a) && d in Diff(Child(b, s), Child(a, s)) && Under(s, d) == e;
        assert e.path[1..] == d.path;
      }
    }
  }

  // ----- the entries are true, and only where the trees differ

  function Lookup(j: Option<Json>, p: Path): Option<Json>
    decreases |p|
  {
    if p == [] then j else if j.None? then None else Lookup(Child(j.value, p[0]), p[1..])
  }

  /** Every entry reports what really lies at its path on either side, and the
      two sides differ there. */
  lemma {:induction false} EntriesAreTrue(before: Option<Json>, after: Option<Json>, e: Entry)
    requires e in Diff(before, after)
    ensures e.before == Lookup(before, e.path) && e.after == Lookup(after, e.path) && e.before != e.after
    decreases |e.path|
  {
    if before.Some? && after.Some? && SameKind(before.value, after.value) {
      DiffOfContainers(before.value, after.value);
      var s := e.path[0];
      EntriesAreTrue(Child(before.value, s), Child(after.value, s), e.(path := e.path[1..]));
    }
  }

  /** No entry lies at or below the path of another. */
  lemma {:induction false} PrefixFree(before: Option<Json>, after: Option<Json>, d: Entry, e: Entry)
    requires d in Diff(before, after) && e in Diff(before, after) && d.path <= e.path
    ensures d == e
    decreases |e.path|
  {
    if before.Some? && after.Some? && SameKind(before.value, after.value) {
      DiffOfContainers(before.value, after.value);
      var s := e.path[0];
      assert d.path[0] == s;
      PrefixFree(Child(before.value, s), Child(after.value, s), d.(path := d.path[1..]), e.(path := e.path[1..]));
      assert d.path == [s] + d.path[1..] && e.path == [s] + e.path[1..];
    }
  }

  /** There is nothing to report exactly when the trees are equal. */
  lemma {:induction false} EmptyIffEqual(before: Option<Json>, after: Option<Json>)
    ensures Diff(before, after) == {} <==> before == after
    decreases before.Some?, Content(before)
  {
    if before != after && before.Some? && after.Some? && SameKind(before.value, after.value) {
      var b, a := before.value, after.value;
      if forall s :: Child(b, s) == Child(a, s) {
        ChildrenDecide(b, a);
      }
      var s :| Child(b, s) != Child(a, s);
      EmptyIffEqual(Child(b, s), Child(a, s));
      var e :| e in Diff(Child(b, s), Child(a, s));
      DiffOfContainers(b, a);
      assert Under(s, e).path[1..] == e.path;
      assert Under(s, e) in Diff(before, after);
    }
  }

  // ----- patching

  /** A tree whose arrays may have gaps, as they do half-way through a patch. */
  datatype Tree = Leaf(value: Json) | Node(keyed: bool, children: map<Step, Tree>)

  function Embed(j: Json): Tree
  {
    if j.Object? || j.Array? then
      Node(j.Object?, map s | s in Steps(j) && Child(j, s).Some? :: Embed(Child(j, s).value))
    else Leaf(j)
  }

  function EmbedOpt(j: Option<Json>): Option<Tree> { if j.None? then None else Some(Embed(j.value)) }

  function Get(m: map<Step, Tree>, s: Step): Option<Tree> { if s in m then Some(m[s]) else None }

  function Put(m: map<Step, Tree>, s: Step, t: Option<Tree>): map<Step, Tree>
  {
    if t.None? then m - {s} else m[s := t.value]
  }

  /** One entry applied: set or remove what lies at the path. */
  function Patch(t: Option<Tree>, path: Path, after: Option<Json>): Option<Tree>
    decreases |path|
  {
    if path == [] then EmbedOpt(after)
    else if t.Some? && t.value.Node? then
      Some(t.value.(children := Put(t.value.children, path[0],
                                    Patch(Get(t.value.children, path[0]), path[1..], after))))
    else t
  }

  function PatchAll(t: Option<Tree>, es: seq<Entry>): Option<Tree>
    decreases |es|
  {
    if es == [] then t else PatchAll(Patch(t, es[0].path, es[0].after), es[1..])
  }

  /** The entries below one child, seen from there. */
  function Project(es: seq<Entry>, s: Step): seq<Entry>
  {
    if es == [] then []
    else
      (if es[0].path != [] && es[0].path[0] == s then [es[0].(path := es[0].path[1..])] else []) + Project(es[1..], s)
  }

  ghost predicate NoDuplicates(es: seq<Entry>) { forall i, j :: 0 <= i < j < |es| ==> es[i] != es[j] }

  lemma {:induction false} ProjectMembers(es: seq<Entry>, s: Step)
    ensures forall e :: e in Project(es, s) <==> Under(s, e) in es
    decreases |es|
  {
    if es != [] {
      ProjectMembers(es[1..], s);
      assert es == [es[0]] + es[1..];
      if es[0].path != [] && es[0].path[0] == s {
        var head := es[0].(path := es[0].path[1..]);
        assert Under(s, head) == es[0];
        assert forall e :: Under(s, e) == es[0] ==> e.path == es[0].path[1..];
      }
    }
  }

  lemma {:induction false} ProjectHolds(es: seq<Entry>, s: Step)
    ensures forall e :: e in Project(es, s) <==> Under(s, e) in es
    ensures NoDuplicates(es) ==> NoDuplicates(Project(es, s))
    decreases |es|
  {
    ProjectMembers(es, s);
    if es != [] && NoDuplicates(es) {
      var rest := es[1..];
      assert forall i :: 0 <= i < |rest| ==> rest[i] == es[i + 1];
      assert es[0] !in rest;
      ProjectHolds(rest, s);
      if es[0].path != [] && es[0].path[0] == s {
        var head := es[0].(path := es[0].path[1..]);
        assert Under(s, head) == es[0] && head !in Project(rest, s);
      }
    }
  }

  /** Patching a node patches each child with the entries meant for it. */
  lemma {:induction false} PatchChildren(t: Tree, es: seq<Entry>)
    requires t.Node? && forall e :: e in es ==> e.path != []
    ensures var r := PatchAll(Some(t), es);
            r.Some? && r.value.Node? && r.value.keyed == t.keyed &&
            forall s :: Get(r.value.children, s) == PatchAll(Get(t.children, s), Project(es, s))
    decreases |es|
  {
    if es != [] {
      var e := es[0];
      var t1 := Patch(Some(t), e.path, e.after).value;
      PatchChildren(t1, es[1..]);
      forall s
        ensures PatchAll(Get(t1.children, s), Project(es[1..], s)) == PatchAll(Get(t.children, s), Project(es, s))
      {
        if s == e.path[0] {
          var head := e.(path := e.path[1..]);
          assert Project(es, s) == [head] + Project(es[1..], s);
          assert Project(es, s)[1..] == Project(es[1..], s);
        } else {
          assert Project(es, s) == Project(es[1..], s);
        }
      }
    }
  }

  lemma EmbeddedChild(j: Json, s: Step)
    requires j.Object? || j.Array?
    ensures Get(Embed(j).children, s) == EmbedOpt(Child(j, s))
  {
  }

  lemma SameChildren(m: map<Step, Tree>, n: map<Step, Tree>)
    requires forall s :: Get(m, s) == Get(n, s)
    ensures m == n
  {
    forall s
      ensures s in m <==> s in n
      ensures s in m ==> m[s] == n[s]
    {
      assert Get(m, s) == Get(n, s);
    }
  }

  /** Applying the entries of a difference to the before tree, one by one and in
      any order, gives exactly the after tree. */
  lemma {:induction false} PatchYieldsAfter(before: Option<Json>, after: Option<Json>, es: seq<Entry>)
    requires NoDuplicates(es) && forall e :: e in es <==> e in Diff(before, after)
    ensures PatchAll(EmbedOpt(before), es) == EmbedOpt(after)
    decreases before.Some?, Content(before)
  {
    EmptyIffEqual(before, after);
    if before == after {
      if es != [] {
        FirstInside(es);
      }
    } else if before.Some? && after.Some? && SameKind(before.value, after.value) {
      var b, a := before.value, after.value;
      hide PatchAll, EmbedOpt, Diff, SameKind, Project;
      forall s
        ensures ChildPatched(b, a, es, s)
      {
        ProjectIsDiff(b, a, es, s);
        PatchYieldsAfter(Child(b, s), Child(a, s), Project(es, s));
      }
      ContainerPatched(b, a, es);
    } else {
      OnlyEntry(es, Entry([], before, after));
    }
  }

  ghost predicate ChildPatched(b: Json, a: Json, es: seq<Entry>, s: Step)
  {
    PatchAll(EmbedOpt(Child(b, s)), Project(es, s)) == EmbedOpt(Child(a, s))
  }

  /** A container whose children are patched is patched. */
  lemma {:induction false} ContainerPatched(b: Json, a: Json, es: seq<Entry>)
    requires b != a && SameKind(b, a) && NoDuplicates(es) && forall e :: e in es <==> e in Diff(Some(b), Some(a))
    requires forall s :: ChildPatched(b, a, es, s)
    ensures PatchAll(EmbedOpt(Some(b)), es) == EmbedOpt(Some(a))
  {
    DiffOfContainers(b, a);
    PatchChildren(Embed(b), es);
    var r := PatchAll(Some(Embed(b)), es).value;
    forall s
      ensures Get(r.children, s) == Get(Embed(a).children, s)
    {
      EmbeddedChild(b, s);
      EmbeddedChild(a, s);
      assert ChildPatched(b, a, es, s);
    }
    SameChildren(r.children, Embed(a).children);
  }

  /** The entries under one child are the difference of the two children. */
  lemma {:induction false} ProjectIsDiff(b: Json, a: Json, es: seq<Entry>, s: Step)
    requires b != a && SameKind(b, a) && NoDuplicates(es) && forall e :: e in es <==> e in Diff(Some(b), Some(a))
    ensures NoDuplicates(Project(es, s)) && forall e :: e in Project(es, s) <==> e in Diff(Child(b, s), Child(a, s))
  {
    DiffOfContainers(b, a);
    ProjectHolds(es, s);
    forall e
      ensures e in Project(es, s) <==> e in Diff(Child(b, s), Child(a, s))
    {
      assert Under(s, e).path[0] == s && Under(s, e).path[1..] == e.path;
    }
  }

  lemma OnlyEntry(es: seq<Entry>, e: Entry)
    requires NoDuplicates(es) && forall d :: d in es <==> d == e
    ensures es == [e]
  {
    assert e in es;
    assert forall j :: 0 <= j < |es| ==> es[j] in es;
    if |es| > 1 {
      Distinct(es, 0, 1);
    }
  }

  lemma Distinct(es: seq<Entry>, i: nat, j: nat)
    requires NoDuplicates(es) && i < j < |es|
    ensures es[i] != es[j]
  {
  }

  lemma FirstInside(es: seq<Entry>)
    requires es != []
    ensures es[0] in es
  {
  }

  lemma NoDuplicatesJoin(es: seq<Entry>, more: seq<Entry>)
    requires NoDuplicates(es) && NoDuplicates(more) && forall e :: e in es ==> e !in more
    ensures NoDuplicates(es + more)
  {
    forall i, j | 0 <= i < j < |es + more|
      ensures (es + more)[i] != (es + more)[j]
    {
      if i < |es| && j >= |es| {
        assert es[i] in es && more[j - |es|] in more;
      }
    }
  }

  // ----- the walk itself

  /** The entry is one of es, seen from a root that lies path above. */
  ghost predicate InAt(path: Path, es: set<Entry>, e: Entry)
  {
    path <= e.path && e.(path := e.path[|path|..]) in es
  }

  lemma InAtRoot(path: Path, e: Entry, b: Option<Json>, a: Option<Json>)
    ensures InAt(path, {Entry([], b, a)}, e) <==> e == Entry(path, b, a)
  {
    if path <= e.path && e.path[|path|..] == [] {
      assert e.path == path;
    }
  }

  ghost predicate Reported(b: Json, a: Json, path: Path, s: Step, e: Entry)
  {
    InAt(path + [s], Diff(Child(b, s), Child(a, s)), e)
  }

  lemma ReportedOnce(b: Json, a: Json, path: Path, s: Step, t: Step, e: Entry)
    requires Reported(b, a, path, s, e) && Reported(b, a, path, t, e)
    ensures s == t
  {
    assert e.path[|path|] == s;
    assert e.path[|path|] == t;
  }

  lemma ReportedInAll(b: Json, a: Json, path: Path, e: Entry)
    requires SameKind(b, a)
    ensures InAt(path, Diff(Some(b), Some(a)), e) <==>
            exists s :: s in Steps(b) + Steps(a) && Reported(b, a, path, s, e)
  {
    DiffOfContainers(b, a);
    hide Diff;
    if path <= e.path && |path| < |e.path| {
      var s := e.path[|path|];
      StepsAreChildren(b, s);
      StepsAreChildren(a, s);
      assert e.path[|path|..][1..] == e.path[|path + [s]|..];
      assert path + [s] <= e.path;
      AbsentTwice(b, a, s);
      assert Reported(b, a, path, s, e) ==> s in Steps(b) + Steps(a);
    }
  }

  lemma AbsentTwice(b: Json, a: Json, s: Step)
    ensures Diff(Child(b, s), Child(a, s)) != {} ==> s in Steps(b) + Steps(a)
  {
  }

  /** What a walk below path has appended once it is done with some steps. */
  ghost predicate Progress(b: Json, a: Json, path: Path, done: set<Step>, es: seq<Entry>)
  {
    NoDuplicates(es) && forall e :: e in es <==> exists s :: s in done && Reported(b, a, path, s, e)
  }

  lemma ProgressStep(b: Json, a: Json, path: Path, done: set<Step>, es: seq<Entry>, s: Step, more: seq<Entry>)
    requires Progress(b, a, path, done, es) && s !in done
    requires NoDuplicates(more) && forall e :: e in more <==> Reported(b, a, path, s, e)
    ensures Progress(b, a, path, done + {s}, es + more)
  {
    forall d, e | d in es && e in more
      ensures d != e
    {
      var t :| t in done && Reported(b, a, path, t, d);
      if d == e {
        ReportedOnce(b, a, path, s, t, e);
      }
    }
    NoDuplicatesJoin(es, more);
  }

  /** Appends to out, once each, the entries of the difference. The order in which
      an object's keys are taken is left open. */
  method WalkDiff(before: Json, after: Json, path: Path, out: seq<Entry>) returns (r: seq<Entry>)
    decreases before
    ensures out <= r && NoDuplicates(r[|out|..])
    ensures forall e :: e in r[|out|..] <==> InAt(path, Diff(Some(before), Some(after)), e)
  {
    r := out;
    if before == after {
      return;
    }
    ghost var es: seq<Entry> := [];
    if before.Object? && after.Object? {
      var todo := before.fields.Keys + after.fields.Keys;
      ghost var done: set<Step> := {};
      while todo != {}
        invariant r == out + es
        invariant done !! (set k | k in todo :: Key(k))
        invariant done + (set k | k in todo :: Key(k)) == Steps(before) + Steps(after)
        invariant Progress(before, after, path, done, es)
        decreases todo
      {
        var k :| k in todo;
        ghost var was := r;
        r := WalkStep(before, after, path, Key(k), r);
        ProgressStep(before, after, path, done, es, Key(k), r[|was|..]);
        es, done, todo := es + r[|was|..], done + {Key(k)}, todo - {k};
      }
      forall e { ReportedInAll(before, after, path, e); }
    } else if before.Array? && after.Array? {
      var n := if |after.items| > |before.items| then |after.items| else |before.items|;
      ghost var done: set<Step> := {};
      for i := 0 to n
        invariant r == out + es
        invariant done == set k: nat | k < i :: Index(k)
        invariant Progress(before, after, path, done, es)
      {
        ghost var was := r;
        r := WalkStep(before, after, path, Index(i), r);
        ProgressStep(before, after, path, done, es, Index(i), r[|was|..]);
        es, done := es + r[|was|..], done + {Index(i)};
      }
      assert done == Steps(before) + Steps(after);
      forall e { ReportedInAll(before, after, path, e); }
    } else {
      es := [Entry(path, Some(before), Some(after))];
      r := out + [Entry(path, Some(before), Some(after))];
      forall e { InAtRoot(path, e, Some(before), Some(after)); }
    }
    assert r[|out|..] == es;
  }

  /** The three-way switch on one key or index. */
  method WalkStep(before: Json, after: Json, path: Path, s: Step, out: seq<Entry>) returns (r: seq<Entry>)
    requires s in Steps(before) + Steps(after)
    decreases before, 0
    ensures out <= r && NoDuplicates(r[|out|..])
    ensures forall e :: e in r[|out|..] <==> Reported(before, after, path, s, e)
  {
    StepsAreChildren(before, s);
    StepsAreChildren(after, s);
    var b, a := Child(before, s), Child(after, s);
    if b.None? || a.None? {
      r := out + [Entry(path + [s], b, a)];
      assert r[|out|..] == [Entry(path + [s], b, a)];
      forall e { InAtRoot(path + [s], e, b, a); }
    } else {
      ChildSmaller(before, s);
      r := WalkDiff(b.value, a.value, path + [s], out);
    }
  }

  lemma ChildSmaller(j: Json, s: Step)
    requires Child(j, s).Some?
    ensures Child(j, s).value < j
  {
  }
}
