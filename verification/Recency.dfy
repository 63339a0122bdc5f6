/** What the idempotency cache stands for: its entries, most recently used first. */
module Recency {
  import opened Wrappers

  /** One remembered request: the key, the fingerprint of what was asked, and what
      was answered. */
  datatype Record<P, A> = Record(key: string, fp: string, plan: Option<P>, apply: Option<A>)

  datatype Hit<P, A> = Miss | Conflict | Found(r: Record<P, A>)

  function IndexOf<P, A>(s: seq<Record<P, A>>, key: string): (i: nat)
    ensures i <= |s| && (i < |s| ==> s[i].key == key)
    ensures forall j :: 0 <= j < i ==> s[j].key != key
  {
    if s == [] || s[0].key == key then 0 else 1 + IndexOf(s[1..], key)
  }

  predicate Has<P, A>(s: seq<Record<P, A>>, key: string) { IndexOf(s, key) < |s| }

  function Drop<T>(s: seq<T>, i: nat): seq<T>
    requires i < |s|
  {
    s[..i] + s[i + 1..]
  }

  function ToFront<T>(s: seq<T>, i: nat): seq<T>
    requires i < |s|
  {
    [s[i]] + Drop(s, i)
  }

  function Forget<P, A>(s: seq<Record<P, A>>, key: string): seq<Record<P, A>>
  {
    if Has(s, key) then Drop(s, IndexOf(s, key)) else s
  }

  /** Capacity eviction. */
  function Trim<T>(s: seq<T>, max: nat): seq<T> { if |s| > max then s[..max] else s }

  function Push<P, A>(s: seq<Record<P, A>>, max: nat, r: Record<P, A>): seq<Record<P, A>>
  {
    Trim([r] + Forget(s, r.key), max)
  }

  /** A hit moves its entry to the front; a fingerprint mismatch moves nothing. */
  function Lookup<P, A>(s: seq<Record<P, A>>, key: string, fp: string): (Hit<P, A>, seq<Record<P, A>>)
  {
    if key == "" || !Has(s, key) then (Miss, s)
    else
      var i := IndexOf(s, key);
      if s[i].fp != fp then (Conflict, s) else (Found(s[i]), ToFront(s, i))
  }

  lemma ConflictMovesNothing<P, A>(s: seq<Record<P, A>>, key: string, fp: string)
    ensures Lookup(s, key, fp).0.Conflict? ==> Lookup(s, key, fp).1 == s
  {
  }

  predicate Matches<P, A>(s: seq<Record<P, A>>, key: string, fp: string)
  {
    Has(s, key) && s[IndexOf(s, key)].fp == fp
  }

  function StorePlan<P, A>(s: seq<Record<P, A>>, max: nat, key: string, fp: string, p: P): seq<Record<P, A>>
  {
    if key == "" then s
    else if Matches(s, key, fp) then
      var i := IndexOf(s, key);
      ToFront(s[i := s[i].(plan := Some(p))], i)
    else Push(s, max, Record(key, fp, Some(p), None))
  }

  function StoreApply<P, A>(s: seq<Record<P, A>>, max: nat, key: string, fp: string, a: A): seq<Record<P, A>>
  {
    if key == "" then s
    else if Matches(s, key, fp) then
      var i := IndexOf(s, key);
      ToFront(s[i := s[i].(apply := Some(a))], i)
    else Push(s, max, Record(key, fp, None, Some(a)))
  }

  function Evict<P, A>(s: seq<Record<P, A>>, key: string): seq<Record<P, A>>
  {
    if key == "" then s else Forget(s, key)
  }

  // ----- distinct keys within the bound, over every run

  ghost predicate Distinct<P, A>(s: seq<Record<P, A>>) { forall i, j :: 0 <= i < j < |s| ==> s[i].key != s[j].key }

  ghost predicate Sound<P, A>(s: seq<Record<P, A>>, max: nat) { Distinct(s) && |s| <= max }

  lemma IndexIs<P, A>(s: seq<Record<P, A>>, i: nat)
    requires Distinct(s) && i < |s|
    ensures IndexOf(s, s[i].key) == i
  {
  }

  datatype Op<P, A> =
    | DoLookup(key: string, fp: string)
    | DoStorePlan(key: string, fp: string, p: P)
    | DoStoreApply(key: string, fp: string, a: A)
    | DoEvict(key: string)
    | DoClear

  function Step<P, A>(s: seq<Record<P, A>>, max: nat, op: Op<P, A>): seq<Record<P, A>>
  {
    match op
    case DoLookup(key, fp) => Lookup(s, key, fp).1
    case DoStorePlan(key, fp, p) => StorePlan(s, max, key, fp, p)
    case DoStoreApply(key, fp, a) => StoreApply(s, max, key, fp, a)
    case DoEvict(key) => Evict(s, key)
    case DoClear => []
  }

  function Run<P, A>(s: seq<Record<P, A>>, max: nat, ops: seq<Op<P, A>>): seq<Record<P, A>>
    decreases |ops|
  {
    if ops == [] then s else Run(Step(s, max, ops[0]), max, ops[1..])
  }

  lemma DropKeeps<P, A>(s: seq<Record<P, A>>, i: nat)
    requires Distinct(s) && i < |s|
    ensures Distinct(Drop(s, i)) && |Drop(s, i)| == |s| - 1
    ensures forall j :: 0 <= j < |Drop(s, i)| ==> Drop(s, i)[j].key != s[i].key
  {
  }

  lemma FrontKeeps<P, A>(s: seq<Record<P, A>>, i: nat, max: nat)
    requires Sound(s, max) && i < |s|
    ensures Sound(ToFront(s, i), max)
  {
  }

  lemma PushKeeps<P, A>(s: seq<Record<P, A>>, max: nat, r: Record<P, A>)
    requires Sound(s, max)
    ensures Sound(Push(s, max, r), max)
    ensures max > 0 ==> Push(s, max, r) != [] && Push(s, max, r)[0] == r
  {
  }

  lemma StepKeeps<P, A>(s: seq<Record<P, A>>, max: nat, op: Op<P, A>)
    requires Sound(s, max)
    ensures Sound(Step(s, max, op), max)
  {
    match op
    case DoLookup(key, fp) =>
      if Matches(s, key, fp) { FrontKeeps(s, IndexOf(s, key), max); }
    case DoStorePlan(key, fp, p) =>
      if Matches(s, key, fp) {
        var i := IndexOf(s, key);
        FrontKeeps(s[i := s[i].(plan := Some(p))], i, max);
      }
      PushKeeps(s, max, Record(key, fp, Some(p), None));
    case DoStoreApply(key, fp, a) =>
      if Matches(s, key, fp) {
        var i := IndexOf(s, key);
        FrontKeeps(s[i := s[i].(apply := Some(a))], i, max);
      }
      PushKeeps(s, max, Record(key, fp, None, Some(a)));
    case DoEvict(key) =>
      if Has(s, key) { DropKeeps(s, IndexOf(s, key)); }
    case DoClear =>
  }

  /** No run ever holds a key twice or more than max entries. */
  lemma {:induction false} RunKeeps<P, A>(s: seq<Record<P, A>>, max: nat, ops: seq<Op<P, A>>)
    requires Sound(s, max)
    ensures Sound(Run(s, max, ops), max)
    decreases |ops|
  {
    if ops != [] {
      StepKeeps(s, max, ops[0]);
      RunKeeps(Step(s, max, ops[0]), max, ops[1..]);
    }
  }

  // ----- eviction order

  /** A store puts its entry first, keeps every other key in order, and drops at
      most the one key that was last. */
  lemma StoreEvictsLast<P, A>(s: seq<Record<P, A>>, max: nat, r: Record<P, A>)
    requires Sound(s, max) && max > 0 && !Has(s, r.key)
    ensures Push(s, max, r) == if |s| < max then [r] + s else [r] + s[..|s| - 1]
  {
  }

  function KeyOf<P, A>(op: Op<P, A>): set<string> { if op.DoClear? then {} else {op.key} }

  function KeysOf<P, A>(ops: seq<Op<P, A>>): set<string>
  {
    if ops == [] then {} else KeyOf(ops[0]) + KeysOf(ops[1..])
  }

  /** The record sits at i and every entry in front of it was touched since. */
  ghost predicate Behind<P, A>(s: seq<Record<P, A>>, i: nat, r: Record<P, A>, touched: set<string>)
  {
    i < |s| && s[i] == r && forall j :: 0 <= j < i ==> s[j].key in touched
  }

  /** Distinct keys in front of a position number at most the keys touched. */
  lemma {:induction false} FrontIsTouched<P, A>(s: seq<Record<P, A>>, n: nat, touched: set<string>)
    requires Distinct(s) && n <= |s| && forall j :: 0 <= j < n ==> s[j].key in touched
    ensures n <= |touched|
  {
    if n > 0 {
      var k := s[n - 1].key;
      FrontIsTouched(s, n - 1, touched - {k});
      assert |touched| == |touched - {k}| + 1;
    }
  }

  lemma DropBehind<P, A>(s: seq<Record<P, A>>, k: nat, i: nat, r: Record<P, A>, touched: set<string>)
    requires Behind(s, i, r, touched) && k < |s| && k != i
    ensures Behind(Drop(s, k), if k < i then i - 1 else i, r, touched)
  {
  }

  lemma PushBehind<P, A>(s: seq<Record<P, A>>, max: nat, n: Record<P, A>, i: nat, r: Record<P, A>, touched: set<string>)
    returns (j: nat)
    requires Sound(s, max) && Behind(s, i, r, touched) && n.key != r.key && |touched + {n.key}| < max
    ensures Behind(Push(s, max, n), j, r, touched + {n.key})
  {
    j := i;
    if Has(s, n.key) {
      var k := IndexOf(s, n.key);
      DropBehind(s, k, i, r, touched);
      DropKeeps(s, k);
      j := if k < i then i - 1 else i;
    }
    var f := [n] + Forget(s, n.key);
    j := j + 1;
    FrontIsTouched(f, j, touched + {n.key});
  }

  lemma FrontBehind<P, A>(s: seq<Record<P, A>>, k: nat, i: nat, r: Record<P, A>, touched: set<string>) returns (j: nat)
    requires Distinct(s) && Behind(s, i, r, touched) && k < |s|
    ensures Behind(ToFront(s, k), j, r, touched + {s[k].key})
  {
    if k == i {
      j := 0;
    } else {
      DropBehind(s, k, i, r, touched);
      j := if k < i then i else i + 1;
    }
  }

  /** An operation that leaves the answer stored under key alone. */
  predicate Spares<P, A>(op: Op<P, A>, key: string, fp: string)
  {
    match op
    case DoLookup(_, _) => true
    case DoStorePlan(k, f, _) => k != key || f == fp
    case DoStoreApply(k, _, _) => k != key
    case DoEvict(k) => k != key
    case DoClear => false
  }

  /** The same request with the same stored outcome. */
  ghost predicate SameAnswer<P, A>(a: Record<P, A>, b: Record<P, A>)
  {
    a.key == b.key && a.fp == b.fp && a.apply == b.apply
  }

  lemma StepSpares<P, A>(s: seq<Record<P, A>>, max: nat, op: Op<P, A>, i: nat, r: Record<P, A>, touched: set<string>)
    returns (j: nat, q: Record<P, A>)
    requires Sound(s, max) && Behind(s, i, r, touched) && Spares(op, r.key, r.fp)
    requires |touched + KeyOf(op)| < max
    ensures Behind(Step(s, max, op), j, q, touched + KeyOf(op)) && SameAnswer(q, r)
  {
    IndexIs(s, i);
    j, q := i, r;
    match op {
      case DoLookup(k, f) =>
        if k != "" && Matches(s, k, f) {
          j := FrontBehind(s, IndexOf(s, k), i, r, touched);
        }
      case DoStorePlan(k, f, p) =>
        if k != "" {
          if Matches(s, k, f) {
            var x := IndexOf(s, k);
            var s1 := s[x := s[x].(plan := Some(p))];
            q := s1[i];
            j := FrontBehind(s1, x, i, q, touched);
          } else {
            j := PushBehind(s, max, Record(k, f, Some(p), None), i, r, touched);
          }
        }
      case DoStoreApply(k, f, a) =>
        if k != "" {
          if Matches(s, k, f) {
            var x := IndexOf(s, k);
            var s1 := s[x := s[x].(apply := Some(a))];
            j := FrontBehind(s1, x, i, r, touched);
          } else {
            j := PushBehind(s, max, Record(k, f, None, Some(a)), i, r, touched);
          }
        }
      case DoEvict(k) =>
        if k != "" && Has(s, k) {
          DropBehind(s, IndexOf(s, k), i, r, touched);
          j := if IndexOf(s, k) < i then i - 1 else i;
        }
    }
  }

  /** While fewer than max keys are in play, a stored answer cannot be lost by
      eviction: only evicting its key, storing over it or clearing removes it. */
  lemma {:induction false} FewKeysKeepAnswer<P, A>(
    s: seq<Record<P, A>>, max: nat, ops: seq<Op<P, A>>, i: nat, r: Record<P, A>, touched: set<string>)
    requires Sound(s, max) && Behind(s, i, r, touched)
    requires forall op :: op in ops ==> Spares(op, r.key, r.fp)
    requires |touched + KeysOf(ops)| < max
    ensures exists q :: q in Run(s, max, ops) && SameAnswer(q, r)
    decreases |ops|
  {
    if ops == [] {
      assert s[i] in Run(s, max, ops) && SameAnswer(s[i], r);
    } else {
      var more := touched + KeyOf(ops[0]);
      assert more + KeysOf(ops[1..]) == touched + KeysOf(ops);
      SubsetSize(more, touched + KeysOf(ops));
      var j, q := StepSpares(s, max, ops[0], i, r, touched);
      StepKeeps(s, max, ops[0]);
      FewKeysKeepAnswer(Step(s, max, ops[0]), max, ops[1..], j, q, more);
    }
  }
}
