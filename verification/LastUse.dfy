/** The idempotency cache without any order: a table in which every use of a key is
    stamped with its number, and room is made by dropping the key used longest ago. */
module LastUse {
  import opened Wrappers
  import opened Recency

  /** What was asked, what was answered, and the number of the last use. */
  datatype Stamp<P, A> = Stamp(fp: string, plan: Option<P>, apply: Option<A>, used: nat)

  type Table<P, A> = map<string, Stamp<P, A>>

  /** The key used longest ago. */
  ghost predicate Stalest<P, A>(m: Table<P, A>, key: string)
  {
    key in m && forall k :: k in m ==> m[key].used <= m[k].used
  }

  /** Room for one more entry is made at the cost of a key used longest ago. */
  ghost function MadeRoom<P, A>(m: Table<P, A>, max: nat): Table<P, A>
  {
    if |m| <= max || !exists k :: Stalest(m, k) then m
    else
      var k :| Stalest(m, k);
      m - {k}
  }

  /** One operation, the n-th. A lookup uses a key if it finds it with its fingerprint;
      a store always does, and starts the entry afresh for another fingerprint. */
  ghost function Next<P, A>(m: Table<P, A>, max: nat, n: nat, op: Op<P, A>): Table<P, A>
  {
    match op
    case DoLookup(key, fp) => if key != "" && Asked(m, key, fp) then m[key := m[key].(used := n)] else m
    case DoStorePlan(key, fp, p) =>
      if key == "" then m
      else if Asked(m, key, fp) then m[key := m[key].(plan := Some(p), used := n)]
      else MadeRoom(m[key := Stamp(fp, Some(p), None, n)], max)
    case DoStoreApply(key, fp, a) =>
      if key == "" then m
      else if Asked(m, key, fp) then m[key := m[key].(apply := Some(a), used := n)]
      else MadeRoom(m[key := Stamp(fp, None, Some(a), n)], max)
    case DoEvict(key) => if key == "" then m else m - {key}
    case DoClear => map[]
  }

  predicate Asked<P, A>(m: Table<P, A>, key: string, fp: string) { key in m && m[key].fp == fp }

  /** The table after a run, its operations numbered from n. */
  ghost function After<P, A>(m: Table<P, A>, max: nat, n: nat, ops: seq<Op<P, A>>): Table<P, A>
    decreases |ops|
  {
    if ops == [] then m else After(Next(m, max, n, ops[0]), max, n + 1, ops[1..])
  }

  /** What the table answers. */
  function Answer<P, A>(m: Table<P, A>, key: string, fp: string): Hit<P, A>
  {
    if key == "" || key !in m then Miss
    else if m[key].fp != fp then Conflict
    else Found(Record(key, fp, m[key].plan, m[key].apply))
  }

  // ----- a list of entries in order of last use

  /** The list holds exactly the entries of the table, the one used last first. */
  ghost predicate InOrder<P, A>(s: seq<Record<P, A>>, m: Table<P, A>, n: nat)
  {
    AllStand(s, m, n) && Covers(s, m) && Descends(s, m, n)
  }

  ghost predicate Stands<P, A>(r: Record<P, A>, m: Table<P, A>, n: nat)
  {
    r.key in m && m[r.key].fp == r.fp && m[r.key].plan == r.plan && m[r.key].apply == r.apply && m[r.key].used < n
  }

  ghost predicate AllStand<P, A>(s: seq<Record<P, A>>, m: Table<P, A>, n: nat)
  {
    forall i :: 0 <= i < |s| ==> Stands(s[i], m, n)
  }

  ghost predicate Covers<P, A>(s: seq<Record<P, A>>, m: Table<P, A>) { forall k :: k in m ==> Has(s, k) }

  ghost predicate Descends<P, A>(s: seq<Record<P, A>>, m: Table<P, A>, n: nat)
    requires AllStand(s, m, n)
  {
    forall i, j :: 0 <= i < j < |s| ==> m[s[i].key].used > m[s[j].key].used
  }

  lemma OrderIsDistinct<P, A>(s: seq<Record<P, A>>, m: Table<P, A>, n: nat)
    requires InOrder(s, m, n)
    ensures Distinct(s)
  {
  }

  /** Where the entry of a key stands, if the table has one. */
  lemma Standing<P, A>(s: seq<Record<P, A>>, m: Table<P, A>, n: nat, key: string)
    requires InOrder(s, m, n)
    ensures Has(s, key) <==> key in m
    ensures key in m ==> Stands(s[IndexOf(s, key)], m, n) && s[IndexOf(s, key)].key == key
  {
    if Has(s, key) {
      assert Stands(s[IndexOf(s, key)], m, n);
    }
  }

  lemma {:induction false} CountOrder<P, A>(s: seq<Record<P, A>>, m: Table<P, A>, n: nat)
    requires InOrder(s, m, n)
    ensures |s| == |m|
  {
    hide InOrder;
    if s == [] {
      assert m.Keys == {} by {
        forall k | k in m
          ensures false
        {
          Standing(s, m, n, k);
        }
      }
      assert m == map[];
    } else {
      var key := s[0].key;
      assert key in m by { Standing(s, m, n, key); }
      OneDropped(s, m, n, 0);
      CountOrder(Drop(s, 0), m - {key}, n);
      assert m.Keys == (m - {key}).Keys + {key};
      assert |m.Keys| == |(m - {key}).Keys| + 1;
    }
  }

  // ----- one operation on both

  lemma FrontCovers<P, A>(rest: seq<Record<P, A>>, m: Table<P, A>, r: Record<P, A>, st: Stamp<P, A>)
    requires Covers(rest, m - {r.key})
    ensures Covers([r] + rest, m[r.key := st])
  {
    forall k | k in m[r.key := st]
      ensures Has([r] + rest, k)
    {
      if k == r.key {
        assert ([r] + rest)[0].key == k;
      } else {
        assert k in m - {r.key} && Has(rest, k);
        assert ([r] + rest)[1 + IndexOf(rest, k)].key == k;
      }
    }
  }

  /** The entry is used: it comes first, as it is now, and the others keep their order. */
  lemma UsedFirst<P, A>(m: Table<P, A>, n: nat, rest: seq<Record<P, A>>, r: Record<P, A>)
    requires InOrder(rest, m - {r.key}, n)
    ensures InOrder([r] + rest, m[r.key := Stamp(r.fp, r.plan, r.apply, n)], n + 1)
  {
    var m' := m[r.key := Stamp(r.fp, r.plan, r.apply, n)];
    FrontCovers(rest, m, r, m'[r.key]);
    hide Covers;
    forall i | 0 <= i < |[r] + rest|
      ensures Stands(([r] + rest)[i], m', n + 1)
    {
      if i > 0 {
        assert Stands(rest[i - 1], m - {r.key}, n);
      }
    }
  }

  lemma DropCovers<P, A>(s: seq<Record<P, A>>, m: Table<P, A>, i: nat)
    requires Covers(s, m) && i < |s|
    ensures Covers(Drop(s, i), m - {s[i].key})
  {
    forall k | k in m - {s[i].key}
      ensures Has(Drop(s, i), k)
    {
      var j := IndexOf(s, k);
      assert Drop(s, i)[if j < i then j else j - 1].key == k;
    }
  }

  /** An entry is gone, and the others keep their order. */
  lemma OneDropped<P, A>(s: seq<Record<P, A>>, m: Table<P, A>, n: nat, i: nat)
    requires InOrder(s, m, n) && i < |s|
    ensures InOrder(Drop(s, i), m - {s[i].key}, n)
  {
    var t, m' := Drop(s, i), m - {s[i].key};
    OrderIsDistinct(s, m, n);
    DropCovers(s, m, i);
    hide Covers;
    forall j | 0 <= j < |t|
      ensures Stands(t[j], m', n)
    {
      assert Stands(s[if j < i then j else j + 1], m, n);
    }
  }

  lemma ForgottenInOrder<P, A>(s: seq<Record<P, A>>, m: Table<P, A>, n: nat, key: string)
    requires InOrder(s, m, n)
    ensures InOrder(Forget(s, key), m - {key}, n)
  {
    Standing(s, m, n, key);
    if Has(s, key) {
      OneDropped(s, m, n, IndexOf(s, key));
    } else {
      assert m - {key} == m;
    }
  }

  lemma LaterInOrder<P, A>(s: seq<Record<P, A>>, m: Table<P, A>, n: nat)
    requires InOrder(s, m, n)
    ensures InOrder(s, m, n + 1)
  {
  }

  /** Cutting the list to size drops the key used longest ago. */
  lemma TrimmedInOrder<P, A>(s: seq<Record<P, A>>, m: Table<P, A>, max: nat, n: nat)
    requires InOrder(s, m, n) && |s| <= max + 1
    ensures InOrder(Trim(s, max), MadeRoom(m, max), n)
  {
    CountOrder(s, m, n);
    hide InOrder;
    if |s| == max + 1 {
      LastIsStalest(s, m, n);
      RoomMade(m, max, s[max].key);
      OneDropped(s, m, n, max);
      assert Trim(s, max) == Drop(s, max);
    }
  }

  lemma RoomMade<P, A>(m: Table<P, A>, max: nat, last: string)
    requires |m| > max && forall k :: Stalest(m, k) <==> k == last
    ensures MadeRoom(m, max) == m - {last}
  {
    assert Stalest(m, last);
  }

  lemma LastIsStalest<P, A>(s: seq<Record<P, A>>, m: Table<P, A>, n: nat)
    requires InOrder(s, m, n) && s != []
    ensures forall k :: Stalest(m, k) <==> k == s[|s| - 1].key
  {
    var last := s[|s| - 1].key;
    forall k | k in m
      ensures m[last].used <= m[k].used && (k != last ==> m[last].used < m[k].used)
    {
      Standing(s, m, n, k);
    }
  }

  lemma PushedInOrder<P, A>(s: seq<Record<P, A>>, m: Table<P, A>, max: nat, n: nat, r: Record<P, A>)
    requires InOrder(s, m, n) && |s| <= max
    ensures InOrder(Push(s, max, r), MadeRoom(m[r.key := Stamp(r.fp, r.plan, r.apply, n)], max), n + 1)
  {
    var rest := Forget(s, r.key);
    ForgottenInOrder(s, m, n, r.key);
    UsedFirst(m, n, rest, r);
    TrimmedInOrder([r] + rest, m[r.key := Stamp(r.fp, r.plan, r.apply, n)], max, n + 1);
  }

  lemma RefreshedInOrder<P, A>(s: seq<Record<P, A>>, m: Table<P, A>, n: nat, i: nat, r: Record<P, A>)
    requires InOrder(s, m, n) && i < |s| && r.key == s[i].key
    ensures InOrder(ToFront(s[i := r], i), m[r.key := Stamp(r.fp, r.plan, r.apply, n)], n + 1)
  {
    OneDropped(s, m, n, i);
    assert Drop(s[i := r], i) == Drop(s, i);
    UsedFirst(m, n, Drop(s, i), r);
  }

  /** Whatever is done to the cache, its entries stay exactly those of the table, in
      order of last use, and it answers as the table does. */
  lemma StepInOrder<P, A>(s: seq<Record<P, A>>, m: Table<P, A>, max: nat, n: nat, op: Op<P, A>)
    requires InOrder(s, m, n) && |s| <= max
    ensures InOrder(Step(s, max, op), Next(m, max, n, op), n + 1) && |Step(s, max, op)| <= max
    ensures op.DoLookup? ==> Lookup(s, op.key, op.fp).0 == Answer(m, op.key, op.fp)
  {
    OrderIsDistinct(s, m, n);
    StepKeeps(s, max, op);
    LaterInOrder(s, m, n);
    if !op.DoClear? {
      Standing(s, m, n, op.key);
    }
    hide InOrder, Push, MadeRoom, ToFront;
    match op {
      case DoLookup(k, f) =>
        if k != "" && Asked(m, k, f) {
          var i := IndexOf(s, k);
          assert s[i := s[i]] == s;
          RefreshedInOrder(s, m, n, i, s[i]);
        }
      case DoStorePlan(k, f, p) =>
        if k != "" {
          if Asked(m, k, f) {
            var i := IndexOf(s, k);
            RefreshedInOrder(s, m, n, i, s[i].(plan := Some(p)));
          } else {
            PushedInOrder(s, m, max, n, Record(k, f, Some(p), None));
          }
        }
      case DoStoreApply(k, f, a) =>
        if k != "" {
          if Asked(m, k, f) {
            var i := IndexOf(s, k);
            RefreshedInOrder(s, m, n, i, s[i].(apply := Some(a)));
          } else {
            PushedInOrder(s, m, max, n, Record(k, f, None, Some(a)));
          }
        }
      case DoEvict(k) =>
        ForgottenInOrder(s, m, n, k);
        LaterInOrder(Forget(s, k), m - {k}, n);
      case DoClear =>
        NothingInOrder<P, A>(n + 1);
    }
  }

  lemma NothingInOrder<P, A>(n: nat)
    ensures InOrder<P, A>([], map[], n)
  {
  }

  /** So after every run, from the empty cache or any that stands so. */
  lemma {:induction false} RunInOrder<P, A>(s: seq<Record<P, A>>, m: Table<P, A>, max: nat, n: nat, ops: seq<Op<P, A>>)
    requires InOrder(s, m, n) && |s| <= max
    ensures InOrder(Run(s, max, ops), After(m, max, n, ops), n + |ops|) && |Run(s, max, ops)| <= max
    decreases |ops|
  {
    hide InOrder, Step, Next;
    if ops != [] {
      StepInOrder(s, m, max, n, ops[0]);
      RunInOrder(Step(s, max, ops[0]), Next(m, max, n, ops[0]), max, n + 1, ops[1..]);
    }
  }

  /** The cache answers every lookup after every run as the table does, and its entries
      stand in the order in which their keys were used last. */
  lemma AnswersAsTable<P, A>(max: nat, ops: seq<Op<P, A>>, key: string, fp: string)
    ensures var s, m := Run<P, A>([], max, ops), After<P, A>(map[], max, 0, ops);
            Lookup(s, key, fp).0 == Answer(m, key, fp) && |m| == |s| <= max &&
            (forall k :: k in m <==> Has(s, k)) &&
            forall i, j :: 0 <= i < j < |s| ==> s[i].key in m && s[j].key in m && m[s[i].key].used > m[s[j].key].used
  {
    var s, m := Run<P, A>([], max, ops), After<P, A>(map[], max, 0, ops);
    hide Run, After, Lookup, Answer, Next;
    FromNothing<P, A>(max, ops);
    CountOrder(s, m, |ops|);
    StepInOrder(s, m, max, |ops|, DoLookup(key, fp));
    forall k
      ensures k in m <==> Has(s, k)
    {
      Standing(s, m, |ops|, k);
    }
    OrderMeans(s, m, |ops|);
    hide InOrder;
  }

  lemma OrderMeans<P, A>(s: seq<Record<P, A>>, m: Table<P, A>, n: nat)
    requires InOrder(s, m, n)
    ensures forall i, j :: 0 <= i < j < |s| ==> s[i].key in m && s[j].key in m && m[s[i].key].used > m[s[j].key].used
  {
    forall i, j | 0 <= i < j < |s|
      ensures s[i].key in m && s[j].key in m && m[s[i].key].used > m[s[j].key].used
    {
      assert Stands(s[i], m, n) && Stands(s[j], m, n);
    }
  }

  lemma FromNothing<P, A>(max: nat, ops: seq<Op<P, A>>)
    ensures InOrder(Run<P, A>([], max, ops), After<P, A>(map[], max, 0, ops), |ops|)
    ensures |Run<P, A>([], max, ops)| <= max
  {
    NothingInOrder<P, A>(0);
    RunInOrder<P, A>([], map[], max, 0, ops);
  }

  /** A new key in a full cache costs exactly the key used longest ago. */
  lemma NewKeyCostsStalest<P, A>(max: nat, ops: seq<Op<P, A>>, r: Record<P, A>, k: string)
    requires var m := After<P, A>(map[], max, 0, ops); |m| == max > 0 && r.key !in m
    ensures var m := After<P, A>(map[], max, 0, ops);
            Has(Push(Run<P, A>([], max, ops), max, r), k) <==> k == r.key || (k in m && !Stalest(m, k))
  {
    FromNothing<P, A>(max, ops);
    var s, m := Run<P, A>([], max, ops), After<P, A>(map[], max, 0, ops);
    hide Run, After, InOrder, Push, Stalest;
    CountOrder(s, m, |ops|);
    NewCostsStalest(s, m, max, |ops|, r, k);
  }

  lemma NewCostsStalest<P, A>(s: seq<Record<P, A>>, m: Table<P, A>, max: nat, n: nat, r: Record<P, A>, k: string)
    requires InOrder(s, m, n) && |s| == |m| == max > 0 && r.key !in m
    ensures Has(Push(s, max, r), k) <==> k == r.key || (k in m && !Stalest(m, k))
  {
    var m' := m[r.key := Stamp(r.fp, r.plan, r.apply, n)];
    hide InOrder, Push, Stalest;
    PushedInOrder(s, m, max, n, r);
    Standing(Push(s, max, r), MadeRoom(m', max), n + 1, k);
    LastIsStalest(s, m, n);
    var last := s[max - 1].key;
    Standing(s, m, n, last);
    LastHas(s);
    StampsBefore(s, m, n);
    StalestBefore(m, m', r.key, n, last);
    hide MadeRoom;
    assert m'.Keys == m.Keys + {r.key};
    assert |m'.Keys| == |m.Keys| + 1;
    RoomMade(m', max, last);
  }

  lemma LastHas<P, A>(s: seq<Record<P, A>>)
    requires s != []
    ensures Has(s, s[|s| - 1].key)
  {
  }

  /** A use just now does not make a key the one used longest ago. */
  lemma StalestBefore<P, A>(m: Table<P, A>, m': Table<P, A>, key: string, n: nat, last: string)
    requires key !in m && key in m' && m' == m[key := m'[key]] && m'[key].used == n
    requires last in m && (forall k :: k in m ==> m[k].used < n) && forall k :: Stalest(m, k) <==> k == last
    ensures forall k :: Stalest(m', k) <==> k == last
  {
    assert Stalest(m, last);
    forall k
      ensures Stalest(m', k) <==> k == last
    {
      if Stalest(m', k) {
        assert m'[k].used <= m'[last].used;
        assert Stalest(m, k);
      }
    }
  }

  lemma StampsBefore<P, A>(s: seq<Record<P, A>>, m: Table<P, A>, n: nat)
    requires InOrder(s, m, n)
    ensures forall k :: k in m ==> m[k].used < n
  {
    forall k | k in m
      ensures m[k].used < n
    {
      Standing(s, m, n, k);
    }
  }
}
