/** internal/app/idempotency.go: a map and a hand-linked list that together keep
    the entries in order of use. */
module IdempotencyCache {
  import opened Wrappers
  import opened Recency

  const DEFAULT_MAX := 256

  class Node<P, A> {
    const key: string
    const fp: string
    var plan: Option<P>
    var apply: Option<A>
    var prev: Node?<P, A>
    var next: Node?<P, A>

    constructor (key: string, fp: string, plan: Option<P>, apply: Option<A>)
      ensures this.key == key && this.fp == fp && this.plan == plan && this.apply == apply
      ensures prev == null && next == null
    {
      this.key, this.fp, this.plan, this.apply := key, fp, plan, apply;
      prev, next := null, null;
    }

    ghost function Record(): Record<P, A>
      reads this`plan, this`apply
    {
      Recency.Record(key, fp, plan, apply)
    }
  }

  ghost predicate Index<P, A>(entries: map<string, Node<P, A>>, nodes: seq<Node<P, A>>)
  {
    && (forall i :: 0 <= i < |nodes| ==> nodes[i].key in entries && entries[nodes[i].key] == nodes[i])
    && (forall k :: k in entries ==> entries[k] in nodes && entries[k].key == k)
  }

  ghost predicate Records<P, A>(nodes: seq<Node<P, A>>, view: seq<Record<P, A>>)
    reads (set n | n in nodes)`plan, (set n | n in nodes)`apply
  {
    |view| == |nodes| && forall i :: 0 <= i < |nodes| ==> nodes[i].Record() == view[i]
  }

  lemma RecordsFront<P, A>(nodes: seq<Node<P, A>>, view: seq<Record<P, A>>, k: nat)
    requires Records(nodes, view) && k < |nodes|
    ensures Records(ToFront(nodes, k), ToFront(view, k))
  {
  }

  lemma RecordsPush<P, A>(nodes: seq<Node<P, A>>, view: seq<Record<P, A>>, e: Node<P, A>)
    requires Records(nodes, view)
    ensures Records([e] + nodes, [e.Record()] + view)
  {
  }

  ghost predicate AllDifferent<T>(s: seq<T>) { forall i, j :: 0 <= i < j < |s| ==> s[i] != s[j] }

  lemma DropMembers<T>(s: seq<T>, k: nat)
    requires AllDifferent(s) && k < |s|
    ensures AllDifferent(Drop(s, k)) && forall x :: x in Drop(s, k) <==> x in s && x != s[k]
  {
  }

  lemma PrefixMembers<T>(s: seq<T>, t: seq<T>)
    requires s <= t
    ensures forall x :: x in s ==> x in t
  {
  }

  lemma RecordsDrop<P, A>(nodes: seq<Node<P, A>>, view: seq<Record<P, A>>, k: nat)
    requires Records(nodes, view) && k < |nodes|
    ensures Records(Drop(nodes, k), Drop(view, k))
  {
  }

  lemma IndexDrop<P, A>(entries: map<string, Node<P, A>>, nodes: seq<Node<P, A>>, k: nat)
    requires AllDifferent(nodes) && Index(entries, nodes) && k < |nodes|
    ensures Index(entries - {nodes[k].key}, Drop(nodes, k))
    ensures forall n :: n in Drop(nodes, k) ==> n in nodes
  {
    DropMembers(nodes, k);
    hide Drop, AllDifferent;
  }

  lemma IndexFront<P, A>(entries: map<string, Node<P, A>>, nodes: seq<Node<P, A>>, k: nat)
    requires AllDifferent(nodes) && Index(entries, nodes) && k < |nodes|
    ensures Index(entries, ToFront(nodes, k))
  {
  }

  lemma IndexAdd<P, A>(entries: map<string, Node<P, A>>, nodes: seq<Node<P, A>>, e: Node<P, A>)
    requires Index(entries, nodes) && e.key !in entries
    ensures Index(entries[e.key := e], [e] + nodes)
  {
  }

  lemma IndexKeys<P, A>(entries: map<string, Node<P, A>>, nodes: seq<Node<P, A>>)
    requires AllDifferent(nodes) && Index(entries, nodes)
    ensures forall i, j :: 0 <= i < j < |nodes| ==> nodes[i].key != nodes[j].key
    ensures |entries| == |nodes|
  {
    CountKeys(nodes);
    assert entries.Keys == set i | 0 <= i < |nodes| :: nodes[i].key;
    assert |entries| == |entries.Keys|;
  }

  lemma {:induction false} CountKeys<P, A>(s: seq<Node<P, A>>)
    requires forall i, j :: 0 <= i < j < |s| ==> s[i].key != s[j].key
    ensures |set i | 0 <= i < |s| :: s[i].key| == |s|
  {
    if s != [] {
      var init, last := s[..|s| - 1], s[|s| - 1];
      CountKeys(init);
      var a, b := set i | 0 <= i < |init| :: init[i].key, set i | 0 <= i < |s| :: s[i].key;
      assert last.key !in a;
      assert b == a + {last.key};
    }
  }

  class Cache<P, A> {
    const max: nat
    var entries: map<string, Node<P, A>>
    var head: Node?<P, A>
    var tail: Node?<P, A>

    /** The nodes from head to tail, and what they record. */
    ghost var nodes: seq<Node<P, A>>
    ghost var view: seq<Record<P, A>>

    ghost function Nodes(): set<Node<P, A>>
      reads this`nodes
    {
      set n | n in nodes
    }

    /** next from head and prev from tail are mirror images along nodes. */
    ghost predicate Linked()
      reads this`head, this`tail, this`nodes, Nodes()`prev, Nodes()`next
    {
      && AllDifferent(nodes)
      && head == (if nodes == [] then null else nodes[0])
      && tail == (if nodes == [] then null else nodes[|nodes| - 1])
      && (nodes != [] ==> nodes[0].prev == null && nodes[|nodes| - 1].next == null)
      && (forall i {:trigger nodes[i].prev} :: 1 <= i < |nodes| ==> nodes[i].prev == nodes[i - 1])
      && (forall i {:trigger nodes[i].next} :: 0 <= i < |nodes| - 1 ==> nodes[i].next == nodes[i + 1])
    }

    ghost predicate Recorded()
      reads this`nodes, this`view, Nodes()`plan, Nodes()`apply
    {
      Records(nodes, view)
    }

    ghost predicate Valid()
      reads this, nodes
    {
      Linked() && Recorded() && Index(entries, nodes) && |nodes| <= max && max > 0
    }

    constructor (max: int)
      ensures Valid() && view == [] && nodes == [] && this.max == (if max <= 0 then 256 else max)
    {
      this.max := if max <= 0 then DEFAULT_MAX else max;
      entries, head, tail, nodes, view := map[], null, null, [], [];
    }

    /** Takes e, at position k, out of the list only. */
    method Unlink(e: Node<P, A>, ghost k: nat)
      requires Linked() && k < |nodes| && nodes[k] == e
      modifies this`head, this`tail, this`nodes, Nodes()`prev, Nodes()`next
      ensures Linked() && nodes == Drop(old(nodes), k) && e.prev == null && e.next == null
    {
      ghost var was := nodes;
      DropMembers(nodes, k);
      assert k > 0 ==> was[k].prev == was[k - 1];
      assert k < |was| - 1 ==> was[k].next == was[k + 1];
      if e.prev != null {
        e.prev.next := e.next;
      } else {
        head := e.next;
      }
      if e.next != null {
        e.next.prev := e.prev;
      } else {
        tail := e.prev;
      }
      e.prev := null;
      e.next := null;
      nodes := Drop(nodes, k);
    }

    /** Puts a detached node in front of the list only. */
    method LinkFront(e: Node<P, A>)
      requires Linked() && e !in nodes
      modifies this`head, this`tail, this`nodes, Nodes()`prev, e`prev, e`next
      ensures Linked() && nodes == [e] + old(nodes)
    {
      ghost var was := nodes;
      e.prev := null;
      e.next := head;
      if head != null {
        head.prev := e;
      }
      head := e;
      if tail == null {
        tail := e;
      }
      nodes := [e] + nodes;
      assert forall i :: 1 <= i < |nodes| ==> nodes[i] == was[i - 1];
    }

    /** Drops e, at position k, from the map and the list. */
    method Remove(e: Node<P, A>, ghost k: nat)
      requires Linked() && Recorded() && Index(entries, nodes) && k < |nodes| && nodes[k] == e
      modifies this`entries, this`head, this`tail, this`nodes, this`view, Nodes()`prev, Nodes()`next
      ensures Linked() && Recorded() && Index(entries, nodes) && nodes == Drop(old(nodes), k) &&
              view == Drop(old(view), k)
      ensures entries == old(entries) - {e.key}
    {
      hide Linked, Index, Records, AllDifferent, Drop;
      NodesDiffer();
      RemovedFacts(k);
      entries := entries - {e.key};
      Unlink(e, k);
      view := Drop(view, k);
    }

    lemma RemovedFacts(k: nat)
      requires AllDifferent(nodes) && Recorded() && Index(entries, nodes) && k < |nodes|
      ensures k < |view| && Index(entries - {nodes[k].key}, Drop(nodes, k)) && Records(Drop(nodes, k), Drop(view, k))
      ensures forall n :: n in Drop(nodes, k) ==> n in nodes
    {
      IndexDrop(entries, nodes, k);
      RecordsDrop(nodes, view, k);
    }

    lemma DistinctKeys()
      requires AllDifferent(nodes) && Recorded() && Index(entries, nodes)
      ensures Distinct(view) && |entries| == |nodes| == |view|
    {
      IndexKeys(entries, nodes);
      assert forall i :: 0 <= i < |nodes| ==> nodes[i].Record() == view[i];
    }

    /** Where the entry of a key sits. */
    lemma Position(key: string) returns (k: nat)
      requires Valid()
      ensures Has(view, key) <==> key in entries
      ensures key in entries ==>
                k < |nodes| && nodes[k] == entries[key] && k == IndexOf(view, key) && view[k] == entries[key].Record()
    {
      k := 0;
      if key in entries {
        k :| 0 <= k < |nodes| && nodes[k] == entries[key];
        DistinctKeys();
        assert view[k].key == key;
        IndexIs(view, k);
      }
      if Has(view, key) {
        assert nodes[IndexOf(view, key)].Record().key == key;
      }
    }

    method MoveFront(e: Node<P, A>, ghost k: nat)
      requires Valid() && k < |nodes| && nodes[k] == e
      modifies this`head, this`tail, this`nodes, this`view, Nodes()`prev, Nodes()`next
      ensures Valid() && nodes == ToFront(old(nodes), k) && view == ToFront(old(view), k)
    {
      hide Linked, Index, Records, AllDifferent;
      FrontFacts(k);
      if e == head {
        HeadIsFirst(k);
      } else {
        ToFrontLinked(e, k);
      }
    }

    lemma FrontFacts(k: nat)
      requires Valid() && k < |nodes|
      ensures |view| == |nodes| && nodes[k] !in Drop(nodes, k)
      ensures Index(entries, ToFront(nodes, k)) && Records(ToFront(nodes, k), ToFront(view, k))
    {
      IndexFront(entries, nodes, k);
      RecordsFront(nodes, view, k);
      DropMembers(nodes, k);
    }

    /** Unlinks e and links it in front again. */
    method ToFrontLinked(e: Node<P, A>, ghost k: nat)
      requires Linked() && k < |nodes| == |view| && nodes[k] == e && e !in Drop(nodes, k)
      modifies this`head, this`tail, this`nodes, this`view, Nodes()`prev, Nodes()`next
      ensures Linked() && nodes == ToFront(old(nodes), k) && view == ToFront(old(view), k)
    {
      view := ToFront(view, k);
      Unlink(e, k);
      LinkFront(e);
    }

    lemma HeadIsFirst(k: nat)
      requires Linked() && Recorded() && k < |nodes| && nodes[k] == head
      ensures ToFront(nodes, k) == nodes && ToFront(view, k) == view
    {
    }

    lemma TailIsLast()
      requires Linked()
      ensures if nodes == [] then tail == null else tail == nodes[|nodes| - 1]
    {
    }

    /** Makes way for a new entry under the key. */
    method RemoveKey(key: string)
      requires Valid()
      modifies this`entries, this`head, this`tail, this`nodes, this`view, Nodes()`prev, Nodes()`next
      ensures Valid() && view == Forget(old(view), key) && key !in entries && forall n :: n in nodes ==> n in old(nodes)
    {
      hide Linked, Index, Records;
      ghost var at := Position(key);
      if key in entries {
        DropMembers(nodes, at) by { assert AllDifferent(nodes) by { NodesDiffer(); } }
        Remove(entries[key], at);
      }
    }

    method InsertFront(e: Node<P, A>)
      requires Valid() && e !in nodes
      modifies this`entries, this`head, this`tail, this`nodes, this`view, Nodes()`prev, Nodes()`next, e`prev, e`next
      ensures Valid() && view == Push(old(view), max, e.Record())
      ensures forall n :: n in nodes ==> n in old(nodes) || n == e
    {
      hide Linked, Index, Records;
      RemoveKey(e.key);
      IndexAdd(entries, nodes, e);
      RecordsPush(nodes, view, e);
      entries := entries[e.key := e];
      LinkFront(e);
      view := [e.Record()] + view;
      ghost var linked := nodes;
      assert forall n :: n in linked ==> n == e || n in old(nodes);
      TrimTail();
      PrefixMembers(nodes, linked);
    }

    lemma NodesDiffer()
      requires Linked()
      ensures AllDifferent(nodes)
    {
    }

    lemma Sizes()
      requires Linked() && Recorded() && Index(entries, nodes)
      ensures |entries| == |nodes| == |view| && (tail == null <==> nodes == [])
    {
      NodesDiffer();
      DistinctKeys();
      TailIsLast();
    }

    method DropTail()
      requires Linked() && Recorded() && Index(entries, nodes) && nodes != []
      modifies this`entries, this`head, this`tail, this`nodes, this`view, Nodes()`prev, Nodes()`next
      ensures Linked() && Recorded() && Index(entries, nodes)
      ensures nodes == old(nodes)[..|old(nodes)| - 1] && |old(view)| == |old(nodes)| &&
              view == old(view)[..|old(view)| - 1]
    {
      hide Linked, Index, Records;
      Sizes();
      TailIsLast();
      Remove(tail, |nodes| - 1);
    }

    /** The eviction loop. */
    method TrimTail()
      requires Linked() && Recorded() && Index(entries, nodes) && max > 0
      modifies this`entries, this`head, this`tail, this`nodes, this`view, Nodes()`prev, Nodes()`next
      ensures Valid() && view == Trim(old(view), max) && nodes <= old(nodes)
    {
      hide Linked, Index, Records;
      Sizes();
      while |entries| > max && tail != null
        invariant Linked() && Recorded() && Index(entries, nodes) && |entries| == |nodes| == |view| <= |old(view)|
        invariant tail == null <==> nodes == []
        invariant nodes <= old(nodes) && view == old(view)[..|nodes|]
        invariant |nodes| >= max || nodes == old(nodes)
        decreases |nodes|
      {
        DropTail();
        Sizes();
      }
    }

    method Lookup(key: string, fp: string) returns (hit: Hit<P, A>)
      requires Valid()
      modifies this`head, this`tail, this`nodes, this`view, Nodes()`prev, Nodes()`next
      ensures Valid() && (hit, view) == Recency.Lookup(old(view), key, fp)
      ensures forall n :: n in nodes ==> n in old(nodes)
    {
      if key == "" {
        return Miss;
      }
      ghost var k := Position(key);
      if key !in entries {
        return Miss;
      }
      var e := entries[key];
      if e.fp != fp {
        return Conflict;
      }
      hit := Found(Recency.Record(e.key, e.fp, e.plan, e.apply));
      MoveFront(e, k);
    }

    method SetPlan(e: Node<P, A>, ghost k: nat, p: P)
      requires Valid() && k < |nodes| && nodes[k] == e
      modifies e`plan, this`view
      ensures Valid() && |view| == |old(view)| == |nodes| && view == old(view)[k := old(view)[k].(plan := Some(p))]
    {
      NodesDiffer();
      view := view[k := view[k].(plan := Some(p))];
      hide Linked, Index;
      e.plan := Some(p);
    }

    method SetApply(e: Node<P, A>, ghost k: nat, a: A)
      requires Valid() && k < |nodes| && nodes[k] == e
      modifies e`apply, this`view
      ensures Valid() && |view| == |old(view)| == |nodes| && view == old(view)[k := old(view)[k].(apply := Some(a))]
    {
      NodesDiffer();
      view := view[k := view[k].(apply := Some(a))];
      hide Linked, Index;
      e.apply := Some(a);
    }

    /** Updates the entry at position k and brings it to the front. */
    method RefreshPlan(e: Node<P, A>, ghost k: nat, p: P)
      requires Valid() && k < |nodes| && nodes[k] == e
      modifies this`head, this`tail, this`nodes, this`view, Nodes()
      ensures Valid() && k < |old(view)| && view == ToFront(old(view)[k := old(view)[k].(plan := Some(p))], k)
      ensures forall n :: n in nodes ==> n in old(nodes)
    {
      hide Linked, Recorded, Index;
      SetPlan(e, k, p);
      MoveFront(e, k);
    }

    method RefreshApply(e: Node<P, A>, ghost k: nat, a: A)
      requires Valid() && k < |nodes| && nodes[k] == e
      modifies this`head, this`tail, this`nodes, this`view, Nodes()
      ensures Valid() && k < |old(view)| && view == ToFront(old(view)[k := old(view)[k].(apply := Some(a))], k)
      ensures forall n :: n in nodes ==> n in old(nodes)
    {
      hide Linked, Recorded, Index;
      SetApply(e, k, a);
      MoveFront(e, k);
    }

    method InsertNew(key: string, fp: string, plan: Option<P>, apply: Option<A>)
      requires Valid()
      modifies this`entries, this`head, this`tail, this`nodes, this`view, Nodes()`prev, Nodes()`next
      ensures Valid() && view == Push(old(view), max, Recency.Record(key, fp, plan, apply))
      ensures forall n :: n in nodes ==> n in old(nodes) || fresh(n)
    {
      hide Linked, Recorded, Index;
      var e := new Node(key, fp, plan, apply);
      InsertFront(e);
    }

    method StorePlan(key: string, fp: string, p: P)
      requires Valid()
      modifies this`entries, this`head, this`tail, this`nodes, this`view, Nodes()
      ensures Valid() && view == Recency.StorePlan(old(view), max, key, fp, p)
      ensures forall n :: n in nodes ==> n in old(nodes) || fresh(n)
    {
      hide Linked, Recorded, Index, Push, ToFront;
      if key == "" {
        return;
      }
      ghost var k := Position(key);
      if key in entries && entries[key].fp == fp {
        RefreshPlan(entries[key], k, p);
        return;
      }
      InsertNew(key, fp, Some(p), None);
    }

    method StoreApply(key: string, fp: string, a: A)
      requires Valid()
      modifies this`entries, this`head, this`tail, this`nodes, this`view, Nodes()
      ensures Valid() && view == Recency.StoreApply(old(view), max, key, fp, a)
      ensures forall n :: n in nodes ==> n in old(nodes) || fresh(n)
    {
      hide Linked, Recorded, Index, Push, ToFront;
      if key == "" {
        return;
      }
      ghost var k := Position(key);
      if key in entries && entries[key].fp == fp {
        RefreshApply(entries[key], k, a);
        return;
      }
      InsertNew(key, fp, None, Some(a));
    }

    method Evict(key: string)
      requires Valid()
      modifies this`entries, this`head, this`tail, this`nodes, this`view, Nodes()`prev, Nodes()`next
      ensures Valid() && view == Recency.Evict(old(view), key)
      ensures forall n :: n in nodes ==> n in old(nodes)
    {
      if key == "" {
        return;
      }
      ghost var k := Position(key);
      if key in entries {
        Remove(entries[key], k);
      }
    }

    method Clear()
      requires Valid()
      modifies this`entries, this`head, this`tail, this`nodes, this`view
      ensures Valid() && view == [] && nodes == []
    {
      entries := map[];
      head := null;
      tail := null;
      nodes, view := [], [];
    }
  }
}
