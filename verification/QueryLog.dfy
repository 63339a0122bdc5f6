/** internal/querylog/ring.go: the last-N query ring, and what it keeps. */
module QueryLog {

  const MAX_SIZE := 4096

  /** One answered (or kiss-of-death) query. */
  datatype Entry = Entry(
    clientIp: string, filter: string, servedTime: int, leap: string, mode: string, vn: int, whenHost: int)

  const EMPTY_ENTRY := Entry("", "", 0, "", "", 0, 0)

  function ClampSize(n: int): (c: nat)
    ensures 1 <= c <= MAX_SIZE
  {
    if n < 1 then 1 else if n > MAX_SIZE then MAX_SIZE else n
  }

  // ----- the log a ring stands for: its capacity and its samples, oldest first

  datatype Log = Log(cap: nat, kept: seq<Entry>)

  function LastN<T>(s: seq<T>, n: nat): seq<T>
  {
    if |s| <= n then s else s[|s| - n..]
  }

  function Reverse<T>(s: seq<T>): (r: seq<T>)
    ensures |r| == |s| && forall i :: 0 <= i < |s| ==> r[i] == s[|s| - 1 - i]
  {
    if s == [] then [] else Reverse(s[1..]) + [s[0]]
  }

  function Inserted(l: Log, e: Entry): Log { l.(kept := LastN(l.kept + [e], l.cap)) }

  function Wiped(l: Log): Log { l.(kept := []) }

  function Resized(l: Log, n: int): Log { Log(ClampSize(n), LastN(l.kept, ClampSize(n))) }

  // ----- the ring

  /** Position a of the insertion sequence lives in slot a mod len; written as
      repeated subtraction to keep the solver off variable divisors. */
  function Slot(a: nat, len: nat): (s: nat)
    requires 0 < len
    ensures s < len
    ensures a < len ==> s == a
  {
    if a < len then a else Slot(a - len, len)
  }

  lemma ModUnique(a: int, d: int, q: int, r: int)
    requires 0 < d && a == d * q + r && 0 <= r < d
    ensures a % d == r
  {
    var k := q - a / d;
    assert d * k == a % d - r;
  }

  lemma {:induction false} SlotIsMod(a: nat, len: nat)
    requires 0 < len
    ensures Slot(a, len) == a % len
  {
    if a >= len {
      SlotIsMod(a - len, len);
      var q, r := (a - len) / len, (a - len) % len;
      assert a == len * q + len + r;
      assert len * (q + 1) == len * q + len;
      ModUnique(a, len, q + 1, r);
    } else {
      ModUnique(a, len, 0, a);
    }
  }

  lemma {:induction false} SlotsDiffer(a: nat, b: nat, len: nat)
    requires 0 < len && a < b < a + len
    ensures Slot(a, len) != Slot(b, len)
  {
    if a >= len {
      SlotsDiffer(a - len, b - len, len);
    }
  }

  /** The remainder the source indexes with. */
  method SlotOf(a: nat, len: nat) returns (s: nat)
    requires 0 < len
    ensures s == Slot(a, len)
  {
    SlotIsMod(a, len);
    s := a % len;
  }

  /** The samples kept occupy the slots of positions start, start + 1, ... */
  ghost predicate Window(slots: seq<Entry>, start: nat, kept: seq<Entry>)
    requires |slots| > 0
  {
    forall i :: 0 <= i < |kept| ==> slots[Slot(start + i, |slots|)] == kept[i]
  }

  lemma WindowGrows(slots: seq<Entry>, start: nat, kept: seq<Entry>, e: Entry)
    requires |kept| < |slots| && Window(slots, start, kept)
    ensures Window(slots[Slot(start + |kept|, |slots|) := e], start, kept + [e])
  {
    var len, s := |slots|, slots[Slot(start + |kept|, |slots|) := e];
    forall i | 0 <= i < |kept| + 1
      ensures s[Slot(start + i, len)] == (kept + [e])[i]
    {
      if i < |kept| {
        SlotsDiffer(start + i, start + |kept|, len);
      }
    }
  }

  lemma WindowSlides(slots: seq<Entry>, start: nat, kept: seq<Entry>, e: Entry)
    requires |kept| == |slots| > 0 && Window(slots, start, kept)
    ensures Window(slots[Slot(start + |kept|, |slots|) := e], start + 1, kept[1..] + [e])
  {
    var len, s := |slots|, slots[Slot(start + |kept|, |slots|) := e];
    forall i | 0 <= i < len
      ensures s[Slot(start + 1 + i, len)] == (kept[1..] + [e])[i]
    {
      if i < len - 1 {
        SlotsDiffer(start + (i + 1), start + len, len);
        assert slots[Slot(start + (i + 1), len)] == kept[i + 1];
      }
    }
  }

  class Ring {
    var items: array<Entry>
    var next: nat
    var size: nat
    var dropped: nat

    /** The samples held, oldest first. */
    ghost var kept: seq<Entry>

    ghost predicate Valid()
      reads this, items
    {
      && 1 <= items.Length <= MAX_SIZE
      && size == (if next < items.Length then next else items.Length)
      && |kept| == size
      && Window(items[..], next - size, kept)
    }

    ghost function View(): Log
      reads this
    {
      Log(items.Length, kept)
    }

    constructor (n: int)
      ensures Valid() && fresh(items) && View() == Log(ClampSize(n), []) && dropped == 0
    {
      items := new Entry[ClampSize(n)];
      next, size, dropped, kept := 0, 0, 0, [];
    }

    /** locked says whether the lock was acquired in time; on a miss, counted says
        whether the last attempt to take it succeeded. */
    method TryInsert(e: Entry, locked: bool, counted: bool) returns (ok: bool)
      requires Valid()
      modifies this, items
      ensures Valid() && items == old(items)
      ensures ok == locked
      ensures View() == if locked then Inserted(old(View()), e) else old(View())
      ensures dropped == old(dropped) + if !locked && counted then 1 else 0
    {
      if !locked {
        if counted { dropped := dropped + 1; }
        return false;
      }
      Store(e);
      return true;
    }

    /** The locked section of TryInsert, and the refill step of Resize. */
    method Store(e: Entry)
      requires Valid()
      modifies this, items
      ensures Valid() && items == old(items) && dropped == old(dropped)
      ensures View() == Inserted(old(View()), e)
      ensures next == old(next) + 1
    {
      var len := items.Length;
      ghost var start, was := next - size, items[..];
      var slot := SlotOf(next, len);
      items[slot] := e;
      assert items[..] == was[Slot(start + size, len) := e];
      next := next + 1;
      if size < len {
        WindowGrows(was, start, kept, e);
        size := size + 1;
        kept := kept + [e];
      } else {
        WindowSlides(was, start, kept, e);
        kept := kept[1..] + [e];
      }
    }

    /** Newest-first copies. The source's correction of a negative index is kept
        and shown to be idle: next is never below size. */
    method List() returns (out: seq<Entry>)
      requires Valid()
      ensures out == Reverse(kept)
    {
      var len := items.Length;
      out := [];
      for i := 0 to size
        invariant |out| == i
        invariant forall k :: 0 <= k < i ==> out[k] == kept[size - 1 - k]
      {
        assert next - 1 - i >= 0;
        var idx := (next - 1 - i) % len;
        if idx < 0 {
          idx := idx + len;
        }
        SlotIsMod(next - 1 - i, len);
        assert items[Slot(next - size + (size - 1 - i), len)] == kept[size - 1 - i];
        out := out + [items[idx]];
      }
    }

    method Reset()
      requires Valid()
      modifies this, items
      ensures Valid() && items == old(items) && View() == Wiped(old(View())) && dropped == old(dropped)
    {
      next := 0;
      size := 0;
      kept := [];
      forall i | 0 <= i < items.Length {
        items[i] := EMPTY_ENTRY;
      }
    }

    method Resize(n: int)
      requires Valid()
      modifies this
      ensures Valid() && fresh(items) && View() == Resized(old(View()), n) && dropped == old(dropped)
    {
      hide Reverse, LastN;
      var c := ClampSize(n);
      var list := List();
      RefillKeepsNewest(kept, c);
      items := new Entry[c];
      next := 0;
      size := 0;
      kept := [];
      Refill(if |list| > c then list[..c] else list);
    }

    /** The loop of Resize: newest-first samples go back oldest first. */
    method Refill(keep: seq<Entry>)
      requires Valid() && kept == [] && |keep| <= items.Length
      modifies this, items
      ensures Valid() && items == old(items) && dropped == old(dropped)
      ensures kept == Reverse(keep)
    {
      ReverseFrom(keep, |keep|);
      var i := |keep| - 1;
      while i >= 0
        invariant -1 <= i < |keep| <= items.Length
        invariant Valid() && items == old(items) && dropped == old(dropped)
        invariant kept == Reverse(keep[i + 1..]) && |kept| == |keep| - 1 - i
      {
        hide Window, Reverse, LastN;
        ReverseFrom(keep, i);
        InsertedWithRoom(View(), keep[i]);
        Store(keep[i]);
        i := i - 1;
      }
      assert keep[0..] == keep;
    }
  }

  lemma ReverseFrom(keep: seq<Entry>, i: nat)
    requires i <= |keep|
    ensures Reverse(keep[i..]) == if i < |keep| then Reverse(keep[i + 1..]) + [keep[i]] else []
  {
  }

  lemma InsertedWithRoom(l: Log, e: Entry)
    requires |l.kept| < l.cap
    ensures Inserted(l, e) == l.(kept := l.kept + [e])
  {
  }

  /** Reading the newest-first list backwards rebuilds the newest c samples. */
  lemma RefillKeepsNewest(was: seq<Entry>, c: nat)
    ensures var list := Reverse(was); Reverse(if |list| > c then list[..c] else list) == LastN(was, c)
  {
  }

  // ----- whole runs

  datatype Op = Insert(e: Entry) | Wipe | Resize(n: int)

  function Step(l: Log, op: Op): Log
  {
    match op
    case Insert(e) => Inserted(l, e)
    case Wipe => Wiped(l)
    case Resize(n) => Resized(l, n)
  }

  function Run(l: Log, ops: seq<Op>): Log
  {
    if ops == [] then l else Step(Run(l, ops[..|ops| - 1]), ops[|ops| - 1])
  }

  /** Everything inserted since the last wipe, oldest first. */
  function History(ops: seq<Op>): seq<Entry>
  {
    if ops == [] then []
    else
      var h := History(ops[..|ops| - 1]);
      match ops[|ops| - 1]
      case Insert(e) => h + [e]
      case Wipe => []
      case Resize(_) => h
  }

  function Boot(n: int): Log { Log(ClampSize(n), []) }

  function Min(a: nat, b: nat): nat { if a < b then a else b }

  lemma LastNNested(h: seq<Entry>, k: nat, c: nat)
    ensures LastN(LastN(h, k), c) == LastN(h, Min(k, c))
  {
  }

  lemma LastNPush(h: seq<Entry>, k: nat, e: Entry)
    requires k <= |h|
    ensures LastN(h, k) + [e] == LastN(h + [e], k + 1)
  {
  }

  /** The log holds the newest samples of the history, within its capacity. */
  predicate Newest(l: Log, h: seq<Entry>)
  {
    1 <= l.cap <= 4096 && |l.kept| <= l.cap && |l.kept| <= |h| && l.kept == LastN(h, |l.kept|)
  }

  lemma InsertKeepsNewest(m: Log, h: seq<Entry>, e: Entry)
    requires Newest(m, h)
    ensures Newest(Inserted(m, e), h + [e])
  {
    LastNPush(h, |m.kept|, e);
    LastNNested(h + [e], |m.kept| + 1, m.cap);
  }

  lemma ResizeKeepsNewest(m: Log, h: seq<Entry>, n: int)
    requires Newest(m, h)
    ensures Newest(Resized(m, n), h)
  {
    LastNNested(h, |m.kept|, ClampSize(n));
  }

  lemma {:induction false} AlwaysNewest(n: int, ops: seq<Op>)
    ensures Newest(Run(Boot(n), ops), History(ops))
  {
    if ops != [] {
      var init := ops[..|ops| - 1];
      AlwaysNewest(n, init);
      var m, h := Run(Boot(n), init), History(init);
      match ops[|ops| - 1]
      case Insert(e) => InsertKeepsNewest(m, h, e);
      case Wipe =>
      case Resize(c) => ResizeKeepsNewest(m, h, c);
      hide Newest, Inserted, Resized;
    }
  }

  /** After any run the ring holds the newest samples of the history and no
      other, within its capacity. */
  lemma KeepsNewest(n: int, ops: seq<Op>)
    ensures var l := Run(Boot(n), ops);
            1 <= l.cap <= 4096 && |l.kept| <= l.cap && |l.kept| <= |History(ops)| &&
            l.kept == LastN(History(ops), |l.kept|)
  {
    AlwaysNewest(n, ops);
    hide Run, History, LastN;
  }

  /** No sample is dropped early: whenever some are missing, there was a moment
      at which the ring was exactly full and since which it has lost none. */
  lemma {:induction false} DropsOnlyWhenFull(n: int, ops: seq<Op>) returns (q: nat)
    requires |Run(Boot(n), ops).kept| < |History(ops)|
    ensures q <= |ops|
    ensures var m := Run(Boot(n), ops[..q]);
            |m.kept| == m.cap &&
            |Run(Boot(n), ops).kept| - |m.kept| == |History(ops)| - |History(ops[..q])|
  {
    var init := ops[..|ops| - 1];
    var l := Run(Boot(n), ops);
    KeepsNewest(n, ops);
    KeepsNewest(n, init);
    q := |ops|;
    assert ops[..q] == ops;
    if |l.kept| < l.cap {
      q := DropsOnlyWhenFull(n, init);
      assert ops[..q] == init[..q];
    }
  }

  lemma InsertedFixed(h: seq<Entry>, c: nat, e: Entry)
    ensures Inserted(Log(c, LastN(h, c)), e) == Log(c, LastN(h + [e], c))
  {
  }

  /** Without a resize, the ring shows exactly the last cap samples since the
      last wipe. */
  lemma {:induction false} FixedCapacity(n: int, ops: seq<Op>)
    requires forall op :: op in ops ==> !op.Resize?
    ensures Run(Boot(n), ops) == Log(ClampSize(n), LastN(History(ops), ClampSize(n)))
  {
    if ops != [] {
      var init := ops[..|ops| - 1];
      FixedCapacity(n, init);
      var op, h := ops[|ops| - 1], History(init);
      assert op in ops;
      if op.Insert? {
        InsertedFixed(h, ClampSize(n), op.e);
      }
      hide LastN, ClampSize, Inserted;
    }
  }

  /** Shrinking and growing again keeps what the smaller size kept. */
  lemma ShrinkThenGrow(l: Log, small: int, large: int)
    requires small <= large && |l.kept| <= l.cap
    ensures Resized(Resized(l, small), large).kept == Resized(l, small).kept
    ensures Resized(Resized(l, large), small) == Resized(l, small)
  {
  }
}
