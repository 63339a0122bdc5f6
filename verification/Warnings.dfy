/** internal/compiler/compile.go: what a compile warns about, and when two compiles
    of one document warn alike. */
module Warnings {
  import opened Address
  import opened View
  import opened Model
  import opened Snapshot

  // ----- the warnings of a compile

  function AllowlistWarnings(st: State): seq<Warning>
  {
    if st.ntp.allowClientCidrs.None? then [Warning(AllowlistPath, UniversalAllowlist)] else []
  }

  predicate Unsynced(v: View) { v.leap == Unsync && v.stratum != 16 }

  function ViewWarnings(v: View, now: Instant): seq<Warning>
  {
    (if ServedClamped(v, now) then [Warning(ViewPath(v.name), ServedTimeClamped)] else []) +
    (if Unsynced(v) then [Warning(ViewPath(v.name), UnsyncStratum)] else [])
  }

  function FilterWarnings(fs: seq<CompiledFilter>, now: Instant): seq<Warning>
  {
    if fs == [] then [] else ViewWarnings(fs[0].view, now) + FilterWarnings(fs[1..], now)
  }

  predicate PrefixesMeet(a: seq<Prefix>, b: seq<Prefix>)
  {
    exists i, j :: 0 <= i < |a| && 0 <= j < |b| && Overlaps(a[i], b[j])
  }

  predicate Meet(f: CompiledFilter, g: CompiledFilter)
  {
    f.enabled && g.enabled && PrefixesMeet(f.prefixes, g.prefixes)
  }

  function OverlapOf(fs: seq<CompiledFilter>, i: nat, j: nat): Warning
    requires i < |fs| && j < |fs|
  {
    Warning(CidrsPath(i), Overlap(fs[i].name, fs[j].name))
  }

  /** Of filter i with those from j on. */
  function OverlapsWith(fs: seq<CompiledFilter>, i: nat, j: nat): seq<Warning>
    requires i < |fs| && j <= |fs|
    decreases |fs| - j
  {
    if j == |fs| then []
    else (if Meet(fs[i], fs[j]) then [OverlapOf(fs, i, j)] else []) + OverlapsWith(fs, i, j + 1)
  }

  /** Of the filters from i on, each with those behind it. */
  function OverlapsFrom(fs: seq<CompiledFilter>, i: nat): seq<Warning>
    requires i <= |fs|
    decreases |fs| - i
  {
    if i == |fs| then [] else OverlapsWith(fs, i, i + 1) + OverlapsFrom(fs, i + 1)
  }

  /** All of them; st is the document before its defaults are materialized. */
  function CompileWarnings(st: State, fs: seq<CompiledFilter>, now: Instant): seq<Warning>
  {
    AllowlistWarnings(st) + FilterWarnings(fs, now) + OverlapsFrom(fs, 0)
  }

  /** A plan shows them without their paths. */
  function Notices(ws: seq<Warning>): (ns: seq<Notice>)
    ensures |ns| == |ws| && forall i :: 0 <= i < |ws| ==> ns[i] == ws[i].notice
  {
    seq(|ws|, i requires 0 <= i < |ws| => ws[i].notice)
  }

  // ----- what an overlap warning means

  /** Some address would be matched by either filter alone. */
  ghost predicate Competing(f: CompiledFilter, g: CompiledFilter)
  {
    exists a: Addr :: Direct(f, a) && Direct(g, a)
  }

  ghost predicate Direct(f: CompiledFilter, a: Addr)
  {
    f.enabled && exists k :: 0 <= k < |f.prefixes| && Contains(f.prefixes[k], a)
  }

  lemma MeetMeansCompeting(f: CompiledFilter, g: CompiledFilter)
    ensures Meet(f, g) <==> Competing(f, g)
  {
    if Competing(f, g) {
      var a :| Direct(f, a) && Direct(g, a);
      var i :| 0 <= i < |f.prefixes| && Contains(f.prefixes[i], a);
      var j :| 0 <= j < |g.prefixes| && Contains(g.prefixes[j], a);
      OverlapsMeansShared(f.prefixes[i], g.prefixes[j]);
    }
    if Meet(f, g) {
      var i, j :| 0 <= i < |f.prefixes| && 0 <= j < |g.prefixes| && Overlaps(f.prefixes[i], g.prefixes[j]);
      OverlapsMeansShared(f.prefixes[i], g.prefixes[j]);
      var a :| Contains(f.prefixes[i], a) && Contains(g.prefixes[j], a);
      assert Direct(f, a) && Direct(g, a);
    }
  }

  ghost predicate WarnedFrom(fs: seq<CompiledFilter>, i: nat, from: nat, w: Warning)
    requires i < |fs|
  {
    exists j :: from <= j < |fs| && Competing(fs[i], fs[j]) &&
                w == Warning(CidrsPath(i), Overlap(fs[i].name, fs[j].name))
  }

  lemma {:induction false} OverlapsWithAre(fs: seq<CompiledFilter>, i: nat, j: nat, w: Warning)
    requires i < |fs| && j <= |fs|
    ensures w in OverlapsWith(fs, i, j) <==> WarnedFrom(fs, i, j, w)
    decreases |fs| - j
  {
    hide Meet, Competing;
    if j < |fs| {
      MeetMeansCompeting(fs[i], fs[j]);
      OverlapsWithAre(fs, i, j + 1, w);
    }
  }

  /** The warning is about filter i and one behind it that competes with it. */
  ghost predicate Warned(fs: seq<CompiledFilter>, i: nat, w: Warning) { i < |fs| && WarnedFrom(fs, i, i + 1, w) }

  /** The overlap warnings name exactly the pairs of filters that compete for some
      address. */
  lemma {:induction false} OverlapsAre(fs: seq<CompiledFilter>, i: nat, w: Warning)
    requires i <= |fs|
    ensures w in OverlapsFrom(fs, i) <==> exists x: nat :: i <= x && Warned(fs, x, w)
    decreases |fs| - i
  {
    hide WarnedFrom, OverlapsWith;
    if i < |fs| {
      OverlapsWithAre(fs, i, i + 1, w);
      assert Warned(fs, i, w) <==> WarnedFrom(fs, i, i + 1, w);
      hide Warned;
      OverlapsAre(fs, i + 1, w);
    }
  }

  // ----- what the other warnings mean

  /** The warning is about this view: the time it would serve lies outside the range and
      is moved into it, or it says it is unsynchronized at another stratum than 16. */
  predicate AboutView(v: View, now: Instant, w: Warning)
  {
    w.path == ViewPath(v.name) &&
    ((w.notice == ServedTimeClamped && Served(v, now) != ServedUnclamped(v, now)) ||
     (w.notice == UnsyncStratum && v.leap == Unsync && v.stratum != 16))
  }

  lemma ViewWarningsAre(v: View, now: Instant, w: Warning)
    ensures w in ViewWarnings(v, now) <==> AboutView(v, now, w)
  {
    hide ServedUnclamped;
  }

  lemma {:induction false} FilterWarningsAre(fs: seq<CompiledFilter>, now: Instant, w: Warning)
    ensures w in FilterWarnings(fs, now) <==> exists i :: 0 <= i < |fs| && AboutView(fs[i].view, now, w)
  {
    hide ViewWarnings, AboutView;
    if fs != [] {
      ViewWarningsAre(fs[0].view, now, w);
      FilterWarningsAre(fs[1..], now, w);
      if i :| 0 <= i < |fs| && AboutView(fs[i].view, now, w) {
        assert i > 0 ==> fs[i] == fs[1..][i - 1];
      }
      if i :| 0 <= i < |fs[1..]| && AboutView(fs[1..][i].view, now, w) {
        assert fs[i + 1] == fs[1..][i];
      }
    }
  }

  /** A compile warns of exactly this: an allowlist left out, a view whose time is
      clamped, a view unsynchronized at the wrong stratum, and two enabled filters
      that compete for an address. */
  lemma WarnedExactly(st: State, fs: seq<CompiledFilter>, now: Instant, w: Warning)
    ensures w in CompileWarnings(st, fs, now) <==>
            || (st.ntp.allowClientCidrs.None? && w == Warning(AllowlistPath, UniversalAllowlist))
            || (exists i :: 0 <= i < |fs| && AboutView(fs[i].view, now, w))
            || exists i: nat :: Warned(fs, i, w)
  {
    hide FilterWarnings, OverlapsFrom, AboutView, Warned;
    FilterWarningsAre(fs, now, w);
    OverlapsAre(fs, 0, w);
    assert (exists x: nat :: 0 <= x && Warned(fs, x, w)) <==> exists i: nat :: Warned(fs, i, w);
  }

  // ----- when two compiles warn alike

  /** The same document compiled on the same snapshot at another instant: all that
      its warnings look at, but for the clock, is the same. */
  predicate SameFilters(fs: seq<CompiledFilter>, gs: seq<CompiledFilter>)
  {
    |fs| == |gs| &&
    forall i :: 0 <= i < |fs| ==>
      fs[i].name == gs[i].name == fs[i].view.name == gs[i].view.name && fs[i].enabled == gs[i].enabled &&
      fs[i].prefixes == gs[i].prefixes && fs[i].view.leap == gs[i].view.leap && fs[i].view.stratum == gs[i].view.stratum
  }

  lemma {:induction false} SameOverlapsWith(fs: seq<CompiledFilter>, gs: seq<CompiledFilter>, i: nat, j: nat)
    requires SameFilters(fs, gs) && i < |fs| && j <= |fs|
    ensures OverlapsWith(fs, i, j) == OverlapsWith(gs, i, j)
    decreases |fs| - j
  {
    if j < |fs| {
      SameOverlapsWith(fs, gs, i, j + 1);
    }
  }

  lemma {:induction false} SameOverlaps(fs: seq<CompiledFilter>, gs: seq<CompiledFilter>, i: nat)
    requires SameFilters(fs, gs) && i <= |fs|
    ensures OverlapsFrom(fs, i) == OverlapsFrom(gs, i)
    decreases |fs| - i
  {
    if i < |fs| {
      SameOverlapsWith(fs, gs, i, i + 1);
      SameOverlaps(fs, gs, i + 1);
    }
    hide SameFilters, OverlapsWith;
  }

  /** No view is clamped at one of the instants only. */
  predicate SameClamps(fs: seq<CompiledFilter>, now: Instant, gs: seq<CompiledFilter>, later: Instant)
    requires |fs| == |gs|
  {
    forall i :: 0 <= i < |fs| ==> (ServedClamped(fs[i].view, now) <==> ServedClamped(gs[i].view, later))
  }

  lemma ViewWarningsAlike(v: View, now: Instant, w: View, later: Instant)
    requires v.name == w.name && (Unsynced(v) <==> Unsynced(w))
    ensures ViewWarnings(v, now) == ViewWarnings(w, later) <==> (ServedClamped(v, now) <==> ServedClamped(w, later))
  {
    if ViewWarnings(v, now) == ViewWarnings(w, later) {
      assert |ViewWarnings(v, now)| == |ViewWarnings(w, later)|;
    }
  }

  /** No filter behind bears the name. */
  predicate NamedOnce(fs: seq<CompiledFilter>)
  {
    forall i, j :: 0 <= i < j < |fs| ==> fs[i].name != fs[j].name
  }

  lemma {:induction false} WarningsNamed(fs: seq<CompiledFilter>, now: Instant, w: Warning)
    requires w in FilterWarnings(fs, now) && forall i :: 0 <= i < |fs| ==> fs[i].view.name == fs[i].name
    ensures w.path.ViewPath? && exists i :: 0 <= i < |fs| && fs[i].name == w.path.filter
  {
    if w in ViewWarnings(fs[0].view, now) {
      assert fs[0].name == w.path.filter;
    } else {
      WarningsNamed(fs[1..], now, w);
      var i :| 0 <= i < |fs[1..]| && fs[1..][i].name == w.path.filter;
      assert fs[i + 1].name == w.path.filter;
    }
  }

  lemma SharedMember<T>(a: seq<T>, x: seq<T>, b: seq<T>, y: seq<T>)
    requires a + x == b + y && |a| < |b|
    ensures exists w :: w in x && w in b
  {
    assert |a + x| == |b + y|;
    assert (a + x)[|a|] == x[0] && (b + y)[|a|] == b[|a|];
    assert x[0] in x && x[0] in b;
  }

  /** Two lists that start with one filter's warnings and go on without it split at
      the same place. */
  lemma SplitByName(a: seq<Warning>, x: seq<Warning>, b: seq<Warning>, y: seq<Warning>, name: string)
    requires a + x == b + y
    requires forall w :: w in a || w in b ==> w.path == ViewPath(name)
    requires forall w :: w in x || w in y ==> w.path != ViewPath(name)
    ensures a == b && x == y
  {
    if |a| < |b| {
      SharedMember(a, x, b, y);
    } else if |b| < |a| {
      SharedMember(b, y, a, x);
    } else {
      assert a == (a + x)[..|a|] && b == (b + y)[..|b|] && x == (a + x)[|a|..] && y == (b + y)[|b|..];
    }
  }

  /** Two compiles have the same warnings, paths and all, if and only if no view's
      served time is clamped at one of the two instants only. */
  lemma {:induction false} FilterWarningsAlike(
    fs: seq<CompiledFilter>, now: Instant, gs: seq<CompiledFilter>, later: Instant)
    requires SameFilters(fs, gs) && NamedOnce(fs)
    ensures FilterWarnings(fs, now) == FilterWarnings(gs, later) <==> SameClamps(fs, now, gs, later)
  {
    hide ServedClamped;
    if fs != [] {
      FilterWarningsAlike(fs[1..], now, gs[1..], later);
      ViewWarningsAlike(fs[0].view, now, gs[0].view, later);
      assert SameClamps(fs, now, gs, later) <==>
             (ServedClamped(fs[0].view, now) <==> ServedClamped(gs[0].view, later)) &&
             SameClamps(fs[1..], now, gs[1..], later) by { ClampsSplit(fs, now, gs, later); }
      if FilterWarnings(fs, now) == FilterWarnings(gs, later) {
        OthersNamed(fs, now);
        OthersNamed(gs, later);
        SplitByName(ViewWarnings(fs[0].view, now), FilterWarnings(fs[1..], now),
                    ViewWarnings(gs[0].view, later), FilterWarnings(gs[1..], later), fs[0].name);
      }
    }
  }

  lemma ClampsSplit(fs: seq<CompiledFilter>, now: Instant, gs: seq<CompiledFilter>, later: Instant)
    requires |fs| == |gs| > 0
    ensures SameClamps(fs, now, gs, later) <==>
            (ServedClamped(fs[0].view, now) <==> ServedClamped(gs[0].view, later)) &&
            SameClamps(fs[1..], now, gs[1..], later)
  {
    hide ServedClamped;
    if SameClamps(fs[1..], now, gs[1..], later) &&
       (ServedClamped(fs[0].view, now) <==> ServedClamped(gs[0].view, later)) {
      forall i | 0 <= i < |fs|
        ensures ServedClamped(fs[i].view, now) <==> ServedClamped(gs[i].view, later)
      {
        if i > 0 {
          assert fs[i] == fs[1..][i - 1] && gs[i] == gs[1..][i - 1];
        }
      }
    }
    if SameClamps(fs, now, gs, later) {
      forall i | 0 <= i < |fs[1..]|
        ensures ServedClamped(fs[1..][i].view, now) <==> ServedClamped(gs[1..][i].view, later)
      {
        assert fs[1..][i] == fs[i + 1] && gs[1..][i] == gs[i + 1];
      }
    }
  }

  lemma OthersNamed(fs: seq<CompiledFilter>, now: Instant)
    requires fs != [] && NamedOnce(fs) && forall i :: 0 <= i < |fs| ==> fs[i].view.name == fs[i].name
    ensures forall w :: w in ViewWarnings(fs[0].view, now) ==> w.path == ViewPath(fs[0].name)
    ensures forall w :: w in FilterWarnings(fs[1..], now) ==> w.path != ViewPath(fs[0].name)
  {
    forall w | w in FilterWarnings(fs[1..], now)
      ensures w.path != ViewPath(fs[0].name)
    {
      WarningsNamed(fs[1..], now, w);
    }
  }

  lemma Cancel<T>(p: seq<T>, x: seq<T>, y: seq<T>, o: seq<T>)
    ensures p + x + o == p + y + o <==> x == y
  {
    if p + x + o == p + y + o {
      assert |p + x + o| == |p + y + o|;
      assert x == (p + x + o)[|p|..|p| + |x|] && y == (p + y + o)[|p|..|p| + |y|];
    }
  }

  /** And so do whole snapshots. */
  lemma WarningsAlike(
    st: State, fs: seq<CompiledFilter>, now: Instant, gs: seq<CompiledFilter>, later: Instant)
    requires SameFilters(fs, gs) && NamedOnce(fs)
    ensures CompileWarnings(st, fs, now) == CompileWarnings(st, gs, later) <==> SameClamps(fs, now, gs, later)
  {
    hide *;
    FilterWarningsAlike(fs, now, gs, later);
    SameOverlaps(fs, gs, 0);
    WarningsAre(st, fs, now);
    WarningsAre(st, gs, later);
    Cancel(AllowlistWarnings(st), FilterWarnings(fs, now), FilterWarnings(gs, later), OverlapsFrom(fs, 0));
  }

  lemma WarningsAre(st: State, fs: seq<CompiledFilter>, now: Instant)
    ensures CompileWarnings(st, fs, now) == AllowlistWarnings(st) + FilterWarnings(fs, now) + OverlapsFrom(fs, 0)
  {
  }

  // ----- without the paths

  lemma NoticesAdd(x: seq<Warning>, y: seq<Warning>)
    ensures Notices(x + y) == Notices(x) + Notices(y)
  {
  }

  /** One more if the view is clamped. */
  function Marked(v: View, now: Instant, a: nat): nat { a + if ServedClamped(v, now) then 1 else 0 }

  /** Counting the clamped views from a and b on, the counts agree at every view that
      warns of its stratum, and at the end. */
  predicate CountsAgree(
    fs: seq<CompiledFilter>, now: Instant, gs: seq<CompiledFilter>, later: Instant, a: nat, b: nat)
    requires |fs| == |gs|
  {
    if fs == [] then a == b
    else
      var a1, b1 := Marked(fs[0].view, now, a), Marked(gs[0].view, later, b);
      (Unsynced(fs[0].view) ==> a1 == b1) && CountsAgree(fs[1..], now, gs[1..], later, a1, b1)
  }

  function Clamps(n: nat): seq<Notice> { seq(n, i requires 0 <= i < n => ServedTimeClamped) }

  /** One view's notices behind a clamped ones. */
  lemma ViewNotices(v: View, now: Instant, a: nat, rest: seq<Notice>)
    ensures Clamps(a) + (Notices(ViewWarnings(v, now)) + rest) ==
            Clamps(Marked(v, now, a)) + ((if Unsynced(v) then [UnsyncStratum] else []) + rest)
  {
    var c: seq<Warning> := if ServedClamped(v, now) then [Warning(ViewPath(v.name), ServedTimeClamped)] else [];
    var u: seq<Warning> := if Unsynced(v) then [Warning(ViewPath(v.name), UnsyncStratum)] else [];
    NoticesAdd(c, u);
    assert Clamps(a) + Notices(c) == Clamps(Marked(v, now, a));
    assert Notices(u) == if Unsynced(v) then [UnsyncStratum] else [];
    assert Clamps(a) + (Notices(c) + Notices(u) + rest) == (Clamps(a) + Notices(c)) + (Notices(u) + rest);
  }

  lemma ClampsSplitAt(a: nat, x: seq<Notice>, b: nat, y: seq<Notice>)
    ensures Clamps(a) + ([UnsyncStratum] + x) == Clamps(b) + ([UnsyncStratum] + y) <==> a == b && x == y
  {
    var l, r := Clamps(a) + ([UnsyncStratum] + x), Clamps(b) + ([UnsyncStratum] + y);
    if l == r {
      FirstUnsync(a, x, b);
      FirstUnsync(b, y, a);
      assert x == l[a + 1..] && y == r[b + 1..];
    }
  }

  /** The first notice that is not about clamping stands behind those that are. */
  lemma FirstUnsync(a: nat, x: seq<Notice>, n: nat)
    ensures var l := Clamps(a) + ([UnsyncStratum] + x);
            n < |l| && l[n] == UnsyncStratum ==> a <= n
    ensures a < |Clamps(a) + ([UnsyncStratum] + x)| && (Clamps(a) + ([UnsyncStratum] + x))[a] == UnsyncStratum
  {
  }

  lemma {:induction false} NoticesAgree(
    fs: seq<CompiledFilter>, now: Instant, gs: seq<CompiledFilter>, later: Instant, a: nat, b: nat)
    requires SameFilters(fs, gs)
    ensures Clamps(a) + Notices(FilterWarnings(fs, now)) == Clamps(b) + Notices(FilterWarnings(gs, later)) <==>
            CountsAgree(fs, now, gs, later, a, b)
  {
    hide ServedClamped, ViewWarnings, Notices, Clamps;
    if fs == [] {
      ClampsCount(a, b);
    } else {
      var v, w := fs[0].view, gs[0].view;
      var x, y := Notices(FilterWarnings(fs[1..], now)), Notices(FilterWarnings(gs[1..], later));
      var a1, b1 := Marked(v, now, a), Marked(w, later, b);
      NoticesAdd(ViewWarnings(v, now), FilterWarnings(fs[1..], now));
      NoticesAdd(ViewWarnings(w, later), FilterWarnings(gs[1..], later));
      ViewNotices(v, now, a, x);
      ViewNotices(w, later, b, y);
      NoticesAgree(fs[1..], now, gs[1..], later, a1, b1);
      assert [] + x == x && [] + y == y;
      if Unsynced(v) {
        ClampsSplitAt(a1, x, b1, y);
        Cancel(Clamps(a1), x, y, []);
        assert Clamps(a1) + x + [] == Clamps(a1) + x && Clamps(a1) + y + [] == Clamps(a1) + y;
      }
    }
  }

  lemma ClampsCount(a: nat, b: nat)
    ensures Clamps(a) + Notices([]) == Clamps(b) + Notices([]) <==> a == b
  {
    assert |Clamps(a) + Notices([])| == a && |Clamps(b) + Notices([])| == b;
  }

  /** What a plan shows of the warnings, without the paths, is the same if and only if
      those counts of clamped views agree; in particular if no view is clamped at one
      of the instants only. */
  lemma NoticesAlike(st: State, fs: seq<CompiledFilter>, now: Instant, gs: seq<CompiledFilter>, later: Instant)
    requires SameFilters(fs, gs)
    ensures Notices(CompileWarnings(st, fs, now)) == Notices(CompileWarnings(st, gs, later)) <==>
            CountsAgree(fs, now, gs, later, 0, 0)
    ensures SameClamps(fs, now, gs, later) ==> CountsAgree(fs, now, gs, later, 0, 0)
  {
    assert |fs| == |gs|;
    hide *;
    SameOverlaps(fs, gs, 0);
    NoticesAre(st, fs, now);
    NoticesAre(st, gs, later);
    NoticesAgree(fs, now, gs, later, 0, 0);
    var x, y := Notices(FilterWarnings(fs, now)), Notices(FilterWarnings(gs, later));
    NoClamps(x);
    NoClamps(y);
    Cancel(Notices(AllowlistWarnings(st)), x, y, Notices(OverlapsFrom(fs, 0)));
    SameCounts(fs, now, gs, later, 0);
  }

  lemma NoClamps(x: seq<Notice>)
    ensures Clamps(0) + x == x
  {
  }

  lemma NoticesAre(st: State, fs: seq<CompiledFilter>, now: Instant)
    ensures Notices(CompileWarnings(st, fs, now)) ==
            Notices(AllowlistWarnings(st)) + Notices(FilterWarnings(fs, now)) + Notices(OverlapsFrom(fs, 0))
  {
    NoticesAdd(AllowlistWarnings(st) + FilterWarnings(fs, now), OverlapsFrom(fs, 0));
    NoticesAdd(AllowlistWarnings(st), FilterWarnings(fs, now));
    hide Notices;
  }

  lemma {:induction false} SameCounts(
    fs: seq<CompiledFilter>, now: Instant, gs: seq<CompiledFilter>, later: Instant, a: nat)
    requires |fs| == |gs|
    ensures SameClamps(fs, now, gs, later) ==> CountsAgree(fs, now, gs, later, a, a)
  {
    hide ServedClamped;
    if fs != [] && SameClamps(fs, now, gs, later) {
      ClampsSplit(fs, now, gs, later);
      SameCounts(fs[1..], now, gs[1..], later, Marked(fs[0].view, now, a));
    }
  }
}
