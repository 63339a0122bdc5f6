/** internal/compiler/compile.go: from a document to a snapshot. */
module Compiler {
  import opened Wrappers
  import opened Address
  import opened View
  import opened Model
  import opened Validate
  import opened Snapshot
  import opened Warnings

  /** internal/domainerr, reduced to the codes the pipeline tells apart. */
  datatype Error = ValidationFailed | NotFound | RevisionConflict | IdempotencyConflict | Internal

  /** What the compiler takes from outside: the text parsers, the validators this
      model does not spell out, and the content hash of a normalized document. */
  datatype Env = Env(ps: Parsers, otherwiseValid: State -> bool, revision: State -> string)

  predicate ValidNtp(ps: Parsers, n: Ntp)
  {
    && n.serveMode in {"", "unicast"}
    && !n.nts
    && n.restrict.default in {"", "serve", "limited", "ignore"}
    && (forall i :: 0 <= i < |n.versions| ==> n.versions[i] in {3, 4})
    && (forall i, j :: 0 <= i < j < |n.versions| ==> n.versions[i] != n.versions[j])
    && n.admission.maxPacketsPerSec >= 1 && n.admission.maxPacketsPerIp >= 1
    && 1 <= n.queryLogSize <= MAX_QUERY_LOG
    && (n.allowClientCidrs.Some? ==>
          forall i :: 0 <= i < |n.allowClientCidrs.value| ==> ps.prefix(n.allowClientCidrs.value[i]).Some?)
  }

  predicate ValidState(env: Env, st: State)
  {
    ValidFilters(env.ps, st.filters) && ValidNtp(env.ps, st.ntp) && env.otherwiseValid(st)
  }

  /** The compile instant, the new generation and the snapshot being replaced. */
  datatype Context = Context(now: Instant, generation: nat, previous: Option<Snapshot>)

  // ----- one view

  function LookupView(fs: seq<CompiledFilter>, name: string): Option<View>
  {
    if fs == [] then None else if fs[0].name == name then Some(fs[0].view) else LookupView(fs[1..], name)
  }

  function PreviousView(prev: Option<Snapshot>, name: string): Option<View>
  {
    if prev.None? then None else LookupView(prev.value.filters, name)
  }

  function LookupFilter(fs: seq<Filter>, name: string): Option<Filter>
  {
    if fs == [] then None else if fs[0].name == name then Some(fs[0]) else LookupFilter(fs[1..], name)
  }

  function PreviousEpoch(prev: Option<Snapshot>, name: string): string
  {
    if prev.None? then ""
    else
      var f := LookupFilter(prev.value.canonical.filters, name);
      if f.None? then "" else f.value.view.epoch
  }

  predicate RateEqual(prev: Option<View>, rate: Option<real>)
  {
    prev.Some? && prev.value.hasRate && rate.Some? && prev.value.rate == rate.value
  }

  /** The virtual anchor, the monotonic anchor and the wall anchor of a view. */
  datatype Epoch = Epoch(virtual: int, mono: Instant, wall: int)

  function AnchorAt(now: Instant, virtual: int): Epoch { Epoch(virtual, now, now.wall) }

  function Anchor(t: Option<int>, now: Instant): Option<Epoch>
  {
    if t.None? then None else Some(AnchorAt(now, t.value))
  }

  function RateEpoch(ps: Parsers, f: Filter, ctx: Context): Option<Epoch>
  {
    var prev := PreviousView(ctx.previous, f.name);
    var sameRate := RateEqual(prev, f.view.rate);
    var sameEpoch := prev.Some? && PreviousEpoch(ctx.previous, f.name) == f.view.epoch;
    if sameRate && sameEpoch then
      Some(Epoch(prev.value.epochVirtual, prev.value.epochMono, prev.value.epochWall))
    else if f.view.epoch != "" then
      Anchor(ps.time(f.view.epoch), ctx.now)
    else if prev.Some? && prev.value.hasRate && !sameRate then
      Some(AnchorAt(ctx.now, Served(prev.value, ctx.now)))
    else
      Some(AnchorAt(ctx.now, ctx.now.wall))
  }

  function ViewEpoch(ps: Parsers, f: Filter, ctx: Context): Option<Epoch>
  {
    match f.view.mode
    case FollowReal => Some(AnchorAt(ctx.now, ctx.now.wall))
    case Offset => Some(AnchorAt(ctx.now, ctx.now.wall + f.view.offset))
    case Absolute => Anchor(ps.time(f.view.absolute), ctx.now)
    case Freeze => Anchor(ps.time(f.view.freezeAt), ctx.now)
    case Rate => RateEpoch(ps, f, ctx)
    case OtherMode(_) => Some(AnchorAt(ctx.now, 0))
  }

  function CompileView(ps: Parsers, f: Filter, ctx: Context): Option<View>
  {
    var v, e := f.view, ViewEpoch(ps, f, ctx);
    if e.None? then None
    else
      Some(View(
        f.name, ctx.generation, v.mode, v.offset,
        if v.mode.Absolute? then e.value.virtual else 0,
        if v.mode.Freeze? then e.value.virtual else 0,
        if v.rate.Some? then v.rate.value else 0.0, v.rate.Some?,
        e.value.virtual, e.value.mono, e.value.wall,
        v.leap, v.stratum, v.refId, v.precision, v.rootDelay, v.rootDispersion, v.jitter, v.minPoll, v.maxPoll))
  }

  // ----- the filter list

  function ParsePrefixes(ps: Parsers, cidrs: seq<string>): Option<seq<Prefix>>
  {
    if cidrs == [] then Some([])
    else
      var p, rest := ps.prefix(cidrs[0]), ParsePrefixes(ps, cidrs[1..]);
      if p.None? || rest.None? then None else Some([p.value] + rest.value)
  }

  function CompileFilter(ps: Parsers, f: Filter, ctx: Context): Option<CompiledFilter>
  {
    var p, v := ParsePrefixes(ps, f.Cidrs()), CompileView(ps, f, ctx);
    if p.None? || v.None? then None else Some(CompiledFilter(f.name, f.enabled, p.value, v.value))
  }

  function CompileFilters(ps: Parsers, fs: seq<Filter>, ctx: Context): Option<seq<CompiledFilter>>
  {
    if fs == [] then Some([])
    else
      var c, rest := CompileFilter(ps, fs[0], ctx), CompileFilters(ps, fs[1..], ctx);
      if c.None? || rest.None? then None else Some([c.value] + rest.value)
  }

  // ----- the whole document

  function CompileAllow(ps: Parsers, cidrs: Option<seq<string>>): Option<(seq<Prefix>, bool)>
  {
    if cidrs == Some([]) then Some(([], true))
    else
      var p := ParsePrefixes(ps, if cidrs.Some? then cidrs.value else []);
      if p.None? then None else Some((p.value, false))
  }

  /** keyFile is what reading the configured key file yields; it is looked at
      only when a file is configured. */
  function Compile(env: Env, st: State, boot: string, ctx: Context, keyFile: Option<KeyTable>): Result<Snapshot, Error>
  {
    var n := Normalize(st);
    if !ValidState(env, n) then Failure(ValidationFailed)
    else
      var filters := CompileFilters(env.ps, n.filters, ctx);
      var allow := CompileAllow(env.ps, n.ntp.allowClientCidrs);
      if filters.None? then Failure(Internal)
      else if allow.None? then Failure(ValidationFailed)
      else if n.ntp.keysFile != "" && keyFile.None? then Failure(ValidationFailed)
      else
        var rev := env.revision(n);
        Success(Snapshot(
          n, rev, if boot == "" then rev else boot, ctx.generation, ctx.now,
          n.listeners.ntp, n.listeners.management,
          (set v | v in n.ntp.versions), allow.value.0, allow.value.1, n.ntp.restrict.default, n.ntp.restrict.kod,
          n.ntp.admission.maxPacketsPerSec, n.ntp.admission.maxPacketsPerIp, n.ntp.queryLogSize,
          filters.value, if n.ntp.keysFile == "" then None else keyFile,
          CompileWarnings(st, filters.value, ctx.now)))
  }

  // ----- the loops of the source

  function Then<T>(acc: seq<T>, rest: Option<seq<T>>): Option<seq<T>>
  {
    if rest.None? then None else Some(acc + rest.value)
  }

  lemma ThenCons<T>(acc: seq<T>, x: T, rest: Option<seq<T>>)
    ensures Then(acc + [x], rest) == Then(acc, if rest.None? then None else Some([x] + rest.value))
  {
    if rest.Some? {
      assert acc + [x] + rest.value == acc + ([x] + rest.value);
    }
  }

  lemma ThenEnds<T>(acc: seq<T>, rest: Option<seq<T>>)
    ensures Then([], rest) == rest && Then(acc, Some([])) == Some(acc)
  {
    assert acc + [] == acc;
    if rest.Some? {
      assert [] + rest.value == rest.value;
    }
  }

  method BuildPrefixes(ps: Parsers, cidrs: seq<string>) returns (out: Option<seq<Prefix>>)
    ensures out == ParsePrefixes(ps, cidrs)
  {
    var acc: seq<Prefix> := [];
    assert cidrs[0..] == cidrs;
    ThenEnds(acc, ParsePrefixes(ps, cidrs));
    for j := 0 to |cidrs|
      invariant Then(acc, ParsePrefixes(ps, cidrs[j..])) == ParsePrefixes(ps, cidrs)
    {
      assert cidrs[j..][1..] == cidrs[j + 1..];
      var p := ps.prefix(cidrs[j]);
      if p.None? {
        return None;
      }
      ThenCons(acc, p.value, ParsePrefixes(ps, cidrs[j + 1..]));
      acc := acc + [p.value];
    }
    ThenEnds(acc, None);
    out := Some(acc);
  }

  lemma {:induction false} WarningsAppend(fs: seq<CompiledFilter>, c: CompiledFilter, now: Instant)
    ensures FilterWarnings(fs + [c], now) == FilterWarnings(fs, now) + ViewWarnings(c.view, now)
  {
    hide ViewWarnings;
    if fs != [] {
      WarningsAppend(fs[1..], c, now);
      assert (fs + [c])[1..] == fs[1..] + [c];
    }
  }

  method BuildFilters(ps: Parsers, fs: seq<Filter>, ctx: Context)
    returns (out: Option<seq<CompiledFilter>>, warns: seq<Warning>)
    ensures out == CompileFilters(ps, fs, ctx)
    ensures out.Some? ==> warns == FilterWarnings(out.value, ctx.now)
  {
    hide CompileView, ViewWarnings;
    var acc: seq<CompiledFilter> := [];
    warns := [];
    assert fs[0..] == fs;
    ThenEnds(acc, CompileFilters(ps, fs, ctx));
    for i := 0 to |fs|
      invariant Then(acc, CompileFilters(ps, fs[i..], ctx)) == CompileFilters(ps, fs, ctx)
      invariant warns == FilterWarnings(acc, ctx.now)
    {
      assert fs[i..][1..] == fs[i + 1..];
      var prefixes := BuildPrefixes(ps, fs[i].Cidrs());
      if prefixes.None? {
        return None, [];
      }
      var v := CompileView(ps, fs[i], ctx);
      if v.None? {
        return None, [];
      }
      var c := CompiledFilter(fs[i].name, fs[i].enabled, prefixes.value, v.value);
      ThenCons(acc, c, CompileFilters(ps, fs[i + 1..], ctx));
      WarningsAppend(acc, c, ctx.now);
      acc, warns := acc + [c], warns + ViewWarnings(v.value, ctx.now);
    }
    ThenEnds(acc, None);
    out := Some(acc);
  }

  method PrefixesOverlap(a: seq<Prefix>, b: seq<Prefix>) returns (r: bool)
    ensures r <==> PrefixesMeet(a, b)
  {
    for i := 0 to |a|
      invariant forall x, y :: 0 <= x < i && 0 <= y < |b| ==> !Overlaps(a[x], b[y])
    {
      for j := 0 to |b|
        invariant forall y :: 0 <= y < j ==> !Overlaps(a[i], b[y])
      {
        if Overlaps(a[i], b[j]) {
          return true;
        }
      }
    }
    r := false;
  }

  method OverlapWarnings(fs: seq<CompiledFilter>) returns (ws: seq<Warning>)
    ensures ws == OverlapsFrom(fs, 0)
    ensures forall w :: w in ws <==> exists i: nat :: Warned(fs, i, w)
  {
    hide PrefixesMeet, Warned, OverlapOf;
    ws := [];
    for i := 0 to |fs|
      invariant ws + OverlapsFrom(fs, i) == OverlapsFrom(fs, 0)
    {
      var more := OverlapsBehind(fs, i);
      assert ws + more + OverlapsFrom(fs, i + 1) == ws + (more + OverlapsFrom(fs, i + 1));
      ws := ws + more;
    }
    forall w
      ensures w in ws <==> exists i: nat :: 0 <= i && Warned(fs, i, w)
    {
      OverlapsAre(fs, 0, w);
    }
  }

  /** The inner loop. */
  method OverlapsBehind(fs: seq<CompiledFilter>, i: nat) returns (ws: seq<Warning>)
    requires i < |fs|
    ensures ws == OverlapsWith(fs, i, i + 1)
  {
    hide PrefixesMeet, OverlapOf;
    ws := [];
    if !fs[i].enabled {
      DisabledOverlapsNone(fs, i, i + 1);
      return;
    }
    for j := i + 1 to |fs|
      invariant ws + OverlapsWith(fs, i, j) == OverlapsWith(fs, i, i + 1)
    {
      if fs[j].enabled {
        var o := PrefixesOverlap(fs[i].prefixes, fs[j].prefixes);
        if o {
          ws := ws + [OverlapOf(fs, i, j)];
        }
      }
    }
  }

  lemma {:induction false} DisabledOverlapsNone(fs: seq<CompiledFilter>, i: nat, j: nat)
    requires i < |fs| && j <= |fs| && !fs[i].enabled
    ensures OverlapsWith(fs, i, j) == []
    decreases |fs| - j
  {
    if j < |fs| {
      DisabledOverlapsNone(fs, i, j + 1);
    }
  }
}
