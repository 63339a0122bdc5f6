/** First-match filtering over compiled documents, and how edits change it. */
module Routing {
  import opened Wrappers
  import opened Address
  import opened Model
  import opened Validate
  import opened Snapshot
  import opened Compiler
  import opened Operations

  // ----- a document's filter and its compiled form match alike

  /** Whether a filter of the document is meant for an address. */
  predicate Meant(ps: Parsers, f: Filter, ip: Addr)
  {
    f.enabled && exists j :: 0 <= j < |f.Cidrs()| && ps.prefix(f.Cidrs()[j]).Some? &&
                   (Contains(ps.prefix(f.Cidrs()[j]).value, ip.Unmap()) || Contains(ps.prefix(f.Cidrs()[j]).value, ip))
  }

  /** The first filter of the document meant for an address. */
  function FirstMeant(ps: Parsers, fs: seq<Filter>, ip: Addr): (r: Option<nat>)
    ensures r.Some? ==> r.value < |fs| && Meant(ps, fs[r.value], ip)
    ensures forall j :: 0 <= j < (if r.Some? then r.value else |fs|) ==> !Meant(ps, fs[j], ip)
  {
    if fs == [] then None
    else if Meant(ps, fs[0], ip) then Some(0)
    else
      var r := FirstMeant(ps, fs[1..], ip);
      assert forall j :: 1 <= j < |fs| ==> fs[j] == fs[1..][j - 1];
      if r.None? then None else Some(r.value + 1)
  }

  lemma {:induction false} ParsedPrefixes(ps: Parsers, cidrs: seq<string>)
    requires ParsePrefixes(ps, cidrs).Some?
    ensures var p := ParsePrefixes(ps, cidrs).value;
            |p| == |cidrs| && forall j :: 0 <= j < |cidrs| ==> ps.prefix(cidrs[j]) == Some(p[j])
  {
    if cidrs != [] {
      ParsedPrefixes(ps, cidrs[1..]);
    }
  }

  lemma CompiledHits(ps: Parsers, f: Filter, ctx: Context, ip: Addr)
    requires CompileFilter(ps, f, ctx).Some?
    ensures Hits(CompileFilter(ps, f, ctx).value, ip) <==> Meant(ps, f, ip)
  {
    hide CompileView, Contains;
    ParsedPrefixes(ps, f.Cidrs());
    var p := ParsePrefixes(ps, f.Cidrs()).value;
    var c := CompileFilter(ps, f, ctx).value;
    if Meant(ps, f, ip) {
      var j :| 0 <= j < |f.Cidrs()| && ps.prefix(f.Cidrs()[j]).Some? &&
               (Contains(ps.prefix(f.Cidrs()[j]).value, ip.Unmap()) || Contains(ps.prefix(f.Cidrs()[j]).value, ip));
      assert Contains(p[j], ip.Unmap()) || Contains(p[j], ip);
    }
    if InPrefixes(c.prefixes, ip) {
      var j :| 0 <= j < |p| && (Contains(p[j], ip.Unmap()) || Contains(p[j], ip));
      assert ps.prefix(f.Cidrs()[j]) == Some(p[j]);
    }
  }

  lemma {:induction false} CompiledShape(ps: Parsers, fs: seq<Filter>, ctx: Context)
    requires CompileFilters(ps, fs, ctx).Some?
    ensures var cs := CompileFilters(ps, fs, ctx).value;
            |cs| == |fs| && forall i :: 0 <= i < |fs| ==> CompileFilter(ps, fs[i], ctx) == Some(cs[i])
  {
    hide CompileFilter;
    if fs != [] {
      CompiledShape(ps, fs[1..], ctx);
    }
  }

  /** Compiling changes no match: the filter that answers an address is the first
      one of the document meant for it. */
  lemma CompilePreservesMatch(ps: Parsers, fs: seq<Filter>, ctx: Context, ip: Addr)
    requires CompileFilters(ps, fs, ctx).Some?
    ensures Match(CompileFilters(ps, fs, ctx).value, ip) == FirstMeant(ps, fs, ip)
  {
    hide CompileFilter, Hits, Meant;
    CompiledShape(ps, fs, ctx);
    var cs := CompileFilters(ps, fs, ctx).value;
    forall i | 0 <= i < |fs|
      ensures Hits(cs[i], ip) <==> Meant(ps, fs[i], ip)
    {
      CompiledHits(ps, fs[i], ctx, ip);
    }
  }

  // ----- the catch-all rule makes matching total

  lemma DefaultRouteCovers(ps: Parsers, f: Filter, p: Prefix, ip: Addr)
    requires HasRoute(ps, f, p) && Contains(p, ip.Unmap())
    ensures Meant(ps, f, ip)
  {
  }

  lemma MeantIsRoutable(ps: Parsers, f: Filter, ip: Addr)
    requires Meant(ps, f, ip)
    ensures Routable(ip)
  {
  }

  /** On a list that passes validation exactly the routable addresses match. */
  lemma ValidListMatchesAll(ps: Parsers, fs: seq<Filter>, ip: Addr)
    requires ValidFilters(ps, fs)
    ensures FirstMeant(ps, fs, ip).Some? <==> Routable(ip)
  {
    var r := FirstMeant(ps, fs, ip);
    if Routable(ip) {
      DefaultsCover(ip.Unmap());
      var p := if Contains(V4_DEFAULT, ip.Unmap()) then V4_DEFAULT else V6_DEFAULT;
      var i :| 0 <= i < |fs| && HasRoute(ps, fs[i], p);
      DefaultRouteCovers(ps, fs[i], p, ip);
    }
    if r.Some? {
      MeantIsRoutable(ps, fs[r.value], ip);
    }
  }

  // ----- what an edit can change

  lemma {:induction false} FirstMeantIs(ps: Parsers, fs: seq<Filter>, ip: Addr, r: Option<nat>)
    requires r.Some? ==> r.value < |fs| && Meant(ps, fs[r.value], ip)
    requires forall j :: 0 <= j < (if r.Some? then r.value else |fs|) ==> !Meant(ps, fs[j], ip)
    ensures FirstMeant(ps, fs, ip) == r
  {
  }

  /** Upserting an existing name at index i: an address whose match comes before
      i keeps it; otherwise the new filter takes exactly the addresses meant for
      it, and the rest fall to the first filter behind i. An address meant for
      neither version keeps its match. */
  lemma UpsertExisting(ps: Parsers, fs: seq<Filter>, f: Filter, i: nat, ip: Addr)
    requires i < |fs| && fs[i].name == f.name && UniqueNames(fs)
    ensures var before, after := FirstMeant(ps, fs, ip), FirstMeant(ps, Upsert(fs, f), ip);
            (before.Some? && before.value < i ==> after == before) &&
            (!(before.Some? && before.value < i) && Meant(ps, f, ip) ==> after == Some(i)) &&
            (!(before.Some? && before.value < i) && !Meant(ps, f, ip) ==> after.None? || after.value > i)
    ensures !Meant(ps, fs[i], ip) && !Meant(ps, f, ip) ==> FirstMeant(ps, Upsert(fs, f), ip) == FirstMeant(ps, fs, ip)
  {
    hide Meant;
    UpsertAt(fs, f, i);
    var before, after := FirstMeant(ps, fs, ip), FirstMeant(ps, Upsert(fs, f), ip);
    var g := fs[i := f];
    assert forall k :: 0 <= k < |fs| && k != i ==> g[k] == fs[k];
    if before.Some? && before.value < i {
      FirstMeantIs(ps, g, ip, before);
    } else if Meant(ps, f, ip) {
      FirstMeantIs(ps, g, ip, Some(i));
    } else if !Meant(ps, fs[i], ip) {
      FirstMeantIs(ps, g, ip, before);
    }
  }

  /** A new name lands behind the catch-all and so changes no match at all. */
  lemma UpsertNewIsInert(ps: Parsers, fs: seq<Filter>, f: Filter, ip: Addr)
    requires ValidFilters(ps, fs) && !Named(fs, f.name)
    ensures FirstMeant(ps, Upsert(fs, f), ip) == FirstMeant(ps, fs, ip)
  {
    hide FirstMeant;
    UpsertNew(fs, f);
    ValidListMatchesAll(ps, fs, ip);
    assert forall k :: 0 <= k < |fs| ==> (fs + [f])[k] == fs[k];
    if FirstMeant(ps, fs, ip).None? && Meant(ps, f, ip) {
      MeantIsRoutable(ps, f, ip);
    }
    FirstMeantIs(ps, fs + [f], ip, FirstMeant(ps, fs, ip));
  }
}
