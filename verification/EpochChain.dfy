/** What a rate clock shows across live changes (ADR 0011): it never jumps, and it
    adds up every rate over the real time spent under it. */
module EpochChain {
  import opened Wrappers
  import opened NtpTime
  import opened View
  import opened Model
  import opened Validate
  import opened Snapshot
  import opened Warnings
  import opened Compiler

  // ----- finding a view again in the compiled list

  lemma {:induction false} LookupCompiled(ps: Parsers, fs: seq<Filter>, ctx: Context, name: string)
    requires CompileFilters(ps, fs, ctx).Some?
    ensures var f, v := LookupFilter(fs, name), LookupView(CompileFilters(ps, fs, ctx).value, name);
            (f.None? <==> v.None?) &&
            (f.Some? ==> f.value.name == name && CompileView(ps, f.value, ctx) == v)
  {
    hide CompileView;
    if fs != [] {
      LookupCompiled(ps, fs[1..], ctx, name);
    }
  }

  lemma LookupMaterialized(fs: seq<Filter>, name: string)
    ensures LookupFilter(MaterializeFilters(fs), name) ==
            match LookupFilter(fs, name)
            case None => None
            case Some(f) => Some(f.(view := MaterializeView(f.view)))
  {
    hide MaterializeView;
    if fs != [] {
      LookupMaterialized(fs[1..], name);
      assert MaterializeFilters(fs)[1..] == MaterializeFilters(fs[1..]);
    }
  }

  /** The document gives the named filter this rate and no epoch key. */
  predicate RateDocument(st: State, name: string, rate: real)
  {
    var f := LookupFilter(st.filters, name);
    f.Some? && f.value.view.mode == Rate && f.value.view.rate == Some(rate) && f.value.view.epoch == ""
  }

  /** The snapshot runs the named filter at this rate with no epoch key. */
  predicate Runs(s: Snapshot, name: string, rate: real)
  {
    RateDocument(s.canonical, name, rate) &&
    var v := LookupView(s.filters, name);
    v.Some? && v.value.mode == Rate && v.value.hasRate && v.value.rate == rate
  }

  function Clock(s: Snapshot, name: string): View
    requires LookupView(s.filters, name).Some?
  {
    LookupView(s.filters, name).value
  }

  function EpochOf(v: View): Epoch { Epoch(v.epochVirtual, v.epochMono, v.epochWall) }

  /** The compiled clock is a rate clock anchored where RateEpoch says. */
  lemma CompiledClock(
    env: Env, st: State, boot: string, ctx: Context, keyFile: Option<KeyTable>, name: string, rate: real)
    requires Compile(env, st, boot, ctx, keyFile).Success? && RateDocument(st, name, rate)
    ensures var s := Compile(env, st, boot, ctx, keyFile).value;
            Runs(s, name, rate) &&
            var f := LookupFilter(Normalize(st).filters, name).value;
            f.name == name && f.view.rate == Some(rate) && f.view.epoch == "" &&
            RateEpoch(env.ps, f, ctx) == Some(EpochOf(Clock(s, name)))
  {
    hide CompileWarnings, ValidState, CompileAllow, LookupView, RateEpoch;
    LookupMaterialized(st.filters, name);
    LookupCompiled(env.ps, Normalize(st).filters, ctx, name);
  }

  // ----- one change

  lemma SameEpochSameClock(v: View, w: View)
    requires v.mode == Rate && w.mode == Rate && v.rate == w.rate && EpochOf(v) == EpochOf(w)
    ensures forall t :: Served(w, t) == Served(v, t)
  {
  }

  lemma ServedAtAnchor(v: View)
    requires v.mode == Rate
    ensures Served(v, v.epochMono) == ClampServed(v.epochVirtual)
  {
  }

  /** Leaving the rate alone leaves the clock alone, at every instant past and
      future; changing it re-anchors the clock where it stood, so it is continuous
      at the instant of the change. */
  lemma ApplyKeepsClock(
    env: Env, prev: Snapshot, oldRate: real, st: State, boot: string, ctx: Context, keyFile: Option<KeyTable>,
    name: string, rate: real)
    requires Runs(prev, name, oldRate) && ctx.previous == Some(prev)
    requires Compile(env, st, boot, ctx, keyFile).Success? && RateDocument(st, name, rate)
    ensures var next := Compile(env, st, boot, ctx, keyFile).value;
            Runs(next, name, rate) &&
            var v, w := Clock(prev, name), Clock(next, name);
            (rate == oldRate ==> EpochOf(w) == EpochOf(v) && forall t :: Served(w, t) == Served(v, t)) &&
            (rate != oldRate ==> EpochOf(w) == AnchorAt(ctx.now, Served(v, ctx.now))) &&
            Served(w, ctx.now) == Served(v, ctx.now)
  {
    hide Compile, Normalize, LookupView;
    CompiledClock(env, st, boot, ctx, keyFile, name, rate);
    var v, w := Clock(prev, name), Clock(Compile(env, st, boot, ctx, keyFile).value, name);
    if rate == oldRate {
      SameEpochSameClock(v, w);
    } else {
      ServedAtAnchor(w);
    }
  }

  /** The view before had this rate and this epoch key. */
  predicate Unchanged(f: Filter, prev: Option<Snapshot>)
  {
    var v := PreviousView(prev, f.name);
    v.Some? && v.value.hasRate && f.view.rate == Some(v.value.rate) && PreviousEpoch(prev, f.name) == f.view.epoch
  }

  /** What a compiled rate view serves, whatever was there before it: with rate and key
      unchanged the old clock at every instant; else with a key the instant it names
      at the compile; else after a change of rate the time the old clock shows there,
      and after anything else the host's wall time. */
  lemma EveryRateCompile(ps: Parsers, f: Filter, ctx: Context)
    requires f.view.mode == Rate && CompileView(ps, f, ctx).Some?
    ensures var w, v := CompileView(ps, f, ctx).value, PreviousView(ctx.previous, f.name);
            if Unchanged(f, ctx.previous) then v.value.mode == Rate ==> forall t :: Served(w, t) == Served(v.value, t)
            else if f.view.epoch != "" then
              ps.time(f.view.epoch).Some? && Served(w, ctx.now) == ClampServed(ps.time(f.view.epoch).value)
            else if v.Some? && v.value.hasRate && f.view.rate != Some(v.value.rate) then
              Served(w, ctx.now) == Served(v.value, ctx.now)
            else Served(w, ctx.now) == ClampServed(ctx.now.wall)
  {
    hide Served, PreviousView, PreviousEpoch, ClampServed;
    var w, v := CompileView(ps, f, ctx).value, PreviousView(ctx.previous, f.name);
    if Unchanged(f, ctx.previous) {
      if v.value.mode == Rate {
        SameEpochSameClock(v.value, w);
      }
    } else {
      ServedAtAnchor(w);
      if v.Some? {
        ServedStays(v.value, ctx.now);
      }
    }
  }

  lemma ServedStays(v: View, t: Instant)
    ensures ClampServed(Served(v, t)) == Served(v, t)
  {
    hide ServedUnclamped;
  }

  /** The continuity has one exception: dropping an explicit epoch key while
      keeping the rate falls through to the default anchor, and the clock jumps
      to the host's wall time. */
  lemma DroppingEpochJumps(
    env: Env, prev: Snapshot, st: State, boot: string, ctx: Context, keyFile: Option<KeyTable>, name: string,
    rate: real)
    requires ctx.previous == Some(prev)
    requires LookupView(prev.filters, name).Some? && Clock(prev, name).mode == Rate && Clock(prev, name).hasRate
    requires Compile(env, st, boot, ctx, keyFile).Success? && RateDocument(st, name, rate)
    ensures var next := Compile(env, st, boot, ctx, keyFile).value;
            Runs(next, name, rate) &&
            var dropped := Clock(prev, name).rate == rate && PreviousEpoch(Some(prev), name) != "";
            Served(Clock(next, name), ctx.now) ==
            if dropped then ClampServed(ctx.now.wall) else Served(Clock(prev, name), ctx.now)
  {
    hide Compile, Normalize, LookupView;
    CompiledClock(env, st, boot, ctx, keyFile, name, rate);
    var v, w := Clock(prev, name), Clock(Compile(env, st, boot, ctx, keyFile).value, name);
    if v.rate == rate && PreviousEpoch(Some(prev), name) == "" {
      SameEpochSameClock(v, w);
    } else {
      ServedAtAnchor(w);
    }
  }

  // ----- whole chains

  /** One compile of the chain. */
  datatype Event = Event(st: State, boot: string, generation: nat, keyFile: Option<KeyTable>, now: Instant, rate: real)

  function Compiled(env: Env, ev: Event, prev: Option<Snapshot>): Result<Snapshot, Error>
  {
    Compile(env, ev.st, ev.boot, Context(ev.now, ev.generation, prev), ev.keyFile)
  }

  /** Every event compiles on top of the one before; the first one finds no rate
      clock of that name. */
  ghost predicate Chain(env: Env, name: string, first: Option<Snapshot>, evs: seq<Event>, snaps: seq<Snapshot>)
    decreases |evs|
  {
    && |evs| == |snaps| > 0
    && RateDocument(Last(evs).st, name, Last(evs).rate)
    && if |evs| == 1 then
         (PreviousView(first, name).None? || !PreviousView(first, name).value.hasRate) &&
         Compiled(env, evs[0], first) == Success(snaps[0])
       else
         Compiled(env, Last(evs), Some(snaps[|snaps| - 2])) == Success(Last(snaps)) &&
         Chain(env, name, first, evs[..|evs| - 1], snaps[..|snaps| - 1])
  }

  function Last<T>(s: seq<T>): T requires s != [] { s[|s| - 1] }

  /** The ideal clock: initial wall time plus each rate times the real time spent
      under it, with no rounding. */
  ghost function Ideal(evs: seq<Event>, t: Instant): real
    requires evs != []
  {
    (if |evs| == 1 then evs[0].now.wall as real else Ideal(evs[..|evs| - 1], Last(evs).now))
    + Scaled(t.mono - Last(evs).now.mono, Last(evs).rate)
  }

  /** How often the rate actually changed. */
  function Changes(evs: seq<Event>): nat
    requires evs != []
  {
    if |evs| == 1 then 0
    else Changes(evs[..|evs| - 1]) + if Last(evs).rate != evs[|evs| - 2].rate then 1 else 0
  }

  /** Unclipped at every change of the chain. */
  ghost predicate Unbroken(name: string, evs: seq<Event>, snaps: seq<Snapshot>)
    requires |evs| == |snaps| > 0
    decreases |evs|
  {
    |evs| == 1 ||
    (LookupView(snaps[|snaps| - 2].filters, name).Some? &&
     Unclipped(Clock(snaps[|snaps| - 2], name), Last(evs).now) &&
     Unbroken(name, evs[..|evs| - 1], snaps[..|snaps| - 1]))
  }

  lemma TruncateNear(x: real)
    ensures x - 1.0 < Truncate(x) as real < x + 1.0
  {
  }

  /** The anchor of a clock lies near the ideal line, and the ideal line runs on
      from there at the clock's rate. */
  ghost predicate OnIdeal(v: View, evs: seq<Event>)
    requires evs != []
  {
    && -(Changes(evs) as real) <= v.epochVirtual as real - Ideal(evs, v.epochMono) <= Changes(evs) as real
    && forall t :: Ideal(evs, t) == Ideal(evs, v.epochMono) + Scaled(t.mono - v.epochMono.mono, Last(evs).rate)
  }

  lemma IdealFirst(v: View, ev: Event)
    requires EpochOf(v) == AnchorAt(ev.now, ev.now.wall)
    ensures OnIdeal(v, [ev])
  {
  }

  lemma IdealStep(evs: seq<Event>, t: Instant)
    requires |evs| > 1
    ensures Ideal(evs, t) ==
            Ideal(evs[..|evs| - 1], Last(evs).now) + Scaled(t.mono - Last(evs).now.mono, Last(evs).rate)
  {
  }

  lemma IdealKept(v: View, evs: seq<Event>)
    requires |evs| > 1 && OnIdeal(v, evs[..|evs| - 1]) && Last(evs).rate == evs[|evs| - 2].rate
    ensures OnIdeal(v, evs)
  {
    hide Ideal, Scaled;
    var init, now, rate := evs[..|evs| - 1], Last(evs).now, Last(evs).rate;
    assert Last(init).rate == rate;
    forall t: Instant
      ensures Ideal(evs, t) == Ideal(init, t)
    {
      IdealStep(evs, t);
      ScaledSplits(now.mono - v.epochMono.mono, t.mono - now.mono, rate);
    }
  }

  lemma IdealMoved(v: View, w: View, evs: seq<Event>)
    requires |evs| > 1 && OnIdeal(v, evs[..|evs| - 1]) && Last(evs).rate != evs[|evs| - 2].rate
    requires v.mode == Rate && v.rate == evs[|evs| - 2].rate && Unclipped(v, Last(evs).now)
    requires EpochOf(w) == AnchorAt(Last(evs).now, Served(v, Last(evs).now))
    ensures OnIdeal(w, evs)
  {
    var init, now, rate := evs[..|evs| - 1], Last(evs).now, Last(evs).rate;
    UnclippedServed(v, now);
    hide Ideal, Unclipped, Served;
    var x := Scaled(now.mono - v.epochMono.mono, v.rate);
    TruncateNear(x);
    assert Ideal(init, now) == Ideal(init, v.epochMono) + x;
    assert Scaled(0, rate) == 0.0;
    IdealStep(evs, now);
    forall t: Instant
      ensures Ideal(evs, t) == Ideal(evs, now) + Scaled(t.mono - now.mono, rate)
    {
      IdealStep(evs, t);
    }
    hide Scaled, Truncate;
  }

  lemma {:induction false} ChainOnIdeal(
    env: Env, name: string, first: Option<Snapshot>, evs: seq<Event>, snaps: seq<Snapshot>)
    requires Chain(env, name, first, evs, snaps) && Unbroken(name, evs, snaps)
    ensures Runs(Last(snaps), name, Last(evs).rate) && OnIdeal(Clock(Last(snaps), name), evs)
    decreases |evs|
  {
    hide Compile, Normalize, OnIdeal, Unclipped, RateDocument, Served;
    var ev, n := Last(evs), |evs|;
    var prev := if n == 1 then first else Some(snaps[n - 2]);
    var ctx := Context(ev.now, ev.generation, prev);
    CompiledClock(env, ev.st, ev.boot, ctx, ev.keyFile, name, ev.rate);
    if n == 1 {
      IdealFirst(Clock(snaps[0], name), ev);
      assert evs == [ev];
    } else {
      ChainOnIdeal(env, name, first, evs[..n - 1], snaps[..n - 1]);
      ApplyKeepsClock(env, snaps[n - 2], evs[n - 2].rate, ev.st, ev.boot, ctx, ev.keyFile, name, ev.rate);
      var v, w := Clock(snaps[n - 2], name), Clock(Last(snaps), name);
      if ev.rate == evs[n - 2].rate {
        IdealKept(v, evs);
        SameAnchorOnIdeal(v, w, evs);
      } else {
        IdealMoved(v, w, evs);
      }
    }
  }

  lemma SameAnchorOnIdeal(v: View, w: View, evs: seq<Event>)
    requires evs != [] && OnIdeal(v, evs) && EpochOf(v) == EpochOf(w)
    ensures OnIdeal(w, evs)
  {
  }

  lemma ReadNearIdeal(v: View, evs: seq<Event>, t: Instant)
    requires evs != [] && OnIdeal(v, evs) && v.mode == Rate && v.rate == Last(evs).rate && Unclipped(v, t)
    ensures var slack := (Changes(evs) + 1) as real;
            Ideal(evs, t) - slack < Served(v, t) as real < Ideal(evs, t) + slack
  {
    UnclippedServed(v, t);
    hide Served, Unclipped, Ideal, Changes;
    var x := Scaled(t.mono - v.epochMono.mono, v.rate);
    TruncateNear(x);
    assert Ideal(evs, t) == Ideal(evs, v.epochMono) + x;
    hide Scaled, Truncate;
  }

  /** After any chain of changes that keep the filter a rate filter with no epoch
      key, and while nothing is clipped, the served time at every instant is the
      initial wall time plus each rate times the real time spent under it, within
      one nanosecond for each stretch of constant rate; on the way the clock never
      jumped. */
  lemma ServedSumsRates(
    env: Env, name: string, first: Option<Snapshot>, evs: seq<Event>, snaps: seq<Snapshot>, t: Instant)
    requires Chain(env, name, first, evs, snaps) && Unbroken(name, evs, snaps)
    requires LookupView(Last(snaps).filters, name).Some? && Unclipped(Clock(Last(snaps), name), t)
    ensures var served := Served(Clock(Last(snaps), name), t) as real;
            var slack := (Changes(evs) + 1) as real;
            Ideal(evs, t) - slack < served < Ideal(evs, t) + slack
  {
    ChainOnIdeal(env, name, first, evs, snaps);
    ReadNearIdeal(Clock(Last(snaps), name), evs, t);
  }
}
