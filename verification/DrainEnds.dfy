/** Nothing in the drain protocol goes on forever: every step of a goroutine brings it
    nearer its end, so every drain that has started also ends. */
module DrainEnds {
  import opened Wrappers
  import opened Drain

  // ----- a measure

  /** A Shutdown that has yet to look at the slice can still come to wait for any
      number of drains. */
  function Early(pc: Pc): nat { if BeforeSnapshot(pc) then 1 else 0 }

  /** Steps a goroutine and those it starts can still take. */
  function Rank(pc: Pc): nat
  {
    match pc
    case RebindCheck(_) => 10
    case RebindListen(_) => 9
    case RebindSwap(_) => 8
    case RebindDrain(_, _, _) => 7
    case RebindAwait(_, _) => 1
    case RebindDone(_, _) => 0
    case DrainShut(_, _) => 5
    case DrainWait(_, _) => 3
    case FinishRemove(_, _) => 2
    case FinishClose(_, _) => 1
    case DrainDone => 0
    case Hook(_) => 1
    case HookDone => 0
    case ShutMark => 6
    case ShutRead => 5
    case ShutServer(_, _) => 4
    case ShutCall(_) => 2
    case ShutSnap(_) => 1
    case ShutWait(_, pending, _) => |pending| + 1
    case ShutDone(_, _) => 0
  }

  function Total(w: Pc -> nat, threads: map<Id, Pc>, n: nat): nat
  {
    if n == 0 then 0 else Total(w, threads, n - 1) + if n - 1 in threads then w(threads[n - 1]) else 0
  }

  lemma {:induction false} TotalSet(w: Pc -> nat, threads: map<Id, Pc>, n: nat, t: Id, pc: Pc)
    ensures t >= n ==> Total(w, threads[t := pc], n) == Total(w, threads, n)
    ensures t < n ==>
              Total(w, threads[t := pc], n) ==
              Total(w, threads, n) + w(pc) - if t in threads then w(threads[t]) else 0
  {
    if n > 0 {
      TotalSet(w, threads, n - 1, t, pc);
    }
  }

  lemma {:induction false} TotalBeyond(w: Pc -> nat, threads: map<Id, Pc>, m: nat, n: nat)
    requires m <= n && forall t :: t in threads ==> t < m
    ensures Total(w, threads, n) == Total(w, threads, m)
  {
    if m < n {
      TotalBeyond(w, threads, m, n - 1);
    }
  }

  // ----- every step decreases it

  /** The goroutine's own next place, and the goroutine it started, if any. */
  ghost predicate Moved(s: State, s': State, t: Id, pc: Pc, child: Option<Pc>)
  {
    s.next <= s'.next &&
    if child.None? then s'.threads == s.threads[t := pc]
    else s'.threads == s.threads[t := pc][s.next := child.value] && s'.next > s.next
  }

  ghost predicate Lighter(was: Pc, pc: Pc, child: Option<Pc>)
  {
    (Early(pc) < Early(was) && child.None?) ||
    (Early(pc) == Early(was) && (child.Some? ==> Early(child.value) == 0) &&
     Rank(pc) + (if child.Some? then Rank(child.value) else 0) < Rank(was))
  }

  lemma SwapLightens(s: State, t: Id, pc: Pc, bound: Option<(Id, string)>) returns (pc': Pc)
    requires pc == RebindSwap(bound)
    ensures Moved(s, SwapStep(s, t, bound), t, pc', None) && Lighter(pc, pc', None)
  {
    pc' := SwapStep(s, t, bound).threads[t];
  }

  lemma StartLightens(s: State, t: Id, pc: Pc) returns (pc': Pc, child: Option<Pc>)
    requires pc.RebindDrain?
    ensures Moved(s, DrainStep(s, t, pc.hs, pc.ln, pc.done), t, pc', child) && Lighter(pc, pc', child)
  {
    child := if pc.done.Some? && pc.hs.Some? then Some(DrainShut(pc.hs.value, pc.done.value)) else None;
    pc' := if child.Some? then RebindAwait(pc.ln, pc.done.value)
           else if pc.done.None? then RebindDone(true, None)
           else FinishRemove(pc.done.value, Inline(pc.ln));
  }

  lemma CheckLightens(s: State, t: Id, pc: Pc, c: Choice) returns (pc': Pc)
    requires pc.RebindCheck? || pc.RebindListen?
    ensures Moved(s, RebindStep(s, t, pc, c).value, t, pc', None) && Lighter(pc, pc', None)
  {
    pc' := RebindStep(s, t, pc, c).value.threads[t];
  }

  lemma RebindLightens(s: State, t: Id, pc: Pc, c: Choice) returns (pc': Pc, child: Option<Pc>)
    requires Rebinding(pc) && RebindStep(s, t, pc, c).Some?
    ensures Moved(s, RebindStep(s, t, pc, c).value, t, pc', child) && Lighter(pc, pc', child)
  {
    hide SwapStep, DrainStep;
    child := None;
    match pc
    case RebindCheck(addr) => pc' := CheckLightens(s, t, pc, c);
    case RebindListen(addr) => pc' := CheckLightens(s, t, pc, c);
    case RebindSwap(bound) => pc' := SwapLightens(s, t, pc, bound);
    case RebindDrain(hs, ln, done) => pc', child := StartLightens(s, t, pc);
    case RebindAwait(ln, ch) => pc' := RebindDone(true, ln);
  }

  /** The hook that a call of the server's Shutdown starts. */
  function HookOf(s: State, hs: Id): Option<Pc> { if hs in s.hooks then Some(Hook(s.hooks[hs])) else None }

  lemma HooksMove(s: State, t: Id, hs: Id, pc: Pc)
    requires t < s.next
    ensures Moved(s, At(RunHooks(s, hs), t, pc), t, pc, HookOf(s, hs))
  {
    assert s.threads[s.next := Hook(0)][t := pc] == s.threads[t := pc][s.next := Hook(0)];
    if hs in s.hooks {
      assert At(RunHooks(s, hs), t, pc).threads == s.threads[t := pc][s.next := Hook(s.hooks[hs])];
    }
  }

  lemma DrainingLightens(s: State, t: Id, pc: Pc) returns (pc': Pc, child: Option<Pc>)
    requires t < s.next && Draining(pc)
    ensures Moved(s, DrainingStep(s, t, pc), t, pc', child) && Lighter(pc, pc', child)
  {
    child := None;
    if pc.DrainShut? {
      pc', child := DrainWait(pc.server, pc.ch), HookOf(s, pc.server);
      HooksMove(s, t, pc.server, pc');
    } else {
      pc' := DrainingStep(s, t, pc).threads[t];
    }
  }

  /** Where a Shutdown goes next. */
  function AfterShutdown(s: State, pc: Pc, c: Choice): Pc
    requires ShuttingDown(pc)
  {
    match pc
    case ShutMark => ShutRead
    case ShutRead => ShutServer(s.http, s.ln)
    case ShutServer(hs, ln) => if hs.Some? then ShutCall(hs.value) else ShutSnap(false)
    case ShutCall(_) => ShutSnap(!c.ok)
    case ShutSnap(err) => ShutWait(err, s.drains, s.jobs.Keys)
    case ShutWait(err, pending, sealed) =>
      if pending == [] then ShutDone(err, sealed)
      else if !c.ok then ShutDone(true, sealed)
      else ShutWait(err, pending[1..], sealed)
  }

  function HookCalled(s: State, pc: Pc): Option<Pc>
  {
    if pc.ShutServer? && pc.hs.Some? then HookOf(s, pc.hs.value) else None
  }

  lemma ShutdownGoes(s: State, t: Id, pc: Pc, c: Choice)
    requires t < s.next && ShuttingDown(pc) && ShutdownStep(s, t, pc, c).Some?
    ensures Moved(s, ShutdownStep(s, t, pc, c).value, t, AfterShutdown(s, pc, c), HookCalled(s, pc))
  {
    if pc.ShutServer? && pc.hs.Some? {
      HooksMove(s, t, pc.hs.value, ShutCall(pc.hs.value));
    }
    hide RunHooks;
  }

  lemma AfterShutdownLightens(s: State, pc: Pc, c: Choice)
    requires ShuttingDown(pc)
    ensures Lighter(pc, AfterShutdown(s, pc, c), HookCalled(s, pc))
  {
  }

  lemma StepLightens(s: State, t: Id, c: Choice) returns (pc': Pc, child: Option<Pc>)
    requires t < s.next && t in s.threads && Step(s, t, c).Some?
    ensures Moved(s, Step(s, t, c).value, t, pc', child) && Lighter(s.threads[t], pc', child)
  {
    hide RebindStep, DrainingStep, ShutdownStep, AfterShutdown, Lighter, Moved, HookCalled;
    var pc := s.threads[t];
    child := None;
    if Rebinding(pc) {
      pc', child := RebindLightens(s, t, pc, c);
    } else if Draining(pc) {
      pc', child := DrainingLightens(s, t, pc);
    } else {
      ShutdownGoes(s, t, pc, c);
      AfterShutdownLightens(s, pc, c);
      pc', child := AfterShutdown(s, pc, c), HookCalled(s, pc);
    }
  }

  function Shutdowns(s: State): nat { Total(Early, s.threads, s.next) }

  function Remaining(s: State): nat { Total(Rank, s.threads, s.next) }

  lemma MovedTotal(w: Pc -> nat, s: State, s': State, t: Id, pc: Pc, child: Option<Pc>)
    requires Numbered(s) && t in s.threads && Moved(s, s', t, pc, child)
    ensures Total(w, s'.threads, s'.next) + w(s.threads[t]) ==
            Total(w, s.threads, s.next) + w(pc) + if child.Some? then w(child.value) else 0
  {
    var threads := s.threads[t := pc];
    TotalSet(w, s.threads, s.next, t, pc);
    TotalBeyond(w, threads, s.next, s'.next);
    if child.Some? {
      TotalSet(w, threads, s'.next, s.next, child.value);
    }
  }

  /** No goroutine can go on forever: each of its steps leaves fewer Shutdowns that
      have yet to look at the slice, or as many of these and fewer steps to take.
      Only a new call adds to either. */
  lemma EveryStepNearsEnd(s: State, t: Id, c: Choice)
    requires Numbered(s) && t in s.threads && Step(s, t, c).Some?
    ensures var s' := Step(s, t, c).value;
            Shutdowns(s') < Shutdowns(s) || (Shutdowns(s') == Shutdowns(s) && Remaining(s') < Remaining(s))
  {
    var s' := Step(s, t, c).value;
    var pc, child := StepLightens(s, t, c);
    MovedTotal(Early, s, s', t, pc, child);
    MovedTotal(Rank, s, s', t, pc, child);
    hide Step, Total, Rank, Early, Numbered, Moved;
  }

  // ----- and so everything that has started ends

  ghost predicate AllReturned(s: State) { forall t :: t in s.threads ==> Returned(s.threads[t]) }

  /** Some goroutine that has not returned can take a step. */
  lemma SomeoneCanGoOn(acts: seq<Action>, c: Choice) returns (t: Id)
    requires Run(acts).Some? && !AllReturned(Run(acts).value)
    ensures t in Run(acts).value.threads && Step(Run(acts).value, t, c).Some?
  {
    hide Step, Run;
    var s := Run(acts).value;
    t :| t in s.threads && !Returned(s.threads[t]);
    if Step(s, t, c).None? {
      NoDeadlock(acts, t, c);
      t :| t in s.threads && Step(s, t, c).Some?;
    }
  }

  lemma RunThen(acts: seq<Action>, a: Action)
    requires Run(acts).Some?
    ensures Run(acts + [a]) == Next(Run(acts).value, a)
  {
    assert (acts + [a])[..|acts + [a]| - 1] == acts;
    hide Next;
  }

  /** However a schedule went, letting its goroutines go on, and calling nothing
      new, brings every one of them to its end, after which nothing is left of any
      drain. */
  lemma {:induction false} EveryDrainEnds(acts: seq<Action>, c: Choice) returns (more: seq<Action>)
    requires Run(acts).Some?
    ensures forall a :: a in more ==> a.Advance? && a.c == c
    ensures Run(acts + more).Some? && AllReturned(Run(acts + more).value)
    ensures var s := Run(acts + more).value;
            s.drains == [] && s.finished == s.jobs.Keys &&
            forall ch :: ch in s.jobs ==> Over(s, ch) && (s.jobs[ch].hs.Some? ==> ch in s.ready)
    decreases Shutdowns(Run(acts).value), Remaining(Run(acts).value)
  {
    hide Run, Step, Numbered, Completed, Shutdowns, Remaining;
    if AllReturned(Run(acts).value) {
      more := [];
      assert acts + more == acts;
      QuiescentIsClean(acts);
    } else {
      var s := Run(acts).value;
      var t := SomeoneCanGoOn(acts, c);
      var a := Advance(t, c);
      Always(acts);
      InvIsNumbered(s);
      EveryStepNearsEnd(s, t, c);
      RunThen(acts, a);
      var rest := EveryDrainEnds(acts + [a], c);
      more := [a] + rest;
      assert acts + more == acts + [a] + rest;
    }
  }
}
