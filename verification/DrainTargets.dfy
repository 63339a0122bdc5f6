/** What the calls on the management server achieve, told by the schedule alone: a
    Rebind installs the listener it opened, a Shutdown takes down the server it found. */
module DrainTargets {
  import opened Wrappers
  import opened Drain

  // ----- moments of a schedule

  /** Goroutine t came into being at action i, for a Rebind to addr. */
  ghost predicate RebindCalled(acts: seq<Action>, i: nat, t: Id, addr: string)
  {
    i < |acts| && Run(acts[..i]).Some? && acts[i] == CallRebind(addr) && t == Run(acts[..i]).value.next
  }

  /** At action n goroutine t goes on, from the state before. */
  ghost predicate Goes(acts: seq<Action>, n: nat, t: Id)
  {
    n < |acts| && acts[n].Advance? && acts[n].t == t && Run(acts[..n]).Some? && t in Run(acts[..n]).value.threads
  }

  /** Its net.Listen opens listener l, bound to resolved. */
  ghost predicate Listened(acts: seq<Action>, k: nat, t: Id, l: Id, resolved: string)
  {
    Goes(acts, k, t) && acts[k].c.ok && acts[k].c.resolved == resolved &&
    Run(acts[..k]).value.threads[t].RebindListen? && l == Run(acts[..k]).value.next
  }

  ghost predicate ListenFailed(acts: seq<Action>, k: nat, t: Id)
  {
    Goes(acts, k, t) && !acts[k].c.ok && Run(acts[..k]).value.threads[t].RebindListen?
  }

  ghost predicate Swapped(acts: seq<Action>, n: nat, t: Id)
  {
    Goes(acts, n, t) && Run(acts[..n]).value.threads[t].RebindSwap?
  }

  /** It finds its own address bound and open. */
  ghost predicate FoundBound(acts: seq<Action>, m: nat, t: Id, addr: string)
  {
    Goes(acts, m, t) &&
    var s := Run(acts[..m]).value; addr != "" && s.addr == addr && s.ln.Some? && s.http.Some? && !s.closed
  }

  /** What was a moment of a schedule is one of every longer schedule. */
  lemma MomentsStay(acts: seq<Action>, init: seq<Action>, n: nat)
    requires init <= acts && n < |init|
    ensures acts[..n] == init[..n] && acts[n] == init[n]
  {
  }

  lemma GoesStays(acts: seq<Action>, init: seq<Action>, t: Id)
    requires init <= acts
    ensures forall n: nat :: Goes(init, n, t) ==> Goes(acts, n, t) && acts[..n] == init[..n] && acts[n] == init[n]
  {
    forall n: nat | Goes(init, n, t)
      ensures Goes(acts, n, t) && acts[..n] == init[..n] && acts[n] == init[n]
    {
      MomentsStay(acts, init, n);
    }
  }

  // ----- where a Rebind stands, and how it came there

  predicate Past(pc: Pc) { !pc.RebindCheck? && !pc.RebindListen? && !pc.RebindSwap? }

  ghost predicate Stands(acts: seq<Action>, i: nat, t: Id, addr: string, pc: Pc)
  {
    match pc
    case RebindCheck(a) => a == addr
    case RebindListen(a) => a == addr != ""
    case RebindSwap(bound) =>
      if bound.None? then addr == ""
      else addr != "" && exists k :: i < k && Listened(acts, k, t, bound.value.0, bound.value.1)
    case RebindDone(ok, _) =>
      if ok then (exists n :: i < n && Swapped(acts, n, t)) || exists m :: i < m && FoundBound(acts, m, t, addr)
      else exists k :: i < k && ListenFailed(acts, k, t)
    case RebindDrain(_, _, _) => exists n :: i < n && Swapped(acts, n, t)
    case RebindAwait(_, _) => exists n :: i < n && Swapped(acts, n, t)
    case FinishRemove(_, ret) => ret.Inline? && exists n :: i < n && Swapped(acts, n, t)
    case FinishClose(_, ret) => ret.Inline? && exists n :: i < n && Swapped(acts, n, t)
    case _ => false
  }

  /** A listener it has opened is the one it will install, or has installed. */
  ghost predicate Keeps(acts: seq<Action>, t: Id, pc: Pc)
  {
    forall k, l, r :: Listened(acts, k, t, l, r) ==> pc == RebindSwap(Some((l, r))) || Past(pc)
  }

  lemma StandsStay(acts: seq<Action>, init: seq<Action>, i: nat, t: Id, addr: string, pc: Pc)
    requires init <= acts && Stands(init, i, t, addr, pc)
    ensures Stands(acts, i, t, addr, pc)
  {
    MomentsKept(acts, init, t, addr);
    hide Run, Goes, Listened, ListenFailed, Swapped, FoundBound;
  }

  lemma MomentsKept(acts: seq<Action>, init: seq<Action>, t: Id, addr: string)
    requires init <= acts
    ensures forall k: nat, l, r :: Listened(init, k, t, l, r) ==> Listened(acts, k, t, l, r)
    ensures forall k: nat :: ListenFailed(init, k, t) ==> ListenFailed(acts, k, t)
    ensures forall k: nat :: Swapped(init, k, t) ==> Swapped(acts, k, t)
    ensures forall k: nat :: FoundBound(init, k, t, addr) ==> FoundBound(acts, k, t, addr)
  {
    GoesStays(acts, init, t);
    hide Run, Goes;
  }

  /** Where one step takes a Rebind, if the step is a moment of the schedule. */
  lemma StandsMoved(acts: seq<Action>, i: nat, n: nat, t: Id, addr: string, s: State)
    requires i < n && Goes(acts, n, t) && Run(acts[..n]) == Some(s) && t < s.next
    requires Stands(acts, i, t, addr, s.threads[t]) && Step(s, t, acts[n].c).Some?
    ensures var s' := Step(s, t, acts[n].c).value; t in s'.threads && Stands(acts, i, t, addr, s'.threads[t])
  {
    var c := acts[n].c;
    assert t in s.threads;
    StandsKind(acts, i, t, addr, s.threads[t]);
    hide Run, SwapStep, DrainStep, ShutdownStep, Goes, Stands;
    match s.threads[t] {
      case RebindCheck(_) => CheckMoved(acts, i, n, t, addr, s);
      case RebindListen(_) => ListenMoved(acts, i, n, t, addr, s);
      case RebindSwap(bound) =>
        SwapGoes(s, t, bound);
        SwapMoved(acts, i, n, t, addr, s);
      case RebindDrain(hs, ln, done) =>
        DrainGoes(s, t, hs, ln, done);
        PastMoved(acts, i, n, t, addr, s, DrainStep(s, t, hs, ln, done).threads[t]);
      case RebindAwait(_, _) => PastMoved(acts, i, n, t, addr, s, Step(s, t, c).value.threads[t]);
      case FinishRemove(_, _) => PastMoved(acts, i, n, t, addr, s, Step(s, t, c).value.threads[t]);
      case FinishClose(_, _) => PastMoved(acts, i, n, t, addr, s, Step(s, t, c).value.threads[t]);
      case _ =>
    }
  }

  lemma StandsKind(acts: seq<Action>, i: nat, t: Id, addr: string, pc: Pc)
    requires Stands(acts, i, t, addr, pc)
    ensures Rebinding(pc) || pc.RebindDone? || ((pc.FinishRemove? || pc.FinishClose?) && pc.ret.Inline?)
  {
  }

  lemma CheckMoved(acts: seq<Action>, i: nat, n: nat, t: Id, addr: string, s: State)
    requires i < n && Goes(acts, n, t) && Run(acts[..n]) == Some(s) && s.threads[t].RebindCheck?
    requires Stands(acts, i, t, addr, s.threads[t])
    ensures var s' := Step(s, t, acts[n].c).value; t in s'.threads && Stands(acts, i, t, addr, s'.threads[t])
  {
    assert addr != "" && s.addr == addr && s.ln.Some? && s.http.Some? && !s.closed ==> FoundBound(acts, n, t, addr);
    hide Run, SwapStep, DrainStep, Goes, FoundBound, Swapped, Listened, ListenFailed;
  }

  lemma ListenMoved(acts: seq<Action>, i: nat, n: nat, t: Id, addr: string, s: State)
    requires i < n && Goes(acts, n, t) && Run(acts[..n]) == Some(s) && s.threads[t].RebindListen?
    requires Stands(acts, i, t, addr, s.threads[t])
    ensures var s' := Step(s, t, acts[n].c).value; t in s'.threads && Stands(acts, i, t, addr, s'.threads[t])
  {
    var c := acts[n].c;
    assert if c.ok then Listened(acts, n, t, s.next, c.resolved) else ListenFailed(acts, n, t);
    hide Run, SwapStep, DrainStep, Goes, FoundBound, Swapped, Listened, ListenFailed;
  }

  lemma SwapMoved(acts: seq<Action>, i: nat, n: nat, t: Id, addr: string, s: State)
    requires i < n && Goes(acts, n, t) && Run(acts[..n]) == Some(s) && s.threads[t].RebindSwap?
    ensures forall hs, ln, done :: Stands(acts, i, t, addr, RebindDrain(hs, ln, done))
  {
    assert Swapped(acts, n, t);
    hide Run, Goes, FoundBound, Swapped, Listened, ListenFailed;
  }

  /** Once it has swapped it goes on to its end without an error. */
  lemma PastMoved(acts: seq<Action>, i: nat, n: nat, t: Id, addr: string, s: State, pc: Pc)
    requires i < n && Goes(acts, n, t) && Run(acts[..n]) == Some(s) && Stands(acts, i, t, addr, s.threads[t])
    requires Past(s.threads[t]) && !s.threads[t].RebindDone?
    requires (pc.RebindDone? && pc.ok) || pc.RebindAwait? || ((pc.FinishRemove? || pc.FinishClose?) && pc.ret.Inline?)
    ensures Stands(acts, i, t, addr, pc)
  {
    hide Run, Goes, FoundBound, Swapped, Listened, ListenFailed;
  }

  lemma SwapGoes(s: State, t: Id, bound: Option<(Id, string)>)
    ensures var s' := SwapStep(s, t, bound); t in s'.threads && s'.threads[t].RebindDrain?
  {
  }

  lemma DrainGoes(s: State, t: Id, hs: Option<Id>, ln: Option<Id>, done: Option<Id>)
    requires t < s.next
    ensures var s' := DrainStep(s, t, hs, ln, done);
            t in s'.threads &&
            var pc := s'.threads[t];
            pc == RebindDone(true, None) || pc.RebindAwait? || (pc.FinishRemove? && pc.ret.Inline?)
  {
  }

  // ----- a listener it has opened

  lemma PastStays(s: State, t: Id, c: Choice)
    requires t < s.next && t in s.threads && Step(s, t, c).Some? && (Past(s.threads[t]) || s.threads[t].RebindSwap?)
    ensures var s' := Step(s, t, c).value; t in s'.threads && Past(s'.threads[t])
  {
    hide RebindStep, DrainingStep, ShutdownStep;
    var pc := s.threads[t];
    if Rebinding(pc) {
      RebindPast(s, t, pc, c);
    } else if Draining(pc) {
      DrainingPast(s, t, pc);
    } else {
      ShutdownPast(s, t, pc, c);
    }
  }

  lemma RebindPast(s: State, t: Id, pc: Pc, c: Choice)
    requires t < s.next && Rebinding(pc) && !pc.RebindCheck? && !pc.RebindListen? && RebindStep(s, t, pc, c).Some?
    ensures var s' := RebindStep(s, t, pc, c).value; t in s'.threads && Past(s'.threads[t])
  {
    hide SwapStep, DrainStep;
    match pc
    case RebindSwap(bound) => SwapGoes(s, t, bound);
    case RebindDrain(hs, ln, done) => DrainGoes(s, t, hs, ln, done);
    case _ =>
  }

  lemma DrainingPast(s: State, t: Id, pc: Pc)
    requires Draining(pc)
    ensures var s' := DrainingStep(s, t, pc); t in s'.threads && Past(s'.threads[t])
  {
  }

  lemma ShutdownPast(s: State, t: Id, pc: Pc, c: Choice)
    requires ShuttingDown(pc) && ShutdownStep(s, t, pc, c).Some?
    ensures var s' := ShutdownStep(s, t, pc, c).value; t in s'.threads && Past(s'.threads[t])
  {
    if pc.ShutWait? {
      WaitPast(s, t, pc, c);
    } else {
      hide RunHooks, CloseAll;
    }
  }

  lemma WaitPast(s: State, t: Id, pc: Pc, c: Choice)
    requires pc.ShutWait? && ShutdownStep(s, t, pc, c).Some?
    ensures var s' := ShutdownStep(s, t, pc, c).value; t in s'.threads && Past(s'.threads[t])
  {
    hide RunHooks, CloseAll;
  }

  lemma ListenGoes(s: State, t: Id, c: Choice)
    requires t in s.threads && s.threads[t].RebindListen? && c.ok
    ensures Step(s, t, c).Some?
    ensures var s' := Step(s, t, c).value;
            t in s'.threads && s'.threads[t] == RebindSwap(Some((s.next, c.resolved)))
  {
  }

  lemma CheckGoes(s: State, t: Id, c: Choice)
    requires t in s.threads && s.threads[t].RebindCheck?
    ensures Step(s, t, c).Some?
    ensures var s' := Step(s, t, c).value; t in s'.threads
  {
  }

  /** The schedule grows by its own step. */
  lemma KeepsMoved(acts: seq<Action>, init: seq<Action>, t: Id, s: State, c: Choice)
    requires acts == init + [Advance(t, c)] && Run(init) == Some(s) && t in s.threads && t < s.next
    requires Keeps(init, t, s.threads[t]) && Step(s, t, c).Some?
    ensures var s' := Step(s, t, c).value; t in s'.threads && Keeps(acts, t, s'.threads[t])
  {
    var n := |init|;
    assert acts[..n] == init && acts[n] == Advance(t, c);
    var pc := s.threads[t];
    hide Run, Step;
    if Past(pc) || pc.RebindSwap? {
      PastStays(s, t, c);
    } else if pc.RebindCheck? {
      CheckGoes(s, t, c);
    } else if c.ok {
      ListenGoes(s, t, c);
    }
    forall k: nat, l, r | Listened(acts, k, t, l, r)
      ensures Step(s, t, c).value.threads[t] == RebindSwap(Some((l, r))) || Past(Step(s, t, c).value.threads[t])
    {
      if k < n {
        MomentsStay(acts, init, k);
        assert Listened(init, k, t, l, r);
      }
    }
  }

  ghost predicate Grows(s: State, s': State)
  {
    s.next <= s'.next && s.shut <= s'.shut && s.closedLns <= s'.closedLns
  }

  lemma NextGrows(s: State, a: Action)
    requires Next(s, a).Some?
    ensures Grows(s, Next(s, a).value)
  {
    hide RebindStep, DrainingStep, ShutdownStep;
    if a.Advance? {
      var pc := s.threads[a.t];
      if Rebinding(pc) {
        RebindGrows(s, a.t, pc, a.c);
      } else if Draining(pc) {
        DrainingGrows(s, a.t, pc);
      } else {
        ShutdownGrows(s, a.t, pc, a.c);
      }
    }
  }

  lemma RebindGrows(s: State, t: Id, pc: Pc, c: Choice)
    requires Rebinding(pc) && RebindStep(s, t, pc, c).Some?
    ensures Grows(s, RebindStep(s, t, pc, c).value)
  {
    hide SwapStep, DrainStep;
    match pc
    case RebindSwap(bound) => SwapGrows(s, t, bound);
    case RebindDrain(hs, ln, done) => DrainGrows(s, t, hs, ln, done);
    case _ =>
  }

  lemma SwapGrows(s: State, t: Id, bound: Option<(Id, string)>)
    ensures Grows(s, SwapStep(s, t, bound))
  {
  }

  lemma DrainGrows(s: State, t: Id, hs: Option<Id>, ln: Option<Id>, done: Option<Id>)
    ensures Grows(s, DrainStep(s, t, hs, ln, done))
  {
  }

  lemma DrainingGrows(s: State, t: Id, pc: Pc)
    requires Draining(pc)
    ensures Grows(s, DrainingStep(s, t, pc))
  {
  }

  lemma ShutdownGrows(s: State, t: Id, pc: Pc, c: Choice)
    requires ShuttingDown(pc) && ShutdownStep(s, t, pc, c).Some?
    ensures Grows(s, ShutdownStep(s, t, pc, c).value)
  {
    hide RunHooks, CloseAll;
    if pc.ShutServer? {
      ClosesGrow(s, pc.hs, pc.ln);
    }
  }

  lemma ClosesGrow(s: State, hs: Option<Id>, ln: Option<Id>)
    ensures Grows(s, CloseAll(s, ln))
    ensures hs.Some? ==> Grows(s, RunHooks(s, hs.value))
  {
  }

  lemma {:induction false} NumberedLater(acts: seq<Action>, k: nat)
    requires Run(acts).Some? && k <= |acts| && Run(acts[..k]).Some?
    ensures Run(acts[..k]).value.next <= Run(acts).value.next
  {
    if k < |acts| {
      var init := acts[..|acts| - 1];
      assert init[..k] == acts[..k];
      NumberedLater(init, k);
      NextGrows(Run(init).value, acts[|acts| - 1]);
      hide Next;
    } else {
      assert acts[..k] == acts;
    }
  }

  /** Nobody goes on before it came into being. */
  lemma NotBefore(acts: seq<Action>, i: nat, k: nat, t: Id)
    requires i <= |acts| && Run(acts[..i]).Some? && t >= Run(acts[..i]).value.next && Goes(acts, k, t)
    ensures k >= i
  {
    if k < i {
      assert acts[..i][..k] == acts[..k];
      NumberedLater(acts[..i], k);
      Always(acts[..k]);
      InvIsNumbered(Run(acts[..k]).value);
    }
    hide Run, Inv;
  }

  ghost predicate Traces(acts: seq<Action>, i: nat, t: Id, addr: string)
  {
    Run(acts).Some? && t in Run(acts).value.threads &&
    Stands(acts, i, t, addr, Run(acts).value.threads[t]) && Keeps(acts, t, Run(acts).value.threads[t])
  }

  lemma TracesBegin(acts: seq<Action>, i: nat, t: Id, addr: string)
    requires RebindCalled(acts, i, t, addr) && |acts| == i + 1 && Run(acts).Some?
    ensures Traces(acts, i, t, addr)
  {
    assert acts[..|acts| - 1] == acts[..i];
    assert Run(acts).value.threads[t] == RebindCheck(addr);
    hide Run;
    forall k: nat, l, r | Listened(acts, k, t, l, r)
      ensures false
    {
      NotBefore(acts, i, k, t);
    }
  }

  lemma {:induction false} TracesAlong(acts: seq<Action>, i: nat, t: Id, addr: string)
    requires RebindCalled(acts, i, t, addr) && Run(acts).Some?
    ensures Traces(acts, i, t, addr)
  {
    if |acts| == i + 1 {
      TracesBegin(acts, i, t, addr);
    } else {
      var n := |acts| - 1;
      var init, a := acts[..n], acts[n];
      MomentsStay(acts, init, i);
      assert acts == init + [a];
      TracesAlong(init, i, t, addr);
      Always(init);
      InvIsNumbered(Run(init).value);
      TracesNext(acts, init, a, i, t, addr);
    }
    hide Traces, Inv, Next;
  }

  lemma TracesNext(acts: seq<Action>, init: seq<Action>, a: Action, i: nat, t: Id, addr: string)
    requires acts == init + [a] && i < |init| && Traces(init, i, t, addr) && Run(acts).Some?
    requires Numbered(Run(init).value)
    ensures Traces(acts, i, t, addr)
  {
    var n, s := |init|, Run(init).value;
    assert acts[..n] == init && acts[..|acts| - 1] == init && acts[n] == a;
    assert Run(acts) == Next(s, a) by { hide Next; }
    assert t < s.next;
    hide Run, Next, Numbered;
    if a.Advance? && a.t == t {
      assert Next(s, a) == Step(s, t, a.c) by { NextIsStep(s, t, a.c); }
      assert Goes(acts, n, t);
      StandsStay(acts, init, i, t, addr, s.threads[t]);
      StandsMoved(acts, i, n, t, addr, s);
      KeepsMoved(acts, init, t, s, a.c);
    } else {
      OthersUnmoved(s, a, t);
      StandsStay(acts, init, i, t, addr, s.threads[t]);
      KeepsOther(acts, init, a, t, s.threads[t]);
    }
  }

  lemma NextIsStep(s: State, t: Id, c: Choice)
    requires t in s.threads
    ensures Next(s, Advance(t, c)) == Step(s, t, c)
  {
  }

  lemma KeepsOther(acts: seq<Action>, init: seq<Action>, a: Action, t: Id, pc: Pc)
    requires acts == init + [a] && !(a.Advance? && a.t == t) && Keeps(init, t, pc)
    ensures Keeps(acts, t, pc)
  {
    hide Run;
    forall k: nat, l, r | Listened(acts, k, t, l, r)
      ensures pc == RebindSwap(Some((l, r))) || Past(pc)
    {
      assert k < |init|;
      MomentsStay(acts, init, k);
      assert Listened(init, k, t, l, r);
    }
  }

  // ----- what a Rebind achieves

  /** The swap of a Rebind to an address installs a server that was never there before,
      on the listener that its own successful net.Listen opened, at the address that
      was bound to, and management is open. The swap of a Rebind to no address leaves
      neither server, listener nor address, and management is closed. */
  lemma RebindInstalls(acts: seq<Action>, i: nat, n: nat, t: Id, addr: string)
    requires RebindCalled(acts, i, t, addr) && i < n && Swapped(acts, n, t)
    ensures Run(acts[..n + 1]).Some?
    ensures var s, s' := Run(acts[..n]).value, Run(acts[..n + 1]).value;
            if addr == "" then s'.http.None? && s'.ln.None? && s'.addr == "" && s'.closed && s'.installed == s.installed
            else
              s'.http.Some? && s'.http.value !in s.installed && s'.installed == s.installed + {s'.http.value} &&
              s'.ln.Some? && !s'.closed && exists k :: i < k < n && Listened(acts, k, t, s'.ln.value, s'.addr)
    ensures forall k: nat, l: Id, r: string :: k < n && Listened(acts, k, t, l, r) ==>
              addr != "" && Run(acts[..n + 1]).value.ln == Some(l) && Run(acts[..n + 1]).value.addr == r
  {
    var s, a := Run(acts[..n]).value, acts[n];
    assert acts[..n + 1][..n] == acts[..n] && acts[..n + 1][n] == a;
    assert Run(acts[..n + 1]) == Next(s, a) by { hide Next; }
    var init := acts[..n];
    MomentsStay(acts, init, i);
    TracesAlong(init, i, t, addr);
    Always(init);
    InvIsNumbered(s);
    NextIsStep(s, t, a.c);
    var bound := s.threads[t].bound;
    assert Step(s, t, a.c) == Some(SwapStep(s, t, bound)) by { hide SwapStep; }
    SwapServers(s, t, bound);
    hide Run, Inv, SwapStep, Step, Next;
    BoundBefore(acts, init, i, n, t, addr, bound);
  }

  lemma SwapServers(s: State, t: Id, bound: Option<(Id, string)>)
    requires Numbered(s)
    ensures var s' := SwapStep(s, t, bound);
            if bound.None? then s'.http.None? && s'.ln.None? && s'.addr == "" && s'.closed &&
               s'.installed == s.installed
            else s'.http.Some? && s'.http.value !in s.installed && s'.installed == s.installed + {s'.http.value} &&
                 s'.ln == Some(bound.value.0) && s'.addr == bound.value.1 && !s'.closed
  {
  }

  lemma BoundBefore(
    acts: seq<Action>, init: seq<Action>, i: nat, n: nat, t: Id, addr: string, bound: Option<(Id, string)>)
    requires init <= acts && |init| == n && Stands(init, i, t, addr, RebindSwap(bound))
    requires Keeps(init, t, RebindSwap(bound))
    ensures bound.None? ==> addr == ""
    ensures bound.Some? ==> addr != "" && exists k :: i < k < n && Listened(acts, k, t, bound.value.0, bound.value.1)
    ensures forall k: nat, l: Id, r: string :: k < n && Listened(acts, k, t, l, r) ==> bound == Some((l, r))
  {
    MomentsKept(acts, init, t, addr);
    hide Run;
    if bound.Some? {
      var k :| i < k && Listened(init, k, t, bound.value.0, bound.value.1);
      assert Listened(acts, k, t, bound.value.0, bound.value.1) && k < n;
    }
    forall k: nat, l: Id, r: string | k < n && Listened(acts, k, t, l, r)
      ensures bound == Some((l, r))
    {
      MomentsStay(acts, init, k);
      assert Listened(init, k, t, l, r);
    }
  }

  /** A Rebind that has returned without an error has swapped, or had found its own
      address bound and management open; one that has returned an error could not open
      its listener. */
  lemma RebindReturns(acts: seq<Action>, i: nat, t: Id, addr: string)
    requires RebindCalled(acts, i, t, addr) && Run(acts).Some?
    requires t in Run(acts).value.threads && Returned(Run(acts).value.threads[t])
    ensures var pc := Run(acts).value.threads[t];
            pc.RebindDone? &&
            if pc.ok
            then (exists n :: i < n && Swapped(acts, n, t)) || (exists m :: i < m && FoundBound(acts, m, t, addr))
            else exists k :: i < k && ListenFailed(acts, k, t)
  {
    TracesAlong(acts, i, t, addr);
    hide Run;
  }

  /** A Rebind called with the address that is bound and open opens nothing: its first
      step is its last. */
  lemma RebindSkips(acts: seq<Action>, i: nat, m: nat, t: Id, addr: string)
    requires RebindCalled(acts, i, t, addr) && i < m && FoundBound(acts, m, t, addr)
    requires Run(acts[..m]).value.threads[t].RebindCheck?
    ensures Run(acts[..m + 1]) == Some(At(Run(acts[..m]).value, t, RebindDone(true, None)))
  {
    var s, a := Run(acts[..m]).value, acts[m];
    assert acts[..m + 1][..m] == acts[..m] && acts[..m + 1][m] == a;
    assert Run(acts[..m + 1]) == Next(s, a) by { hide Next; }
    MomentsStay(acts, acts[..m], i);
    TracesAlong(acts[..m], i, t, addr);
    hide Run;
  }

  // ----- what a Shutdown achieves

  ghost predicate ShutdownCalled(acts: seq<Action>, i: nat, t: Id)
  {
    i < |acts| && Run(acts[..i]).Some? && acts[i] == CallShutdown && t == Run(acts[..i]).value.next
  }

  /** It has closed management. */
  ghost predicate Marked(acts: seq<Action>, m: nat, t: Id)
  {
    Goes(acts, m, t) && Run(acts[..m + 1]).Some? && Run(acts[..m + 1]).value.closed
  }

  /** It reads the current server and listener. */
  ghost predicate ServerRead(acts: seq<Action>, m: nat, t: Id)
  {
    Goes(acts, m, t) && Run(acts[..m]).value.threads[t].ShutRead?
  }

  /** Its context has ended, or the server's own Shutdown failed. */
  ghost predicate CutShort(acts: seq<Action>, k: nat, t: Id) { Goes(acts, k, t) && !acts[k].c.ok }

  /** The server that was current then, or the listener without one, is down by now. */
  ghost predicate Down(s: State, was: State)
  {
    if was.http.Some? then was.http.value in s.shut else ClosedIfAny(s, was.ln)
  }

  ghost predicate TookDown(acts: seq<Action>, i: nat, t: Id, s: State, err: bool)
  {
    if err then exists k :: i < k && CutShort(acts, k, t)
    else exists m :: i < m && ServerRead(acts, m, t) && Down(s, Run(acts[..m]).value)
  }

  ghost predicate ReadSo(acts: seq<Action>, i: nat, t: Id, hs: Option<Id>, ln: Option<Id>)
  {
    exists m :: i < m && ServerRead(acts, m, t) && Run(acts[..m]).value.http == hs && Run(acts[..m]).value.ln == ln
  }

  ghost predicate Downs(acts: seq<Action>, i: nat, t: Id, s: State, pc: Pc)
  {
    (pc.ShutMark? || exists m :: i < m && Marked(acts, m, t)) &&
    match pc
    case ShutMark => true
    case ShutRead => true
    case ShutServer(hs, ln) => ReadSo(acts, i, t, hs, ln)
    case ShutCall(hs) => exists ln :: ReadSo(acts, i, t, Some(hs), ln)
    case ShutSnap(err) => TookDown(acts, i, t, s, err)
    case ShutWait(err, _, _) => TookDown(acts, i, t, s, err)
    case ShutDone(err, _) => TookDown(acts, i, t, s, err)
    case _ => false
  }

  lemma DownMoments(acts: seq<Action>, init: seq<Action>, t: Id)
    requires init <= acts
    ensures forall m: nat :: Marked(init, m, t) ==> Marked(acts, m, t)
    ensures forall m: nat :: ServerRead(init, m, t) ==> ServerRead(acts, m, t) && acts[..m] == init[..m]
    ensures forall m: nat :: CutShort(init, m, t) ==> CutShort(acts, m, t)
  {
    GoesStays(acts, init, t);
    forall m: nat | Marked(init, m, t)
      ensures Marked(acts, m, t)
    {
      assert acts[..m + 1] == init[..m + 1];
    }
    hide Run, Goes;
  }

  lemma ReadSoStays(acts: seq<Action>, init: seq<Action>, i: nat, t: Id, hs: Option<Id>, ln: Option<Id>)
    requires init <= acts && ReadSo(init, i, t, hs, ln)
    ensures ReadSo(acts, i, t, hs, ln)
  {
    DownMoments(acts, init, t);
    hide Run, Goes;
  }

  lemma TookDownStays(acts: seq<Action>, init: seq<Action>, i: nat, t: Id, s: State, s': State, err: bool)
    requires init <= acts && Grows(s, s') && TookDown(init, i, t, s, err)
    ensures TookDown(acts, i, t, s', err)
  {
    DownMoments(acts, init, t);
    hide Run, Goes, CutShort, ServerRead;
  }

  /** A longer schedule, in which t stood still. */
  lemma DownsStay(acts: seq<Action>, init: seq<Action>, i: nat, t: Id, s: State, s': State, pc: Pc)
    requires init <= acts && Grows(s, s') && Downs(init, i, t, s, pc)
    ensures Downs(acts, i, t, s', pc)
  {
    DownMoments(acts, init, t);
    hide Run, Goes, CutShort, ServerRead, Marked, TookDown, ReadSo, Grows;
    match pc {
      case ShutServer(hs, ln) => ReadSoStays(acts, init, i, t, hs, ln);
      case ShutCall(hs) =>
        var ln :| ReadSo(init, i, t, Some(hs), ln);
        ReadSoStays(acts, init, i, t, Some(hs), ln);
      case ShutSnap(err) => TookDownStays(acts, init, i, t, s, s', err);
      case ShutWait(err, _, _) => TookDownStays(acts, init, i, t, s, s', err);
      case ShutDone(err, _) => TookDownStays(acts, init, i, t, s, s', err);
      case _ =>
    }
  }

  /** Goroutine t has gone from s to s' at action n, and stands at pc. */
  ghost predicate Went(acts: seq<Action>, n: nat, t: Id, s: State, s': State, pc: Pc)
  {
    Goes(acts, n, t) && Run(acts[..n]) == Some(s) && Run(acts[..n + 1]) == Some(s') && Grows(s, s') &&
    Step(s, t, acts[n].c) == Some(s') && t in s'.threads && s'.threads[t] == pc
  }

  lemma MarkMoved(acts: seq<Action>, i: nat, n: nat, t: Id, s: State, s': State, pc: Pc)
    requires i < n && Went(acts, n, t, s, s', pc) && s.threads[t].ShutMark?
    ensures Downs(acts, i, t, s', pc)
  {
    assert s'.closed && pc == ShutRead by { hide Run; }
    assert Marked(acts, n, t);
    hide Run, Step, Goes, Marked;
  }

  lemma ReadMoved(acts: seq<Action>, i: nat, n: nat, t: Id, s: State, s': State, pc: Pc)
    requires i < n && Went(acts, n, t, s, s', pc) && s.threads[t].ShutRead? && Downs(acts, i, t, s, s.threads[t])
    ensures Downs(acts, i, t, s', pc)
  {
    assert pc == ShutServer(s.http, s.ln) by { hide Run; }
    assert ServerRead(acts, n, t);
    hide Run, Step, Goes, Marked, ServerRead;
  }

  lemma ServerMoved(acts: seq<Action>, i: nat, n: nat, t: Id, s: State, s': State, pc: Pc)
    requires i < n && Went(acts, n, t, s, s', pc) && s.threads[t].ShutServer? && Downs(acts, i, t, s, s.threads[t])
    ensures Downs(acts, i, t, s', pc)
  {
    var hs, ln := s.threads[t].hs, s.threads[t].ln;
    assert if hs.Some? then pc == ShutCall(hs.value) else pc == ShutSnap(false) && ClosedIfAny(s', ln) by {
      hide Run, RunHooks;
    }
    hide Run, Step, Goes, Marked, ServerRead;
    if hs.None? {
      var m :| i < m && ServerRead(acts, m, t) && Run(acts[..m]).value.http == hs && Run(acts[..m]).value.ln == ln;
      assert Down(s', Run(acts[..m]).value);
    }
  }

  lemma CallMoved(acts: seq<Action>, i: nat, n: nat, t: Id, s: State, s': State, pc: Pc)
    requires i < n && Went(acts, n, t, s, s', pc) && s.threads[t].ShutCall? && Downs(acts, i, t, s, s.threads[t])
    ensures Downs(acts, i, t, s', pc)
  {
    var hs, c := s.threads[t].server, acts[n].c;
    assert pc == ShutSnap(!c.ok) && (c.ok ==> hs in s'.shut) by { hide Run; }
    assert !c.ok ==> CutShort(acts, n, t);
    hide Run, Step, Goes, Marked, ServerRead, CutShort;
    if c.ok {
      var ln :| ReadSo(acts, i, t, Some(hs), ln);
      var m :| i < m && ServerRead(acts, m, t) && Run(acts[..m]).value.http == Some(hs) &&
        Run(acts[..m]).value.ln == ln;
      assert Down(s', Run(acts[..m]).value);
    }
  }

  lemma WaitNext(acts: seq<Action>, n: nat, t: Id, s: State, s': State, pc: Pc)
    requires Went(acts, n, t, s, s', pc) && (s.threads[t].ShutSnap? || s.threads[t].ShutWait?)
    ensures var was, ok := s.threads[t], acts[n].c.ok;
            (pc.ShutWait? && pc.err == was.err) || (pc.ShutDone? && (pc.err == was.err || (pc.err && !ok)))
  {
    hide Run, Step, Grows;
    if s.threads[t].ShutWait? {
      WaitGoes(s, t, acts[n].c);
    } else {
      SnapGoes(s, t, acts[n].c);
    }
  }

  lemma WaitMoved(acts: seq<Action>, i: nat, n: nat, t: Id, s: State, s': State, pc: Pc)
    requires i < n && Went(acts, n, t, s, s', pc) && (s.threads[t].ShutSnap? || s.threads[t].ShutWait?)
    requires Downs(acts, i, t, s, s.threads[t])
    ensures Downs(acts, i, t, s', pc)
  {
    hide Run, Step, Marked, ServerRead, Grows, TookDown;
    var was, c := s.threads[t], acts[n].c;
    WaitNext(acts, n, t, s, s', pc);
    assert !c.ok ==> CutShort(acts, n, t);
    assert acts <= acts;
    hide CutShort, Goes;
    TookDownStays(acts, acts, i, t, s, s', was.err);
    if pc.err && !was.err {
      CutIsCut(acts, i, n, t, s');
    }
  }

  lemma CutIsCut(acts: seq<Action>, i: nat, n: nat, t: Id, s: State)
    requires i < n && CutShort(acts, n, t)
    ensures TookDown(acts, i, t, s, true)
  {
  }

  lemma DownsMoved(acts: seq<Action>, i: nat, n: nat, t: Id, s: State, s': State, pc: Pc)
    requires i < n && Went(acts, n, t, s, s', pc) && Downs(acts, i, t, s, s.threads[t])
    ensures Downs(acts, i, t, s', pc)
  {
    assert t in s.threads && Step(s, t, acts[n].c).Some?;
    DownsKind(acts, i, t, s, s.threads[t]);
    hide Went, Downs, Run;
    match s.threads[t]
    case ShutMark => MarkMoved(acts, i, n, t, s, s', pc);
    case ShutRead => ReadMoved(acts, i, n, t, s, s', pc);
    case ShutServer(_, _) => ServerMoved(acts, i, n, t, s, s', pc);
    case ShutCall(_) => CallMoved(acts, i, n, t, s, s', pc);
    case ShutSnap(_) => WaitMoved(acts, i, n, t, s, s', pc);
    case ShutWait(_, _, _) => WaitMoved(acts, i, n, t, s, s', pc);
    case ShutDone(_, _) =>
    case _ =>
  }

  lemma DownsKind(acts: seq<Action>, i: nat, t: Id, s: State, pc: Pc)
    requires Downs(acts, i, t, s, pc)
    ensures ShuttingDown(pc) || pc.ShutDone?
  {
  }

  ghost predicate DownsSo(acts: seq<Action>, i: nat, t: Id)
  {
    Run(acts).Some? && t in Run(acts).value.threads && Downs(acts, i, t, Run(acts).value, Run(acts).value.threads[t])
  }

  lemma {:induction false} DownsAlong(acts: seq<Action>, i: nat, t: Id)
    requires ShutdownCalled(acts, i, t) && Run(acts).Some?
    ensures DownsSo(acts, i, t)
  {
    if |acts| == i + 1 {
      assert acts[..|acts| - 1] == acts[..i];
      assert Run(acts).value.threads[t] == ShutMark;
      hide Run;
    } else {
      var n := |acts| - 1;
      var init, a := acts[..n], acts[n];
      MomentsStay(acts, init, i);
      assert acts == init + [a];
      DownsAlong(init, i, t);
      Always(init);
      InvIsNumbered(Run(init).value);
      DownsNext(acts, init, a, i, t);
      hide DownsSo, Inv, Next;
    }
  }

  lemma LastStep(acts: seq<Action>, init: seq<Action>, a: Action)
    requires acts == init + [a] && Run(init).Some? && Run(acts).Some?
    ensures acts[..|init|] == init && acts[|init|] == a && acts[..|init| + 1] == acts && init <= acts
    ensures Run(acts) == Next(Run(init).value, a) && Grows(Run(init).value, Run(acts).value)
  {
    assert acts[..|acts| - 1] == init;
    assert Run(acts) == Next(Run(init).value, a) by { hide Next; }
    NextGrows(Run(init).value, a);
    hide Next, Grows;
  }

  lemma DownsOwn(acts: seq<Action>, init: seq<Action>, i: nat, t: Id, c: Choice)
    requires acts == init + [Advance(t, c)] && i < |init| && DownsSo(init, i, t) && Run(acts).Some?
    ensures DownsSo(acts, i, t)
  {
    var n, s, s' := |init|, Run(init).value, Run(acts).value;
    var a := Advance(t, c);
    hide Run, Next, Downs, Step, Grows;
    LastStep(acts, init, a);
    NextIsStep(s, t, c);
    StillThere(s, a, t);
    GrowsSelf(s);
    DownsStay(acts, init, i, t, s, s, s.threads[t]);
    assert Went(acts, n, t, s, s', s'.threads[t]);
    hide Went, Goes;
    DownsMoved(acts, i, n, t, s, s', s'.threads[t]);
  }

  lemma GrowsSelf(s: State)
    ensures Grows(s, s)
  {
  }

  lemma DownsNext(acts: seq<Action>, init: seq<Action>, a: Action, i: nat, t: Id)
    requires acts == init + [a] && i < |init| && DownsSo(init, i, t) && Run(acts).Some?
    requires Numbered(Run(init).value)
    ensures DownsSo(acts, i, t)
  {
    hide Run, Next, Numbered, Downs, Step, Grows;
    if a.Advance? && a.t == t {
      DownsOwn(acts, init, i, t, a.c);
    } else {
      LastStep(acts, init, a);
      OthersUnmoved(Run(init).value, a, t);
      DownsStay(acts, init, i, t, Run(init).value, Run(acts).value, Run(init).value.threads[t]);
    }
  }

  /** A Shutdown that has returned had closed management before; if without an error,
      the server that was current when it read it is shut down, or the listener that
      stood without one closed; and an error is never made up: its context had ended
      or the server's own Shutdown had failed. */
  lemma ShutdownTakesDown(acts: seq<Action>, i: nat, t: Id)
    requires ShutdownCalled(acts, i, t) && Run(acts).Some?
    requires t in Run(acts).value.threads && Returned(Run(acts).value.threads[t])
    ensures var pc := Run(acts).value.threads[t];
            pc.ShutDone? && (exists m :: i < m && Marked(acts, m, t)) &&
            if pc.err then exists k :: i < k && CutShort(acts, k, t)
            else exists m :: i < m && ServerRead(acts, m, t) && Down(Run(acts).value, Run(acts[..m]).value)
  {
    DownsAlong(acts, i, t);
    hide Run, Goes, Marked, CutShort, ServerRead, Down;
  }

  /** A failure of a Shutdown: its server's own Shutdown failed, or its context ended while
      it waited for a drain. */
  ghost predicate FailedAt(acts: seq<Action>, k: nat, t: Id)
  {
    Goes(acts, k, t) && !acts[k].c.ok &&
    var pc := Run(acts[..k]).value.threads[t]; pc.ShutCall? || (pc.ShutWait? && pc.pending != [])
  }

  predicate Erred(pc: Pc) { (pc.ShutSnap? || pc.ShutWait? || pc.ShutDone?) && pc.err }

  ghost predicate Reported(acts: seq<Action>, t: Id)
  {
    Run(acts).Some? && t in Run(acts).value.threads &&
    forall k: nat :: FailedAt(acts, k, t) ==> Erred(Run(acts).value.threads[t])
  }

  lemma ErredStays(s: State, t: Id, c: Choice)
    requires t in s.threads && Step(s, t, c).Some?
    requires var pc := s.threads[t];
             Erred(pc) || (!c.ok && (pc.ShutCall? || (pc.ShutWait? && pc.pending != [])))
    ensures var s' := Step(s, t, c).value; t in s'.threads && Erred(s'.threads[t])
  {
    hide RebindStep, DrainingStep;
    ShutdownErred(s, t, s.threads[t], c);
    hide ShutdownStep, Erred;
  }

  lemma ShutdownErred(s: State, t: Id, pc: Pc, c: Choice)
    requires ShuttingDown(pc) ==> ShutdownStep(s, t, pc, c).Some?
    ensures (Erred(pc) && !pc.ShutDone?) || (!c.ok && (pc.ShutCall? || (pc.ShutWait? && pc.pending != []))) ==>
              ShuttingDown(pc) &&
              var s' := ShutdownStep(s, t, pc, c).value; t in s'.threads && Erred(s'.threads[t])
  {
    hide RunHooks, CloseAll;
  }

  lemma ReportedOther(acts: seq<Action>, init: seq<Action>, a: Action, t: Id)
    requires acts == init + [a] && !(a.Advance? && a.t == t) && Reported(init, t)
    requires Run(acts).Some? && t in Run(acts).value.threads
    requires Run(acts).value.threads[t] == Run(init).value.threads[t]
    ensures Reported(acts, t)
  {
    hide Run, Erred;
    forall k: nat | FailedAt(acts, k, t)
      ensures Erred(Run(acts).value.threads[t])
    {
      assert k < |init|;
      MomentsStay(acts, init, k);
      assert FailedAt(init, k, t);
    }
  }

  lemma ReportedOwn(acts: seq<Action>, init: seq<Action>, t: Id, c: Choice)
    requires acts == init + [Advance(t, c)] && Reported(init, t) && Run(acts).Some?
    ensures Reported(acts, t)
  {
    var s := Run(init).value;
    hide Run, Erred, Step, Grows;
    LastStep(acts, init, Advance(t, c));
    NextIsStep(s, t, c);
    StillThere(s, Advance(t, c), t);
    forall k: nat | FailedAt(acts, k, t)
      ensures Erred(Run(acts).value.threads[t])
    {
      if k < |init| {
        MomentsStay(acts, init, k);
        assert FailedAt(init, k, t);
      }
      ErredStays(s, t, c);
    }
  }

  lemma {:induction false} ReportedAlong(acts: seq<Action>, i: nat, t: Id)
    requires ShutdownCalled(acts, i, t) && Run(acts).Some?
    ensures Reported(acts, t)
  {
    if |acts| == i + 1 {
      assert acts[..|acts| - 1] == acts[..i];
      assert Run(acts).value.threads[t] == ShutMark;
      hide Run;
      forall k: nat | FailedAt(acts, k, t)
        ensures false
      {
        NotBefore(acts, i, k, t);
      }
    } else {
      var n := |acts| - 1;
      var init, a := acts[..n], acts[n];
      MomentsStay(acts, init, i);
      assert acts == init + [a];
      ReportedAlong(init, i, t);
      Always(init);
      InvIsNumbered(Run(init).value);
      hide Inv, Next, Reported;
      ReportedNext(acts, init, a, t);
    }
  }

  lemma ReportedNext(acts: seq<Action>, init: seq<Action>, a: Action, t: Id)
    requires acts == init + [a] && Reported(init, t) && Run(acts).Some? && Numbered(Run(init).value)
    ensures Reported(acts, t)
  {
    hide Run, Next, Numbered, Step, Grows;
    if a.Advance? && a.t == t {
      ReportedOwn(acts, init, t, a.c);
    } else {
      LastStep(acts, init, a);
      OthersUnmoved(Run(init).value, a, t);
      ReportedOther(acts, init, a, t);
    }
  }

  /** No failure is lost: whatever happens after it, a Shutdown whose server's own Shutdown
      failed, or whose context ended while it waited for a drain, returns an error. */
  lemma FailureIsReported(acts: seq<Action>, i: nat, t: Id, k: nat)
    requires ShutdownCalled(acts, i, t) && Run(acts).Some? && FailedAt(acts, k, t)
    requires t in Run(acts).value.threads && Returned(Run(acts).value.threads[t])
    ensures var pc := Run(acts).value.threads[t]; pc.ShutDone? && pc.err
  {
    hide Run, FailedAt;
    ReportedAlong(acts, i, t);
  }

  // ----- what Serve achieves

  /** Serve installs a server that was never there before, on its listener, if and only
      if management is open and has none; it never changes anything else. */
  lemma ServeInstalls(acts: seq<Action>, addr: string)
    requires Run(acts).Some?
    ensures var s := Run(acts).value;
            var s' := Next(s, Serve(addr)).value;
            if s.closed || s.http.Some? then s' == s
            else s'.http.Some? && s'.http.value !in s.installed && s'.installed == s.installed + {s'.http.value} &&
                 s'.ln.Some? && s'.addr == addr && !s'.closed && s'.drains == s.drains && s'.threads == s.threads &&
                 s'.jobs == s.jobs
  {
    Always(acts);
    InvIsNumbered(Run(acts).value);
    hide Run, Inv;
  }
}
