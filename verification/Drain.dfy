/** internal/control/rest/server.go: the management listener's rebind, background
    drain and shutdown, as steps of concurrent goroutines. One step is one lock
    section, one channel operation or one call into net or net/http. */
module Drain {
  import opened Wrappers

  /** Servers, listeners, channels and goroutines are numbered from one counter. */
  type Id = nat

  /** What the channel of a drain stands for. */
  datatype Job = Job(hs: Option<Id>, ln: Option<Id>)

  /** finishDrain is the end of the drain goroutine, or part of a Rebind that had
      a listener but no server to drain. */
  datatype Ret = Background | Inline(was: Option<Id>)

  /** Where a goroutine stands. */
  datatype Pc =
    // Rebind(addr)
    | RebindCheck(addr: string)
    | RebindListen(addr: string)
    | RebindSwap(bound: Option<(Id, string)>)
    | RebindDrain(hs: Option<Id>, ln: Option<Id>, done: Option<Id>)
    | RebindAwait(ln: Option<Id>, ch: Id)
    | RebindDone(ok: bool, was: Option<Id>)
    // the goroutine of drainAsync
    | DrainShut(server: Id, ch: Id)
    | DrainWait(server: Id, ch: Id)
    | DrainDone
    // a shutdown hook of a server, which every call of its Shutdown starts
    | Hook(ch: Id)
    | HookDone
    // finishDrain, run by either of them
    | FinishRemove(ch: Id, ret: Ret)
    | FinishClose(ch: Id, ret: Ret)
    // Shutdown(ctx)
    | ShutMark
    | ShutRead
    | ShutServer(hs: Option<Id>, ln: Option<Id>)
    | ShutCall(server: Id)
    | ShutSnap(err: bool)
    | ShutWait(err: bool, pending: seq<Id>, sealed: set<Id>)
    | ShutDone(err: bool, sealed: set<Id>)

  /** The first five fields are the server's; the rest is the world around it:
      jobs records every drain's channel ever made, owner the goroutine that still
      has to finish it, and sealed (above) the channels a Shutdown found made when it
      took its snapshot. A drain's second channel, ready, goes by the number of the
      first: hooks has the drain that registered with a server, at most one as no
      server is detached twice, once the hooks that have fired, and ready and
      finished the channels of either kind that are closed. */
  datatype State = State(
    http: Option<Id>, ln: Option<Id>, addr: string, closed: bool, drains: seq<Id>,
    jobs: map<Id, Job>, owner: map<Id, Id>, hooks: map<Id, Id>, once: set<Id>,
    ready: set<Id>, finished: set<Id>, panicked: bool,
    installed: set<Id>, shut: set<Id>, closedLns: set<Id>, threads: map<Id, Pc>, next: Id)

  /** What the environment decides in a step. */
  datatype Choice = Choice(ok: bool, resolved: string)

  datatype Action =
    | Serve(addr: string)
    | CallRebind(addr: string)
    | CallShutdown
    | Advance(t: Id, c: Choice)

  const INIT := State(None, None, "", false, [], map[], map[], map[], {}, {}, {}, false, {}, {}, {}, map[], 0)

  function RemoveFirst(s: seq<Id>, x: Id): seq<Id>
  {
    if s == [] then [] else if s[0] == x then s[1..] else [s[0]] + RemoveFirst(s[1..], x)
  }

  function At(s: State, t: Id, pc: Pc): State { s.(threads := s.threads[t := pc]) }

  function Spawn(s: State, pc: Pc): State { s.(threads := s.threads[s.next := pc], next := s.next + 1) }

  // ----- the steps

  /** Serve installs the first server unless there is one or Shutdown came first. */
  function ServeStep(s: State, addr: string): State
  {
    if s.closed || s.http.Some? then s
    else s.(http := Some(s.next), ln := Some(s.next + 1), addr := addr,
            installed := s.installed + {s.next}, next := s.next + 2)
  }

  /** Both lock sections that detach the old server; the channel is made and
      appended in the same section. */
  function SwapStep(s: State, t: Id, bound: Option<(Id, string)>): State
  {
    var detached := s.http.Some? || s.ln.Some?;
    var ch, hs := s.next, s.next + 1;
    var s1 :=
      if bound.None? then s.(http := None, ln := None, addr := "", closed := true)
      else s.(http := Some(hs), ln := Some(bound.value.0), addr := bound.value.1, closed := false,
              installed := s.installed + {hs});
    var s2 :=
      if detached then s1.(drains := s.drains + [ch], jobs := s.jobs[ch := Job(s.http, s.ln)],
                           owner := s.owner[ch := t])
      else s1;
    At(s2.(next := s.next + 2), t, RebindDrain(s.http, s.ln, if detached then Some(ch) else None))
  }

  /** drainAsync up to where it blocks or returns. */
  function DrainStep(s: State, t: Id, hs: Option<Id>, ln: Option<Id>, done: Option<Id>): State
  {
    if done.None? then At(s, t, RebindDone(true, None))
    else if hs.None? then
      At(s.(closedLns := s.closedLns + {ln.GetOr(0)}), t, FinishRemove(done.value, Inline(ln)))
    else
      Spawn(At(s, t, RebindAwait(ln, done.value)), DrainShut(hs.value, done.value))
      .(owner := s.owner[done.value := s.next], hooks := s.hooks[hs.value := done.value])
  }

  /** The start of a call of the server's own Shutdown: its hook gets a goroutine. */
  function RunHooks(s: State, hs: Id): State
  {
    if hs in s.hooks then Spawn(s, Hook(s.hooks[hs])) else s
  }

  /** once.Do(func() { close(ready) }): closing a closed channel panics. */
  function Fire(s: State, ch: Id): State
  {
    if ch in s.once then s
    else s.(once := s.once + {ch}, panicked := s.panicked || ch in s.ready, ready := s.ready + {ch})
  }

  function CloseAll(s: State, ln: Option<Id>): State
  {
    if ln.None? then s else s.(closedLns := s.closedLns + {ln.value})
  }

  predicate Rebinding(pc: Pc)
  {
    pc.RebindCheck? || pc.RebindListen? || pc.RebindSwap? || pc.RebindDrain? || pc.RebindAwait?
  }

  predicate Draining(pc: Pc) { pc.DrainShut? || pc.DrainWait? || pc.FinishRemove? || pc.FinishClose? || pc.Hook? }

  predicate ShuttingDown(pc: Pc)
  {
    pc.ShutMark? || pc.ShutRead? || pc.ShutServer? || pc.ShutCall? || pc.ShutSnap? || pc.ShutWait?
  }

  function RebindStep(s: State, t: Id, pc: Pc, c: Choice): Option<State>
    requires Rebinding(pc)
  {
    match pc
    case RebindCheck(addr) =>
      var bound := s.ln.Some? && s.http.Some? && !s.closed;
      Some(At(s, t,
        if addr != "" && addr == s.addr && bound then RebindDone(true, None)
        else if addr == "" then RebindSwap(None)
        else RebindListen(addr)))
    case RebindListen(addr) =>
      Some(if c.ok then At(s.(next := s.next + 1), t, RebindSwap(Some((s.next, c.resolved))))
           else At(s, t, RebindDone(false, None)))
    case RebindSwap(bound) => Some(SwapStep(s, t, bound))
    case RebindDrain(hs, ln, done) => Some(DrainStep(s, t, hs, ln, done))
    case RebindAwait(ln, ch) =>
      if ch !in s.ready then None else Some(At(CloseAll(s, ln), t, RebindDone(true, ln)))
  }

  function DrainingStep(s: State, t: Id, pc: Pc): State
    requires Draining(pc)
  {
    match pc
    case DrainShut(hs, ch) => At(RunHooks(s, hs), t, DrainWait(hs, ch))
    case DrainWait(hs, ch) => At(s.(shut := s.shut + {hs}), t, FinishRemove(ch, Background))
    case FinishRemove(ch, ret) => At(s.(drains := RemoveFirst(s.drains, ch)), t, FinishClose(ch, ret))
    case FinishClose(ch, ret) =>
      At(s.(finished := s.finished + {ch}, owner := s.owner - {ch}, panicked := s.panicked || ch in s.finished), t,
         if ret.Inline? then RebindDone(true, ret.was) else DrainDone)
    case Hook(ch) => At(Fire(s, ch), t, HookDone)
  }

  function ShutdownStep(s: State, t: Id, pc: Pc, c: Choice): Option<State>
    requires ShuttingDown(pc)
  {
    match pc
    case ShutMark => Some(At(s.(closed := true), t, ShutRead))
    case ShutRead => Some(At(s, t, ShutServer(s.http, s.ln)))
    case ShutServer(hs, ln) =>
      Some(if hs.Some? then At(RunHooks(s, hs.value), t, ShutCall(hs.value))
           else At(CloseAll(s, ln), t, ShutSnap(false)))
    case ShutCall(hs) => Some(At(if c.ok then s.(shut := s.shut + {hs}) else s, t, ShutSnap(!c.ok)))
    case ShutSnap(err) => Some(At(s, t, ShutWait(err, s.drains, s.jobs.Keys)))
    case ShutWait(err, pending, sealed) =>
      if pending == [] then Some(At(s, t, ShutDone(err, sealed)))
      else if !c.ok then Some(At(s, t, ShutDone(true, sealed)))
      else if pending[0] in s.finished then Some(At(s, t, ShutWait(err, pending[1..], sealed)))
      else None
  }

  /** One step of goroutine t, or None while it is blocked or has returned. */
  function Step(s: State, t: Id, c: Choice): Option<State>
    requires t in s.threads
  {
    var pc := s.threads[t];
    if Rebinding(pc) then RebindStep(s, t, pc, c)
    else if Draining(pc) then Some(DrainingStep(s, t, pc))
    else if ShuttingDown(pc) then ShutdownStep(s, t, pc, c)
    else None
  }

  function Next(s: State, a: Action): Option<State>
  {
    match a
    case Serve(addr) => Some(ServeStep(s, addr))
    case CallRebind(addr) => Some(Spawn(s, RebindCheck(addr)))
    case CallShutdown => Some(Spawn(s, ShutMark))
    case Advance(t, c) => if t in s.threads then Step(s, t, c) else None
  }

  /** The state after a schedule, or None if a blocked goroutine was chosen. */
  function Run(acts: seq<Action>): Option<State>
  {
    if acts == [] then Some(INIT)
    else
      var p := Run(acts[..|acts| - 1]);
      if p.None? then None else Next(p.value, acts[|acts| - 1])
  }

  // ----- the invariant

  /** The channel a goroutine still has to finish. */
  function Holding(pc: Pc): Option<Id>
  {
    match pc
    case RebindDrain(_, _, done) => done
    case DrainShut(_, ch) => Some(ch)
    case DrainWait(_, ch) => Some(ch)
    case FinishRemove(ch, _) => Some(ch)
    case FinishClose(ch, _) => Some(ch)
    case _ => None
  }

  ghost predicate NoDuplicates(s: seq<Id>) { forall i, j :: 0 <= i < j < |s| ==> s[i] != s[j] }

  /** The drain of this channel is over: its server has been shut down, or, with
      no server, its listener closed. */
  ghost predicate Completed(s: State, ch: Id)
    requires ch in s.jobs
  {
    var job := s.jobs[ch];
    if job.hs.Some? then job.hs.value in s.shut else job.ln.Some? && job.ln.value in s.closedLns
  }

  /** And finishDrain has taken its channel out of the slice. */
  ghost predicate Over(s: State, ch: Id)
    requires ch in s.jobs
  {
    Completed(s, ch) && ch !in s.drains
  }

  ghost predicate ClosedIfAny(s: State, ln: Option<Id>) { ln.Some? ==> ln.value in s.closedLns }

  ghost predicate Numbered(s: State)
  {
    && (forall t :: t in s.threads ==> t < s.next)
    && (forall c :: c in s.jobs ==> c < s.next)
    && (forall h :: h in s.installed ==> h < s.next)
    && s.ready <= s.jobs.Keys && s.finished <= s.jobs.Keys
  }

  /** The hook of a server belongs to its drain, and has closed the channel exactly
      if it has fired. */
  ghost predicate Hooked(s: State)
  {
    && (forall h :: h in s.hooks ==> s.hooks[h] in s.jobs && s.jobs[s.hooks[h]].hs == Some(h))
    && s.once == s.ready
  }

  /** Every unfinished channel is held by exactly one goroutine. */
  ghost predicate Owned(s: State)
  {
    && s.owner.Keys == s.jobs.Keys - s.finished
    && (forall c :: c in s.owner ==> s.owner[c] in s.threads && Holding(s.threads[s.owner[c]]) == Some(c))
    && (forall t :: t in s.threads && Holding(s.threads[t]).Some? ==>
          Holding(s.threads[t]).value in s.owner && s.owner[Holding(s.threads[t]).value] == t)
  }

  /** The drains slice lists, once each, the held channels not yet removed. */
  ghost predicate Listed(s: State)
    requires Owned(s)
  {
    && NoDuplicates(s.drains)
    && forall c :: c in s.drains <==> c in s.owner && !s.threads[s.owner[c]].FinishClose?
  }

  /** Goroutines agree with the job of the channel they hold, and nobody gets to
      finish a drain that is not over. */
  ghost predicate Faithful(s: State, pc: Pc)
  {
    match pc
    case RebindDrain(hs, ln, done) =>
      if done.Some? then done.value in s.jobs && s.jobs[done.value] == Job(hs, ln) && (hs.Some? || ln.Some?)
      else hs.None? && ln.None?
    case RebindAwait(ln, ch) => ch in s.jobs && s.jobs[ch].ln == ln && s.jobs[ch].hs.Some?
    case RebindDone(ok, was) => ClosedIfAny(s, was)
    case DrainShut(hs, ch) => ch in s.jobs && s.jobs[ch].hs == Some(hs) && hs in s.hooks && s.hooks[hs] == ch
    case DrainWait(hs, ch) => ch in s.jobs && s.jobs[ch].hs == Some(hs)
    case Hook(ch) => ch in s.jobs
    case FinishRemove(ch, ret) => ch in s.jobs && Completed(s, ch) && (ret.Inline? ==> ClosedIfAny(s, ret.was))
    case FinishClose(ch, ret) => ch in s.jobs && Completed(s, ch) && (ret.Inline? ==> ClosedIfAny(s, ret.was))
    case ShutWait(err, pending, sealed) =>
      sealed <= s.jobs.Keys && (forall c :: c in pending ==> c in s.jobs) &&
      forall c :: c in sealed ==> c in pending || Over(s, c)
    case ShutDone(err, sealed) =>
      sealed <= s.jobs.Keys && (!err ==> forall c :: c in sealed ==> Over(s, c))
    case _ => true
  }

  ghost predicate AllFaithful(s: State) { forall t :: t in s.threads ==> Faithful(s, s.threads[t]) }

  ghost predicate FinishedCompleted(s: State)
    requires s.finished <= s.jobs.Keys
  {
    forall c :: c in s.finished ==> Completed(s, c)
  }

  /** The ready channel is closed, or a hook is about to close it. */
  ghost predicate Released(s: State, ch: Id)
  {
    ch in s.ready || exists u :: u in s.threads && s.threads[u] == Hook(ch)
  }

  predicate ToStart(pc: Pc) { pc.RebindDrain? || pc.DrainShut? }

  /** The drain of a server has yet to start, or its hook has a goroutine. */
  ghost predicate Started(s: State)
    requires Owned(s)
  {
    forall ch :: ch in s.jobs && s.jobs[ch].hs.Some? ==>
      Released(s, ch) || (ch in s.owner && ToStart(s.threads[s.owner[ch]]))
  }

  /** Every server ever installed is the current one or the subject of exactly one
      drain, never both. */
  ghost predicate Conserved(s: State)
  {
    && (s.http.Some? ==> s.http.value in s.installed)
    && (forall c :: c in s.jobs && s.jobs[c].hs.Some? ==> s.jobs[c].hs.value in s.installed && s.jobs[c].hs != s.http)
    && (forall c, d :: c in s.jobs && d in s.jobs && c != d && s.jobs[c].hs.Some? ==> s.jobs[c].hs != s.jobs[d].hs)
    && (forall h :: h in s.installed ==> s.http == Some(h) || exists c :: c in s.jobs && s.jobs[c].hs == Some(h))
  }

  ghost predicate Inv(s: State)
  {
    && Numbered(s) && Hooked(s) && Owned(s) && Listed(s) && AllFaithful(s) && FinishedCompleted(s) && Started(s)
    && Conserved(s) && !s.panicked
  }

  // ----- removal from the slice

  lemma {:induction false} RemoveFirstIs(s: seq<Id>, x: Id)
    requires NoDuplicates(s)
    ensures NoDuplicates(RemoveFirst(s, x))
    ensures forall y :: y in RemoveFirst(s, x) <==> y in s && y != x
  {
    if s != [] {
      assert forall y :: y in s <==> y == s[0] || y in s[1..];
      assert s[0] !in s[1..];
      RemoveFirstIs(s[1..], x);
      var r := RemoveFirst(s[1..], x);
      assert s[0] !in r;
    }
  }

  lemma {:induction false} RemoveFirstWithin(s: seq<Id>, x: Id)
    ensures forall y :: y in RemoveFirst(s, x) ==> y in s
  {
    if s != [] && s[0] != x {
      RemoveFirstWithin(s[1..], x);
    }
  }

  /** The loop of finishDrain: find the channel, close the gap behind it, stop. */
  method RemoveDrain(drains: seq<Id>, done: Id) returns (r: seq<Id>)
    ensures r == RemoveFirst(drains, done)
  {
    for i := 0 to |drains|
      invariant done !in drains[..i]
    {
      if drains[i] == done {
        RemoveFirstAt(drains, done, i);
        return drains[..i] + drains[i + 1..];
      }
    }
    RemoveFirstAbsent(drains, done);
    r := drains;
  }

  lemma {:induction false} RemoveFirstAt(s: seq<Id>, x: Id, i: nat)
    requires i < |s| && s[i] == x && x !in s[..i]
    ensures RemoveFirst(s, x) == s[..i] + s[i + 1..]
  {
    if i > 0 {
      assert s[..i][0] == s[0];
      assert s[1..][..i - 1] == s[..i][1..];
      RemoveFirstAt(s[1..], x, i - 1);
      assert s[..i] + s[i + 1..] == [s[0]] + (s[1..][..i - 1] + s[1..][i..]);
    }
  }

  lemma {:induction false} RemoveFirstAbsent(s: seq<Id>, x: Id)
    requires x !in s
    ensures RemoveFirst(s, x) == s
  {
    if s != [] {
      RemoveFirstAbsent(s[1..], x);
    }
  }

  // ----- every step keeps it

  /** Nothing recorded about the world is ever taken back. */
  ghost predicate Extends(s: State, s': State)
  {
    && (forall c :: c in s.jobs ==> c in s'.jobs && s'.jobs[c] == s.jobs[c])
    && (forall h :: h in s.hooks ==> h in s'.hooks && s'.hooks[h] == s.hooks[h])
    && s.shut <= s'.shut && s.closedLns <= s'.closedLns
    && (forall c :: c in s.jobs && c !in s.drains ==> c !in s'.drains)
  }

  lemma FaithfulStays(s: State, s': State, pc: Pc)
    requires Extends(s, s') && Faithful(s, pc)
    ensures Faithful(s', pc)
  {
  }

  lemma CompletedStays(s: State, s': State)
    requires Extends(s, s') && s.finished <= s.jobs.Keys && FinishedCompleted(s)
    ensures forall c :: c in s.finished ==> Completed(s', c)
  {
  }

  /** Goroutine t moved to pc, and others may have started. */
  lemma AllFaithfulStays(s: State, s': State, t: Id)
    requires AllFaithful(s) && Extends(s, s')
    requires t in s'.threads && Faithful(s', s'.threads[t])
    requires forall u :: u in s'.threads && u != t ==>
               (u in s.threads && s'.threads[u] == s.threads[u]) || Faithful(s', s'.threads[u])
    ensures AllFaithful(s')
  {
    forall u | u in s'.threads && u != t
      ensures Faithful(s', s'.threads[u])
    {
      if u in s.threads && s'.threads[u] == s.threads[u] {
        FaithfulStays(s, s', s.threads[u]);
      }
    }
  }

  /** t may be new; either way it holds the channel it held before, if any. */
  lemma OwnedStays(s: State, s': State, t: Id, pc: Pc)
    requires Owned(s) && s'.threads == s.threads[t := pc]
    requires s'.owner == s.owner && s'.jobs == s.jobs && s'.finished == s.finished
    requires if t in s.threads then Holding(pc) == Holding(s.threads[t]) else Holding(pc).None?
    ensures Owned(s')
  {
  }

  lemma ListedStays(s: State, s': State, t: Id, pc: Pc)
    requires Owned(s) && Owned(s') && Listed(s) && s'.threads == s.threads[t := pc] && s'.owner == s.owner
    requires if pc.FinishClose?
             then t in s.threads && Holding(s.threads[t]) == Some(pc.ch) && s'.drains == RemoveFirst(s.drains, pc.ch)
             else s'.drains == s.drains && (t in s.threads ==> !s.threads[t].FinishClose?)
    ensures Listed(s')
  {
    if pc.FinishClose? {
      RemoveFirstIs(s.drains, pc.ch);
    }
    forall c
      ensures c in s'.drains <==> c in s'.owner && !s'.threads[s'.owner[c]].FinishClose?
    {
      if c in s.owner {
        assert s.owner[c] in s.threads && Holding(s.threads[s.owner[c]]) == Some(c);
      }
    }
  }

  /** The drain that t was to start, if it still had to, has been started. */
  ghost predicate Starts(s: State, s': State, t: Id)
  {
    t in s.threads && ToStart(s.threads[t]) && Holding(s.threads[t]).Some? ==>
      var ch := Holding(s.threads[t]).value;
      ch in s.jobs && s.jobs[ch].hs.Some? ==> Released(s', ch)
  }

  lemma StartedStays(s: State, s': State, t: Id, pc: Pc)
    requires Owned(s) && Owned(s') && Started(s) && s'.threads == s.threads[t := pc] && s'.owner == s.owner
    requires s.ready <= s'.ready && s'.jobs == s.jobs && Starts(s, s', t)
    requires t in s.threads && s.threads[t].Hook? ==> s.threads[t].ch in s'.ready
    ensures Started(s')
  {
    HooksStay(s, s', t, pc);
    hide Released;
  }

  /** A hook that is about to fire is still there, or has fired. */
  ghost predicate KeepsHooks(s: State, s': State)
  {
    s.ready <= s'.ready && forall ch :: Released(s, ch) ==> Released(s', ch)
  }

  lemma HooksStay(s: State, s': State, t: Id, pc: Pc)
    requires s'.threads == s.threads[t := pc] && s.ready <= s'.ready
    requires t in s.threads && s.threads[t].Hook? ==> s.threads[t].ch in s'.ready
    ensures KeepsHooks(s, s')
  {
    forall ch | Released(s, ch)
      ensures Released(s', ch)
    {
      if ch !in s.ready {
        var u :| u in s.threads && s.threads[u] == Hook(ch);
        assert u != t ==> s'.threads[u] == Hook(ch);
      }
    }
  }

  lemma HooksStayBeside(s: State, s': State, t: Id, pc: Pc, u: Id, pc2: Pc)
    requires t in s.threads && u !in s.threads && !s.threads[t].Hook?
    requires s'.threads == s.threads[t := pc][u := pc2] && s.ready <= s'.ready
    ensures KeepsHooks(s, s')
  {
    HooksStay(s, s.(threads := s.threads[t := pc]), t, pc);
    HooksStay(s.(threads := s.threads[t := pc]), s', u, pc2);
  }

  /** A step of t, new or not, that makes and finishes no channel. */
  lemma MoveKeeps(s: State, s': State, t: Id, pc: Pc)
    requires Inv(s) && s'.threads == s.threads[t := pc] && t < s'.next && s.next <= s'.next
    requires Extends(s, s') && Faithful(s', pc) && Starts(s, s', t)
    requires s'.http == s.http && s'.jobs == s.jobs && s'.owner == s.owner
    requires s'.finished == s.finished && !s'.panicked && s'.installed == s.installed
    requires s'.hooks == s.hooks && s'.once == s'.ready && s.ready <= s'.ready <= s.jobs.Keys
    requires if t in s.threads then Holding(pc) == Holding(s.threads[t]) && !s.threads[t].FinishClose?
             else Holding(pc).None?
    requires t in s.threads && s.threads[t].Hook? ==> s.threads[t].ch in s'.ready
    requires if pc.FinishClose? then s'.drains == RemoveFirst(s.drains, pc.ch) else s'.drains == s.drains
    ensures Inv(s')
  {
    AllFaithfulStays(s, s', t);
    CompletedStays(s, s');
    OwnedStays(s, s', t, pc);
    ListedStays(s, s', t, pc);
    StartedStays(s, s', t, pc);
    hide Faithful, AllFaithful, Completed, Owned, Listed, Started, Holding, Extends;
  }

  lemma ServeKeeps(s: State, addr: string)
    requires Inv(s)
    ensures Inv(ServeStep(s, addr))
  {
    var s' := ServeStep(s, addr);
    forall t | t in s.threads
      ensures Faithful(s', s.threads[t])
    {
      FaithfulStays(s, s', s.threads[t]);
    }
    hide Faithful;
  }

  /** Closing the channel t holds. */
  lemma OwnedClosed(s: State, s': State, t: Id, ch: Id, pc: Pc)
    requires Owned(s) && t in s.threads && Holding(s.threads[t]) == Some(ch) && Holding(pc).None?
    requires s'.threads == s.threads[t := pc] && s'.owner == s.owner - {ch}
    requires s'.jobs == s.jobs && s'.finished == s.finished + {ch}
    ensures Owned(s')
  {
  }

  lemma ListedClosed(s: State, s': State, t: Id, ch: Id, pc: Pc)
    requires Owned(s) && Owned(s') && Listed(s) && t in s.threads && s.threads[t].FinishClose? && s.threads[t].ch == ch
    requires Holding(pc).None? && s'.threads == s.threads[t := pc] && s'.owner == s.owner - {ch} &&
             s'.drains == s.drains
    ensures Listed(s')
  {
  }

  lemma StartedClosed(s: State, s': State, t: Id, ch: Id, pc: Pc)
    requires Owned(s) && Owned(s') && Started(s) && t in s.threads && s.threads[t].FinishClose? && s.threads[t].ch == ch
    requires Holding(pc).None? && s'.threads == s.threads[t := pc] && s'.jobs == s.jobs
    requires s'.owner == s.owner - {ch} && s'.ready == s.ready
    ensures Started(s')
  {
    HooksStay(s, s', t, pc);
    hide Released;
  }

  /** The threads besides t are as they were. */
  lemma FaithfulMove(s: State, s': State, t: Id, pc: Pc)
    requires AllFaithful(s) && Extends(s, s') && Faithful(s', pc) && s'.threads == s.threads[t := pc]
    ensures AllFaithful(s')
  {
  }

  lemma CloseFaithful(s: State, t: Id, c: Choice)
    requires Inv(s) && t in s.threads && s.threads[t].FinishClose?
    ensures var s' := Step(s, t, c).value;
            Holding(s.threads[t]) == Some(s.threads[t].ch) && Holding(s'.threads[t]).None? &&
            s.threads[t].ch in s.jobs && s.threads[t].ch !in s.finished &&
            Extends(s, s') && Faithful(s', s'.threads[t]) && AllFaithful(s') && FinishedCompleted(s')
  {
    hide Owned, Listed, Started, Conserved;
    var s' := Step(s, t, c).value;
    assert Faithful(s, s.threads[t]);
    FaithfulMove(s, s', t, s'.threads[t]);
    CompletedStays(s, s');
    HeldIsUnfinished(s, t);
  }

  lemma HeldIsUnfinished(s: State, t: Id)
    requires Owned(s) && t in s.threads && Holding(s.threads[t]).Some?
    ensures Holding(s.threads[t]).value in s.jobs && Holding(s.threads[t]).value !in s.finished
  {
  }

  lemma CloseKeeps(s: State, t: Id, c: Choice)
    requires Inv(s) && t in s.threads && s.threads[t].FinishClose?
    ensures Inv(Step(s, t, c).value)
  {
    hide Faithful, AllFaithful, Completed, Owned, Listed, Started, Holding, Extends, Conserved, FinishedCompleted;
    var ch := s.threads[t].ch;
    var s' := Step(s, t, c).value;
    CloseFaithful(s, t, c);
    OwnedClosed(s, s', t, ch, s'.threads[t]);
    ListedClosed(s, s', t, ch, s'.threads[t]);
    StartedClosed(s, s', t, ch, s'.threads[t]);
    ConservedStays(s, s');
  }

  lemma ConservedStays(s: State, s': State)
    requires Conserved(s) && s'.http == s.http && s'.installed == s.installed && s'.jobs == s.jobs
    ensures Conserved(s')
  {
  }

  /** Handing the channel t holds to a new drain goroutine u. */
  lemma OwnedHandedOver(s: State, s': State, t: Id, u: Id, ch: Id, pc: Pc, hs: Id)
    requires Owned(s) && t in s.threads && u !in s.threads && Holding(s.threads[t]) == Some(ch) && Holding(pc).None?
    requires s'.threads == s.threads[t := pc][u := DrainShut(hs, ch)] && s'.owner == s.owner[ch := u]
    requires s'.jobs == s.jobs && s'.finished == s.finished
    ensures Owned(s')
  {
    assert Holding(DrainShut(hs, ch)) == Some(ch);
    hide Holding;
    forall c | c in s'.owner
      ensures s'.owner[c] in s'.threads && Holding(s'.threads[s'.owner[c]]) == Some(c)
    {
      assert s.owner[c] in s.threads && Holding(s.threads[s.owner[c]]) == Some(c);
    }
  }

  lemma ListedHandedOver(s: State, s': State, t: Id, u: Id, ch: Id, pc: Pc, hs: Id)
    requires Owned(s) && Owned(s') && Listed(s) && t in s.threads && u !in s.threads
    requires s.threads[t].RebindDrain? && s.threads[t].done == Some(ch)
    requires s'.threads == s.threads[t := pc][u := DrainShut(hs, ch)] && s'.owner == s.owner[ch := u]
    requires s'.drains == s.drains
    ensures Listed(s')
  {
  }

  lemma StartedHandedOver(s: State, s': State, t: Id, u: Id, ch: Id, ln: Option<Id>, hs: Id)
    requires Owned(s) && Owned(s') && Started(s) && t in s.threads && u !in s.threads
    requires s.threads[t].RebindDrain? && s.threads[t].done == Some(ch)
    requires s'.threads == s.threads[t := RebindAwait(ln, ch)][u := DrainShut(hs, ch)] && s'.owner == s.owner[ch := u]
    requires s'.ready == s.ready && s'.jobs == s.jobs
    ensures Started(s')
  {
    HooksStayBeside(s, s', t, RebindAwait(ln, ch), u, DrainShut(hs, ch));
    hide Released;
  }

  /** Nobody else has registered with the server being detached. */
  lemma HookIsOwn(s: State, hs: Id, ch: Id)
    requires Hooked(s) && Conserved(s) && ch in s.jobs && s.jobs[ch].hs == Some(hs)
    ensures hs in s.hooks ==> s.hooks[hs] == ch
    ensures Hooked(s.(hooks := s.hooks[hs := ch]))
  {
  }

  lemma StartExtends(s: State, t: Id, hs: Id, ln: Option<Id>, ch: Id)
    requires Numbered(s) && t in s.threads && s.threads[t] == RebindDrain(Some(hs), ln, Some(ch))
    requires Faithful(s, s.threads[t]) && (hs in s.hooks ==> s.hooks[hs] == ch)
    ensures var s' := DrainStep(s, t, Some(hs), ln, Some(ch));
            Extends(s, s') && Faithful(s', RebindAwait(ln, ch)) && Faithful(s', DrainShut(hs, ch)) && Numbered(s')
  {
  }

  lemma StartIs(s: State, t: Id, hs: Id, ln: Option<Id>, ch: Id)
    ensures var s' := DrainStep(s, t, Some(hs), ln, Some(ch));
            s'.threads == s.threads[t := RebindAwait(ln, ch)][s.next := DrainShut(hs, ch)] &&
            s'.once == s.once && s'.ready == s.ready && s'.jobs == s.jobs && s'.finished == s.finished &&
            s'.hooks == s.hooks[hs := ch]
  {
  }

  lemma StartHooked(s: State, t: Id, hs: Id, ln: Option<Id>, ch: Id)
    requires Hooked(s) && Conserved(s) && ch in s.jobs && s.jobs[ch].hs == Some(hs)
    ensures Hooked(DrainStep(s, t, Some(hs), ln, Some(ch))) && (hs in s.hooks ==> s.hooks[hs] == ch)
  {
    assert s.once == s.ready;
    hide Hooked, Conserved, DrainStep;
    StartIs(s, t, hs, ln, ch);
    HookIsOwn(s, hs, ch);
    HookedStays(s.(hooks := s.hooks[hs := ch]), DrainStep(s, t, Some(hs), ln, Some(ch)));
  }

  lemma StartFaithful(s: State, t: Id, hs: Id, ln: Option<Id>, ch: Id)
    requires Inv(s) && t in s.threads && s.threads[t] == RebindDrain(Some(hs), ln, Some(ch))
    ensures var s' := DrainStep(s, t, Some(hs), ln, Some(ch));
            Extends(s, s') && AllFaithful(s') && FinishedCompleted(s') && Numbered(s') && Hooked(s')
  {
    var s' := DrainStep(s, t, Some(hs), ln, Some(ch));
    hide Owned, Listed, Started, Conserved, Hooked, Numbered, Completed, Extends, DrainStep;
    StartIs(s, t, hs, ln, ch);
    assert Faithful(s, s.threads[t]);
    StartHooked(s, t, hs, ln, ch);
    hide Faithful;
    StartExtends(s, t, hs, ln, ch);
    AllFaithfulStays(s, s', t);
    CompletedStays(s, s');
  }

  lemma HookedStays(s: State, s': State)
    requires Hooked(s) && s'.hooks == s.hooks && s'.once == s'.ready
    requires forall c :: c in s.jobs ==> c in s'.jobs && s'.jobs[c] == s.jobs[c]
    ensures Hooked(s')
  {
  }

  lemma StartKeeps(s: State, t: Id, hs: Id, ln: Option<Id>, ch: Id)
    requires Inv(s) && t in s.threads && s.threads[t] == RebindDrain(Some(hs), ln, Some(ch))
    ensures Inv(DrainStep(s, t, Some(hs), ln, Some(ch)))
  {
    hide Faithful, AllFaithful, Completed, Owned, Listed, Started, Extends, Conserved, FinishedCompleted, Hooked;
    var s' := DrainStep(s, t, Some(hs), ln, Some(ch));
    StartFaithful(s, t, hs, ln, ch);
    assert Holding(s.threads[t]) == Some(ch) && Holding(RebindAwait(ln, ch)).None?;
    assert s.next !in s.threads;
    hide Holding, Numbered;
    OwnedHandedOver(s, s', t, s.next, ch, RebindAwait(ln, ch), hs);
    ListedHandedOver(s, s', t, s.next, ch, RebindAwait(ln, ch), hs);
    StartedHandedOver(s, s', t, s.next, ch, ln, hs);
    ConservedStays(s, s');
  }

  lemma DrainKeeps(s: State, t: Id, hs: Option<Id>, ln: Option<Id>, done: Option<Id>)
    requires Inv(s) && t in s.threads && s.threads[t] == RebindDrain(hs, ln, done)
    ensures Inv(DrainStep(s, t, hs, ln, done))
  {
    hide Owned, Listed, Started, Conserved, FinishedCompleted;
    var s' := DrainStep(s, t, hs, ln, done);
    if done.None? || hs.None? {
      assert Faithful(s, s.threads[t]) && t < s.next && s.ready <= s.jobs.Keys;
      assert Faithful(s', s'.threads[t]) && Extends(s, s') && Holding(s'.threads[t]) == Holding(s.threads[t]);
      hide Inv, Faithful, Extends, Holding;
      MoveKeeps(s, s', t, s'.threads[t]);
    } else {
      StartKeeps(s, t, hs.value, ln, done.value);
    }
  }

  /** Taking on a new channel. */
  lemma OwnedTaken(s: State, s': State, t: Id, ch: Id, pc: Pc)
    requires Owned(s) && t in s.threads && Holding(s.threads[t]).None? && Holding(pc) == Some(ch)
    requires ch !in s.jobs && ch !in s.finished
    requires s'.threads == s.threads[t := pc] && s'.owner == s.owner[ch := t]
    requires s'.jobs.Keys == s.jobs.Keys + {ch} && s'.finished == s.finished
    ensures Owned(s')
  {
  }

  lemma ListedTaken(s: State, s': State, t: Id, ch: Id, pc: Pc)
    requires Owned(s) && Owned(s') && Listed(s) && t in s.threads && Holding(s.threads[t]).None? && !pc.FinishClose?
    requires ch !in s.jobs && s'.threads == s.threads[t := pc] && s'.owner == s.owner[ch := t] &&
             s'.drains == s.drains + [ch]
    ensures Listed(s')
  {
    assert ch !in s.owner;
    assert ch !in s.drains;
    forall c
      ensures c in s'.drains <==> c in s'.owner && !s'.threads[s'.owner[c]].FinishClose?
    {
      if c in s.owner {
        assert s.owner[c] in s.threads && Holding(s.threads[s.owner[c]]) == Some(c);
      }
    }
  }

  lemma StartedTaken(s: State, s': State, t: Id, ch: Id, pc: Pc)
    requires Owned(s) && Owned(s') && Started(s) && t in s.threads && Holding(s.threads[t]).None? && ToStart(pc)
    requires ch !in s.jobs && s'.threads == s.threads[t := pc] && s'.owner == s.owner[ch := t] && s'.ready == s.ready
    requires !s.threads[t].Hook? && s'.jobs.Keys == s.jobs.Keys + {ch}
    requires forall c :: c in s.jobs ==> s'.jobs[c] == s.jobs[c]
    ensures Started(s')
  {
    HooksStay(s, s', t, pc);
    hide Released;
  }

  lemma ConservedInstalls(s: State, s': State, hs: Id)
    requires Conserved(s) && s.http.None? && s'.jobs == s.jobs && hs !in s.installed
    requires (s'.http.None? && s'.installed == s.installed) ||
             (s'.http == Some(hs) && s'.installed == s.installed + {hs})
    ensures Conserved(s')
  {
  }

  lemma ConservedDetaches(s: State, ch: Id, ln: Option<Id>)
    requires Conserved(s) && ch !in s.jobs
    ensures Conserved(s.(http := None, jobs := s.jobs[ch := Job(s.http, ln)]))
  {
    var s' := s.(http := None, jobs := s.jobs[ch := Job(s.http, ln)]);
    forall h | h in s'.installed
      ensures exists c :: c in s'.jobs && s'.jobs[c].hs == Some(h)
    {
      if s.http == Some(h) {
        assert s'.jobs[ch].hs == Some(h);
      } else {
        var c :| c in s.jobs && s.jobs[c].hs == Some(h);
        assert s'.jobs[c].hs == Some(h);
      }
    }
  }

  lemma ConservedSwap(s: State, t: Id, bound: Option<(Id, string)>)
    requires Numbered(s) && Conserved(s)
    ensures Conserved(SwapStep(s, t, bound))
  {
    hide Conserved;
    var s', mid := SwapStep(s, t, bound), s;
    assert s.next !in s.jobs && s.next + 1 !in s.installed;
    if s.http.Some? || s.ln.Some? {
      mid := s.(http := None, jobs := s.jobs[s.next := Job(s.http, s.ln)]);
      ConservedDetaches(s, s.next, s.ln);
    }
    SwapInstalls(s, t, bound, mid);
    hide SwapStep;
    ConservedInstalls(mid, s', s.next + 1);
  }

  /** What a swap makes of the servers once the old one is detached. */
  lemma SwapInstalls(s: State, t: Id, bound: Option<(Id, string)>, mid: State)
    requires mid == if s.http.None? && s.ln.None? then s
                    else s.(http := None, jobs := s.jobs[s.next := Job(s.http, s.ln)])
    ensures var s' := SwapStep(s, t, bound);
            s'.jobs == mid.jobs && mid.http.None? && mid.installed == s.installed &&
            ((s'.http.None? && s'.installed == s.installed) ||
             (s'.http == Some(s.next + 1) && s'.installed == s.installed + {s.next + 1}))
  {
  }

  lemma SwapFaithful(s: State, t: Id, bound: Option<(Id, string)>)
    requires Inv(s) && t in s.threads && s.threads[t] == RebindSwap(bound)
    ensures var s' := SwapStep(s, t, bound); Extends(s, s') && AllFaithful(s') && FinishedCompleted(s')
    ensures Numbered(SwapStep(s, t, bound)) && Hooked(SwapStep(s, t, bound))
  {
    var s' := SwapStep(s, t, bound);
    hide Owned, Listed, Started, Conserved, Hooked, AllFaithful, Completed;
    SwapExtends(s, t, bound);
    SwapNumbered(s, t, bound);
    hide SwapStep, Faithful, Extends;
    FaithfulMove(s, s', t, s'.threads[t]);
    CompletedStays(s, s');
  }

  lemma SwapExtends(s: State, t: Id, bound: Option<(Id, string)>)
    requires Numbered(s) && Hooked(s)
    ensures var s' := SwapStep(s, t, bound);
            t in s'.threads && s'.threads == s.threads[t := s'.threads[t]] && s'.finished == s.finished &&
            Extends(s, s') && Faithful(s', s'.threads[t]) && Hooked(s')
  {
    var s' := SwapStep(s, t, bound);
    assert s.next !in s.jobs && s.once == s.ready;
    SwapRecords(s, t, bound);
    hide SwapStep, Hooked, Numbered;
    HookedStays(s, s');
  }

  /** The job of the server and listener it detaches, if there are any. */
  lemma SwapRecords(s: State, t: Id, bound: Option<(Id, string)>)
    ensures var s' := SwapStep(s, t, bound);
            var detached := s.http.Some? || s.ln.Some?;
            s'.threads == s.threads[t := RebindDrain(s.http, s.ln, if detached then Some(s.next) else None)] &&
            s'.jobs == (if detached then s.jobs[s.next := Job(s.http, s.ln)] else s.jobs) &&
            s'.drains == (if detached then s.drains + [s.next] else s.drains) &&
            s'.hooks == s.hooks && s'.once == s.once && s'.ready == s.ready && s'.finished == s.finished &&
            s'.shut == s.shut && s'.closedLns == s.closedLns
  {
  }

  lemma SwapNumbered(s: State, t: Id, bound: Option<(Id, string)>)
    requires Numbered(s) && t < s.next
    ensures Numbered(SwapStep(s, t, bound))
  {
  }

  lemma SwapKeeps(s: State, t: Id, bound: Option<(Id, string)>)
    requires Inv(s) && t in s.threads && s.threads[t] == RebindSwap(bound)
    ensures Inv(SwapStep(s, t, bound))
  {
    hide Faithful, AllFaithful, Completed, Owned, Listed, Started, Extends, Conserved, FinishedCompleted, Hooked;
    var s' := SwapStep(s, t, bound);
    ConservedSwap(s, t, bound);
    SwapFaithful(s, t, bound);
    assert Holding(s.threads[t]).None? && Holding(s'.threads[t]) == s'.threads[t].done;
    hide Holding;
    if s.http.Some? || s.ln.Some? {
      OwnedTaken(s, s', t, s.next, s'.threads[t]);
      ListedTaken(s, s', t, s.next, s'.threads[t]);
      StartedTaken(s, s', t, s.next, s'.threads[t]);
    } else {
      OwnedStays(s, s', t, s'.threads[t]);
      ListedStays(s, s', t, s'.threads[t]);
      StartedStays(s, s', t, s'.threads[t]);
    }
  }

  /** Whatever is not in the slice at the snapshot is already over. */
  lemma SnapFaithful(s: State, t: Id)
    requires Inv(s) && t in s.threads && s.threads[t].ShutSnap?
    ensures Faithful(s, ShutWait(s.threads[t].err, s.drains, s.jobs.Keys))
  {
    hide Numbered, Hooked, Started, Conserved, Completed;
    forall ch | ch in s.jobs
      ensures ch in s.drains || Completed(s, ch)
    {
      if ch !in s.drains && ch in s.owner {
        assert Faithful(s, s.threads[s.owner[ch]]);
      }
    }
  }

  lemma SnapGoes(s: State, t: Id, c: Choice)
    requires t in s.threads && s.threads[t].ShutSnap?
    ensures Step(s, t, c) == Some(At(s, t, ShutWait(s.threads[t].err, s.drains, s.jobs.Keys)))
  {
    hide RebindStep, DrainingStep;
  }

  lemma SnapKeeps(s: State, t: Id, c: Choice)
    requires Inv(s) && t in s.threads && s.threads[t].ShutSnap?
    ensures Inv(Step(s, t, c).value)
  {
    SnapFaithful(s, t);
    hide Step, Inv, Faithful;
    SnapGoes(s, t, c);
    MoveAlone(s, t, ShutWait(s.threads[t].err, s.drains, s.jobs.Keys));
  }

  lemma RebindFaithful(s: State, t: Id, c: Choice)
    requires Inv(s) && t in s.threads && Step(s, t, c).Some?
    requires var pc := s.threads[t]; pc.RebindCheck? || pc.RebindListen? || pc.RebindAwait?
    ensures var s' := Step(s, t, c).value;
            s'.threads == s.threads[t := s'.threads[t]] && t < s'.next && s.next <= s'.next &&
            s'.(threads := s.threads, next := s.next, closedLns := s.closedLns) == s &&
            Extends(s, s') && Faithful(s', s'.threads[t]) && !ToStart(s.threads[t]) &&
            !s'.threads[t].FinishClose? && Holding(s'.threads[t]).None?
  {
    hide Owned, Listed, Started, Conserved;
    assert Faithful(s, s.threads[t]);
  }

  lemma RebindKeeps(s: State, t: Id, c: Choice)
    requires Inv(s) && t in s.threads && Step(s, t, c).Some?
    requires var pc := s.threads[t]; pc.RebindCheck? || pc.RebindListen? || pc.RebindAwait?
    ensures Inv(Step(s, t, c).value)
  {
    var s' := Step(s, t, c).value;
    assert Numbered(s);
    hide Step, Inv, Extends, Faithful, Numbered;
    RebindFaithful(s, t, c);
    NumberedReady(s);
    MoveKeeps(s, s', t, s'.threads[t]);
  }

  lemma NumberedReady(s: State)
    requires Numbered(s)
    ensures s.ready <= s.jobs.Keys && s.finished <= s.jobs.Keys
  {
  }

  /** Calling Shutdown of a server keeps everything and readies its hook. */
  lemma HooksRun(s: State, hs: Id)
    requires Inv(s)
    ensures Inv(RunHooks(s, hs))
    ensures hs in s.hooks ==> Released(RunHooks(s, hs), s.hooks[hs])
    ensures s.threads.Keys <= RunHooks(s, hs).threads.Keys && Extends(s, RunHooks(s, hs))
    ensures forall t :: t in s.threads ==> RunHooks(s, hs).threads[t] == s.threads[t]
    ensures RunHooks(s, hs).hooks == s.hooks
  {
    if hs in s.hooks {
      var s' := RunHooks(s, hs);
      assert s'.threads[s.next] == Hook(s.hooks[hs]);
      assert s.next !in s.threads && s.ready <= s.jobs.Keys;
      assert Faithful(s', Hook(s.hooks[hs])) && Holding(Hook(s.hooks[hs])).None?;
      hide Faithful, AllFaithful, Completed, Owned, Listed, Started, Holding, Conserved, FinishedCompleted, Numbered;
      MoveKeeps(s, s', s.next, Hook(s.hooks[hs]));
    }
  }

  lemma GoroutineFaithful(s: State, t: Id, c: Choice)
    requires Inv(s) && t in s.threads
    requires var pc := s.threads[t]; pc.DrainWait? || pc.FinishRemove?
    ensures var s' := Step(s, t, c).value;
            Extends(s, s') && Faithful(s', s'.threads[t]) && Holding(s.threads[t]) == Holding(s'.threads[t]) &&
            s'.ready == s.ready && s'.once == s'.ready && !s'.panicked
  {
    hide Owned, Listed, Started, Conserved;
    assert Faithful(s, s.threads[t]);
    if s.threads[t].FinishRemove? {
      RemoveFirstWithin(s.drains, s.threads[t].ch);
    }
  }

  /** The hook fires, or finds that it has: either way its channel is closed, once. */
  lemma HookFires(s: State, t: Id, c: Choice)
    requires Inv(s) && t in s.threads && s.threads[t].Hook?
    ensures var s' := Step(s, t, c).value;
            Extends(s, s') && s'.threads == s.threads[t := HookDone] && s.threads[t].ch in s'.ready &&
            s.ready <= s'.ready <= s.jobs.Keys && s'.once == s'.ready && !s'.panicked &&
            s'.(threads := s.threads, ready := s.ready, once := s.once) == s
  {
    hide Owned, Listed, Started, Conserved;
    assert Faithful(s, s.threads[t]);
  }

  lemma HookKeeps(s: State, t: Id, c: Choice)
    requires Inv(s) && t in s.threads && s.threads[t].Hook?
    ensures Inv(Step(s, t, c).value)
  {
    HookFires(s, t, c);
    var s' := Step(s, t, c).value;
    assert t < s.next;
    hide Step, Inv, Extends, Numbered;
    MoveKeeps(s, s', t, HookDone);
  }

  lemma GoroutineKeeps(s: State, t: Id, c: Choice)
    requires Inv(s) && t in s.threads
    requires var pc := s.threads[t]; pc.DrainWait? || pc.FinishRemove?
    ensures Inv(Step(s, t, c).value)
  {
    var s' := Step(s, t, c).value;
    GoroutineFaithful(s, t, c);
    assert t < s.next && s.ready <= s.jobs.Keys;
    hide Faithful, AllFaithful, Completed, Owned, Listed, Started, Holding, Extends, Conserved, FinishedCompleted;
    MoveKeeps(s, s', t, s'.threads[t]);
  }

  /** A goroutine moves on and nothing else changes. */
  lemma MoveAlone(s: State, t: Id, pc: Pc)
    requires Inv(s) && t in s.threads && Faithful(s, pc) && Holding(pc) == Holding(s.threads[t])
    requires !s.threads[t].FinishClose? && !s.threads[t].Hook? && !pc.FinishClose?
    requires ToStart(s.threads[t]) && Holding(pc).Some? ==> Released(s, Holding(pc).value)
    ensures Inv(At(s, t, pc))
  {
    var s' := At(s, t, pc);
    assert t < s.next && s.ready <= s.jobs.Keys && s.once == s.ready && !s.panicked;
    HooksStay(s, s', t, pc);
    hide Inv, Completed, Over, Released, Numbered;
    FaithfulStays(s, s', pc);
    MoveKeeps(s, s', t, pc);
  }

  lemma DrainShutIs(s: State, t: Id, c: Choice)
    requires t in s.threads && s.threads[t].DrainShut? && Faithful(s, s.threads[t])
    ensures var pc := s.threads[t];
            var w := DrainWait(pc.server, pc.ch);
            Step(s, t, c) == Some(At(RunHooks(s, pc.server), t, w)) && Faithful(s, w) && Holding(w) == Holding(pc) &&
            pc.server in s.hooks && s.hooks[pc.server] == pc.ch
  {
  }

  lemma DrainStartKeeps(s: State, t: Id, c: Choice)
    requires Inv(s) && t in s.threads && s.threads[t].DrainShut?
    ensures Inv(Step(s, t, c).value)
  {
    var hs, ch := s.threads[t].server, s.threads[t].ch;
    assert Faithful(s, s.threads[t]);
    hide Inv, Extends, Released, Step, RunHooks, Faithful;
    DrainShutIs(s, t, c);
    HooksRun(s, hs);
    FaithfulStays(s, RunHooks(s, hs), DrainWait(hs, ch));
    MoveAlone(RunHooks(s, hs), t, DrainWait(hs, ch));
  }

  lemma ShutdownFaithful(s: State, t: Id, c: Choice)
    requires Inv(s) && t in s.threads && Step(s, t, c).Some?
    requires var pc := s.threads[t]; pc.ShutMark? || pc.ShutRead? || (pc.ShutServer? && pc.hs.None?) || pc.ShutCall?
    ensures var s' := Step(s, t, c).value;
            Extends(s, s') && Faithful(s', s'.threads[t]) && Holding(s.threads[t]).None? && Holding(s'.threads[t]).None?
  {
    hide Owned, Listed, Started, Conserved, AllFaithful, FinishedCompleted, RebindStep, DrainingStep;
  }

  /** Shutdown touches neither the drains nor what is held. */
  lemma ShutdownTouches(s: State, t: Id, c: Choice)
    requires t in s.threads && Step(s, t, c).Some?
    requires var pc := s.threads[t]; pc.ShutMark? || pc.ShutRead? || (pc.ShutServer? && pc.hs.None?) || pc.ShutCall?
    ensures var s' := Step(s, t, c).value;
            t in s'.threads && !s'.threads[t].FinishClose? && !ToStart(s.threads[t]) && !s.threads[t].Hook? &&
            s' == s.(threads := s.threads[t := s'.threads[t]], closed := s'.closed, shut := s'.shut,
                     closedLns := s'.closedLns)
  {
    hide RebindStep, DrainingStep;
  }

  lemma ShutdownStarts(s: State, t: Id, c: Choice)
    requires Inv(s) && t in s.threads && Step(s, t, c).Some?
    requires var pc := s.threads[t]; pc.ShutMark? || pc.ShutRead? || (pc.ShutServer? && pc.hs.None?) || pc.ShutCall?
    ensures Inv(Step(s, t, c).value)
  {
    hide Step;
    var s' := Step(s, t, c).value;
    ShutdownFaithful(s, t, c);
    ShutdownTouches(s, t, c);
    assert t < s.next && s.ready <= s.jobs.Keys && s.once == s.ready && !s.threads[t].FinishClose?;
    hide Inv, Faithful, AllFaithful, Completed, Owned, Listed, Started, Holding, Extends, Conserved, FinishedCompleted;
    MoveKeeps(s, s', t, s'.threads[t]);
  }

  /** The current server's Shutdown, which may be one that is being drained by now. */
  lemma ShutdownCalls(s: State, t: Id, hs: Id, c: Choice)
    requires Inv(s) && t in s.threads && s.threads[t].ShutServer? && s.threads[t].hs == Some(hs)
    ensures Inv(Step(s, t, c).value)
  {
    hide Inv, Extends, Released;
    HooksRun(s, hs);
    MoveAlone(RunHooks(s, hs), t, ShutCall(hs));
  }

  lemma FinishedAreOut(s: State)
    requires Owned(s) && Listed(s)
    ensures forall c :: c in s.finished ==> c !in s.drains
  {
  }

  /** Waiting past a channel that was closed: its drain is over. */
  lemma PassedIsOver(s: State, err: bool, pending: seq<Id>, sealed: set<Id>)
    requires s.finished <= s.jobs.Keys && FinishedCompleted(s) && Faithful(s, ShutWait(err, pending, sealed))
    requires pending != [] && pending[0] in s.finished && pending[0] !in s.drains
    ensures Faithful(s, ShutWait(err, pending[1..], sealed))
  {
    hide Completed;
    assert forall ch :: ch in pending <==> ch == pending[0] || ch in pending[1..];
  }

  /** Where a waiting Shutdown goes next. */
  function AfterWait(pc: Pc, c: Choice): Pc
    requires pc.ShutWait?
  {
    if pc.pending == [] then ShutDone(pc.err, pc.sealed)
    else if !c.ok then ShutDone(true, pc.sealed)
    else ShutWait(pc.err, pc.pending[1..], pc.sealed)
  }

  lemma WaitGoes(s: State, t: Id, c: Choice)
    requires t in s.threads && s.threads[t].ShutWait? && Step(s, t, c).Some?
    ensures Step(s, t, c) == Some(At(s, t, AfterWait(s.threads[t], c)))
    ensures AfterWait(s.threads[t], c).ShutWait? ==>
              s.threads[t].pending != [] && s.threads[t].pending[0] in s.finished
  {
    hide RebindStep, DrainingStep;
  }

  lemma WaitFaithful(s: State, t: Id, c: Choice)
    requires Inv(s) && t in s.threads && Step(s, t, c).Some? && s.threads[t].ShutWait?
    ensures Faithful(s, AfterWait(s.threads[t], c))
  {
    hide Step, Started, Conserved, Numbered, Hooked, Completed, Over;
    WaitGoes(s, t, c);
    FinishedAreOut(s);
    var pc := s.threads[t];
    assert Faithful(s, pc) && s.finished <= s.jobs.Keys by { InvIsFaithful(s, t); InvIsNumbered(s); NumberedReady(s); }
    hide Owned, Listed, FinishedCompleted;
    if AfterWait(pc, c).ShutWait? {
      PassedIsOver(s, pc.err, pc.pending, pc.sealed);
    }
  }

  lemma ShutdownWaits(s: State, t: Id, c: Choice)
    requires Inv(s) && t in s.threads && Step(s, t, c).Some? && s.threads[t].ShutWait?
    ensures Inv(Step(s, t, c).value)
  {
    WaitFaithful(s, t, c);
    hide Step, Inv, Faithful;
    WaitGoes(s, t, c);
    MoveAlone(s, t, AfterWait(s.threads[t], c));
  }

  lemma StepKeeps(s: State, t: Id, c: Choice)
    requires Inv(s) && t in s.threads && Step(s, t, c).Some?
    ensures Inv(Step(s, t, c).value)
  {
    hide Inv;
    match s.threads[t]
    case RebindCheck(_) => RebindKeeps(s, t, c);
    case RebindListen(_) => RebindKeeps(s, t, c);
    case RebindSwap(bound) => SwapKeeps(s, t, bound);
    case RebindDrain(hs, ln, done) => DrainKeeps(s, t, hs, ln, done);
    case RebindAwait(_, _) => RebindKeeps(s, t, c);
    case RebindDone(_, _) =>
    case DrainShut(_, _) => DrainStartKeeps(s, t, c);
    case DrainWait(_, _) => GoroutineKeeps(s, t, c);
    case DrainDone =>
    case Hook(_) => HookKeeps(s, t, c);
    case HookDone =>
    case FinishRemove(_, _) => GoroutineKeeps(s, t, c);
    case FinishClose(_, _) => CloseKeeps(s, t, c);
    case ShutMark => ShutdownStarts(s, t, c);
    case ShutRead => ShutdownStarts(s, t, c);
    case ShutServer(hs, _) => if hs.Some? { ShutdownCalls(s, t, hs.value, c); } else { ShutdownStarts(s, t, c); }
    case ShutCall(_) => ShutdownStarts(s, t, c);
    case ShutSnap(_) => SnapKeeps(s, t, c);
    case ShutWait(_, _, _) => ShutdownWaits(s, t, c);
    case ShutDone(_, _) =>
  }

  lemma NextKeeps(s: State, a: Action)
    requires Inv(s) && Next(s, a).Some?
    ensures Inv(Next(s, a).value)
  {
    match a
    case Serve(addr) => ServeKeeps(s, addr);
    case CallRebind(addr) => MoveKeeps(s, Spawn(s, RebindCheck(addr)), s.next, RebindCheck(addr));
    case CallShutdown => MoveKeeps(s, Spawn(s, ShutMark), s.next, ShutMark);
    case Advance(t, c) => StepKeeps(s, t, c);
  }

  lemma {:induction false} Always(acts: seq<Action>)
    requires Run(acts).Some?
    ensures Inv(Run(acts).value)
  {
    hide Inv, Next;
    if acts != [] {
      Always(acts[..|acts| - 1]);
      NextKeeps(Run(acts[..|acts| - 1]).value, acts[|acts| - 1]);
    } else {
      InitHolds();
    }
  }

  lemma InitHolds()
    ensures Inv(INIT)
  {
  }

  // ----- main results, over every schedule

  /** A drain is in the slice, exactly once, from the moment its server is
      detached until finishDrain removes it, and nothing else ever is; no channel
      is closed twice; and a channel closes only when its drain is over. */
  lemma DrainsListedOnce(acts: seq<Action>)
    requires Run(acts).Some?
    ensures var s := Run(acts).value;
            NoDuplicates(s.drains) && !s.panicked &&
            (forall c :: c in s.drains ==> c in s.jobs && c !in s.finished) &&
            (forall c :: c in s.jobs && c !in s.drains ==> Completed(s, c)) &&
            (forall c :: c in s.finished ==> c in s.jobs && c !in s.drains)
  {
    Always(acts);
    var s := Run(acts).value;
    forall c | c in s.jobs && c !in s.drains
      ensures Completed(s, c)
    {
      if c in s.owner {
        assert Faithful(s, s.threads[s.owner[c]]);
      }
    }
  }

  /** No server is lost or drained twice: each one ever installed is the current
      one or belongs to exactly one drain. */
  lemma NoServerLost(acts: seq<Action>, h: Id)
    requires Run(acts).Some? && h in Run(acts).value.installed
    ensures var s := Run(acts).value;
            (s.http == Some(h) <==> !exists c :: c in s.jobs && s.jobs[c].hs == Some(h)) &&
            forall c, d :: c in s.jobs && d in s.jobs && s.jobs[c].hs == Some(h) && s.jobs[d].hs == Some(h) ==> c == d
  {
    Always(acts);
  }

  predicate Returned(pc: Pc) { pc.RebindDone? || pc.DrainDone? || pc.HookDone? || pc.ShutDone? }

  /** A goroutine is only ever blocked on a channel that some other goroutine can
      go on to release, so the protocol cannot deadlock. */
  lemma NoDeadlock(acts: seq<Action>, t: Id, c: Choice)
    requires Run(acts).Some? && t in Run(acts).value.threads && !Returned(Run(acts).value.threads[t])
    requires Step(Run(acts).value, t, c).None?
    ensures var s := Run(acts).value;
            exists u :: u in s.threads && u != t && Releases(s, u, s.threads[t]) && Step(s, u, c).Some?
  {
    hide Run, Inv, Step, Faithful, Returned;
    Always(acts);
    var s := Run(acts).value;
    BlockedWaits(s, t, c);
    var u := SomeoneReleases(s, t);
    ReleaserGoesOn(s, u, s.threads[t], c);
  }

  /** What a blocked goroutine waits for: the ready channel of a drain, or its end. */
  function WaitsFor(pc: Pc): Option<Id>
  {
    if pc.RebindAwait? then Some(pc.ch)
    else if pc.ShutWait? && pc.pending != [] then Some(pc.pending[0]) else None
  }

  /** The goroutine still has to finish that drain, or is the hook that will close
      its ready channel. */
  ghost predicate Releases(s: State, u: Id, pc: Pc)
  {
    u in s.threads && WaitsFor(pc).Some? &&
    (Holding(s.threads[u]) == WaitsFor(pc) || (pc.RebindAwait? && s.threads[u] == Hook(pc.ch)))
  }

  lemma BlockedWaits(s: State, t: Id, c: Choice)
    requires t in s.threads && !Returned(s.threads[t]) && Step(s, t, c).None?
    ensures var pc := s.threads[t];
            (pc.RebindAwait? && pc.ch !in s.ready) || (pc.ShutWait? && pc.pending != [] && pc.pending[0] !in s.finished)
  {
  }

  lemma SomeoneReleases(s: State, t: Id) returns (u: Id)
    requires Inv(s) && t in s.threads
    requires var pc := s.threads[t];
             (pc.RebindAwait? && pc.ch !in s.ready) ||
             (pc.ShutWait? && pc.pending != [] && pc.pending[0] !in s.finished)
    ensures Releases(s, u, s.threads[t])
  {
    hide Numbered, Listed, Hooked, Conserved, FinishedCompleted, Completed, Over;
    var pc := s.threads[t];
    assert Faithful(s, pc);
    var ch := WaitsFor(pc).value;
    if pc.RebindAwait? && Released(s, ch) {
      u :| u in s.threads && s.threads[u] == Hook(ch);
    } else {
      assert ch in s.owner by { if pc.ShutWait? { assert pc.pending[0] in pc.pending; } }
      u := s.owner[ch];
    }
  }

  lemma ReleaserGoesOn(s: State, u: Id, pc: Pc, c: Choice)
    requires Releases(s, u, pc)
    ensures Step(s, u, c).Some? && WaitsFor(s.threads[u]).None?
  {
    hide SwapStep, DrainStep;
  }

  /** Once every goroutine has returned nothing is left behind: the slice is
      empty, every channel is closed and every detached server is shut down. */
  lemma QuiescentIsClean(acts: seq<Action>)
    requires Run(acts).Some? && forall t :: t in Run(acts).value.threads ==> Returned(Run(acts).value.threads[t])
    ensures var s := Run(acts).value;
            s.drains == [] && s.finished == s.jobs.Keys && (forall c :: c in s.jobs ==> Completed(s, c)) &&
            forall c :: c in s.jobs && s.jobs[c].hs.Some? ==> c in s.ready
  {
    Always(acts);
    hide *;
    AllReturnedClean(Run(acts).value);
  }

  lemma AllReturnedClean(s: State)
    requires Inv(s) && forall t :: t in s.threads ==> Returned(s.threads[t])
    ensures s.drains == [] && s.finished == s.jobs.Keys && forall c :: c in s.jobs ==> Completed(s, c)
    ensures forall c :: c in s.jobs && s.jobs[c].hs.Some? ==> c in s.ready
  {
    hide Conserved, AllFaithful, Completed;
    assert s.owner.Keys == {};
    forall c | c in s.jobs
      ensures c in s.finished
    {
      assert c in s.jobs.Keys - s.finished ==> c in s.owner.Keys;
    }
    if s.drains != [] {
      HeadIsIn(s.drains);
    }
  }

  lemma HeadIsIn(s: seq<Id>)
    requires s != []
    ensures s[0] in s
  {
  }

  // ----- from one point of a schedule to a later one

  lemma RunPrefix(acts: seq<Action>, n: nat)
    requires Run(acts).Some? && n <= |acts|
    ensures Run(acts[..n]).Some?
  {
    if n < |acts| {
      RunPrefix(acts[..|acts| - 1], n);
      assert acts[..|acts| - 1][..n] == acts[..n];
    } else {
      assert acts[..n] == acts;
    }
  }

  predicate BeforeSnapshot(pc: Pc)
  {
    pc.ShutMark? || pc.ShutRead? || pc.ShutServer? || pc.ShutCall? || pc.ShutSnap?
  }

  /** This Shutdown has yet to take its snapshot, or took one that covers seen. */
  ghost predicate Covers(s: State, t: Id, seen: set<Id>)
  {
    t in s.threads && seen <= s.jobs.Keys &&
    (BeforeSnapshot(s.threads[t]) ||
     ((s.threads[t].ShutWait? || s.threads[t].ShutDone?) && seen <= s.threads[t].sealed))
  }

  /** Only its own steps move a goroutine, and no channel is forgotten. */
  lemma OthersUnmoved(s: State, a: Action, t: Id)
    requires Numbered(s) && t in s.threads && Next(s, a).Some?
    ensures !(a.Advance? && a.t == t) ==> t in Next(s, a).value.threads && Next(s, a).value.threads[t] == s.threads[t]
    ensures s.jobs.Keys <= Next(s, a).value.jobs.Keys
  {
    if a.Advance? {
      StepMoves(s, a.t, a.c);
    }
  }

  /** What any step does to the goroutines and to the jobs. */
  ghost predicate Moves(s: State, s': State, u: Id)
  {
    s.jobs.Keys <= s'.jobs.Keys &&
    forall t :: t in s.threads && t != u ==> t in s'.threads && s'.threads[t] == s.threads[t]
  }

  lemma SwapMoves(s: State, u: Id, bound: Option<(Id, string)>)
    ensures Moves(s, SwapStep(s, u, bound), u)
  {
  }

  lemma DrainMoves(s: State, u: Id, hs: Option<Id>, ln: Option<Id>, done: Option<Id>)
    requires Numbered(s)
    ensures Moves(s, DrainStep(s, u, hs, ln, done), u)
  {
  }

  lemma RebindMoves(s: State, u: Id, pc: Pc, c: Choice)
    requires Numbered(s) && Rebinding(pc) && RebindStep(s, u, pc, c).Some?
    ensures Moves(s, RebindStep(s, u, pc, c).value, u)
  {
    hide SwapStep, DrainStep;
    if pc.RebindSwap? {
      SwapMoves(s, u, pc.bound);
    } else if pc.RebindDrain? {
      DrainMoves(s, u, pc.hs, pc.ln, pc.done);
    }
  }

  lemma DrainingMoves(s: State, u: Id, pc: Pc)
    requires Numbered(s) && Draining(pc)
    ensures Moves(s, DrainingStep(s, u, pc), u)
  {
  }

  lemma ShutdownMoves(s: State, u: Id, pc: Pc, c: Choice)
    requires Numbered(s) && ShuttingDown(pc) && ShutdownStep(s, u, pc, c).Some?
    ensures Moves(s, ShutdownStep(s, u, pc, c).value, u)
  {
    hide RunHooks;
    if pc.ShutServer? && pc.hs.Some? {
      HooksMoves(s, u, pc.hs.value, ShutCall(pc.hs.value));
    }
  }

  lemma HooksMoves(s: State, u: Id, hs: Id, pc: Pc)
    requires Numbered(s)
    ensures Moves(s, At(RunHooks(s, hs), u, pc), u)
  {
  }

  lemma StepMoves(s: State, u: Id, c: Choice)
    requires Numbered(s) && u in s.threads && Step(s, u, c).Some?
    ensures Moves(s, Step(s, u, c).value, u)
  {
    var pc := s.threads[u];
    hide RebindStep, DrainingStep, ShutdownStep, Moves;
    if Rebinding(pc) {
      RebindMoves(s, u, pc, c);
    } else if Draining(pc) {
      DrainingMoves(s, u, pc);
    } else if ShuttingDown(pc) {
      ShutdownMoves(s, u, pc, c);
    }
  }

  lemma CoversOwnStep(s: State, t: Id, c: Choice, seen: set<Id>)
    requires Numbered(s) && Covers(s, t, seen) && Step(s, t, c).Some?
    ensures Covers(Step(s, t, c).value, t, seen)
  {
    hide RebindStep, DrainingStep, ShutdownStep;
    ShutdownMoves(s, t, s.threads[t], c);
    ShutdownCovers(s, t, s.threads[t], c);
  }

  /** The snapshot takes in every job, and stays as it was taken. */
  lemma ShutdownCovers(s: State, t: Id, pc: Pc, c: Choice)
    requires ShuttingDown(pc) && ShutdownStep(s, t, pc, c).Some?
    ensures var s' := ShutdownStep(s, t, pc, c).value;
            t in s'.threads &&
            var pc' := s'.threads[t];
            (BeforeSnapshot(pc) && BeforeSnapshot(pc')) ||
            ((pc'.ShutWait? || pc'.ShutDone?) && pc'.sealed == if pc.ShutWait? then pc.sealed else s.jobs.Keys)
  {
    hide RunHooks;
  }

  lemma RebindCommits(s: State, t: Id, pc: Pc, c: Choice)
    requires Numbered(s) && t in s.threads && Rebinding(pc) && !MayFail(pc) && RebindStep(s, t, pc, c).Some?
    ensures var s' := RebindStep(s, t, pc, c).value; t in s'.threads && !MayFail(s'.threads[t])
  {
    hide SwapStep, DrainStep;
    if pc.RebindSwap? {
      SwapCommits(s, t, pc.bound);
    } else if pc.RebindDrain? {
      DrainCommits(s, t, pc.hs, pc.ln, pc.done);
    }
  }

  lemma CommittedOwnStep(s: State, t: Id, c: Choice)
    requires Numbered(s) && t in s.threads && !MayFail(s.threads[t]) && Step(s, t, c).Some?
    ensures var s' := Step(s, t, c).value; t in s'.threads && !MayFail(s'.threads[t])
  {
    hide RebindStep, DrainingStep, ShutdownStep;
    var pc := s.threads[t];
    if Rebinding(pc) {
      RebindCommits(s, t, pc, c);
    } else if Draining(pc) {
      DrainingCommits(s, t, pc);
    } else {
      ShutdownCommits(s, t, pc, c);
    }
  }

  lemma DrainingCommits(s: State, t: Id, pc: Pc)
    requires Draining(pc)
    ensures var s' := DrainingStep(s, t, pc); t in s'.threads && !MayFail(s'.threads[t])
  {
  }

  lemma ShutdownCommits(s: State, t: Id, pc: Pc, c: Choice)
    requires ShuttingDown(pc) && ShutdownStep(s, t, pc, c).Some?
    ensures var s' := ShutdownStep(s, t, pc, c).value; t in s'.threads && !MayFail(s'.threads[t])
  {
    if pc.ShutWait? {
      WaitCommits(s, t, pc, c);
    } else {
      hide RunHooks, CloseAll;
    }
  }

  lemma WaitCommits(s: State, t: Id, pc: Pc, c: Choice)
    requires pc.ShutWait? && ShutdownStep(s, t, pc, c).Some?
    ensures var s' := ShutdownStep(s, t, pc, c).value; t in s'.threads && !MayFail(s'.threads[t])
  {
  }

  lemma SwapCommits(s: State, t: Id, bound: Option<(Id, string)>)
    ensures var s' := SwapStep(s, t, bound); t in s'.threads && !MayFail(s'.threads[t])
  {
  }

  lemma DrainCommits(s: State, t: Id, hs: Option<Id>, ln: Option<Id>, done: Option<Id>)
    requires Numbered(s) && t in s.threads
    ensures var s' := DrainStep(s, t, hs, ln, done); t in s'.threads && !MayFail(s'.threads[t])
  {
  }

  lemma CoversStays(s: State, a: Action, t: Id, seen: set<Id>)
    requires Inv(s) && Covers(s, t, seen) && Next(s, a).Some?
    ensures Covers(Next(s, a).value, t, seen)
  {
    InvIsNumbered(s);
    OthersUnmoved(s, a, t);
    if a.Advance? && a.t == t {
      CoversOwnStep(s, t, a.c, seen);
    }
    hide Inv, Next;
  }

  lemma InvIsNumbered(s: State)
    requires Inv(s)
    ensures Numbered(s)
  {
  }

  lemma {:induction false} CoversAlong(acts: seq<Action>, n: nat, t: Id, seen: set<Id>)
    requires Run(acts).Some? && n <= |acts| && Run(acts[..n]).Some? && Covers(Run(acts[..n]).value, t, seen)
    ensures Covers(Run(acts).value, t, seen)
  {
    if n < |acts| {
      var init := acts[..|acts| - 1];
      assert init[..n] == acts[..n];
      CoversAlong(init, n, t, seen);
      Always(init);
      CoversStays(Run(init).value, acts[|acts| - 1], t, seen);
    } else {
      assert acts[..n] == acts;
    }
  }

  /** A Shutdown that returns nil has seen the end of every drain that was
      detached at any point before it took its snapshot of the set: its server is
      shut down and finishDrain has taken its channel out of the slice. */
  lemma ShutdownNilMeansDrained(acts: seq<Action>, n: nat, t: Id)
    requires Run(acts).Some? && n <= |acts| && Run(acts[..n]).Some?
    requires t in Run(acts[..n]).value.threads && BeforeSnapshot(Run(acts[..n]).value.threads[t])
    requires t in Run(acts).value.threads && Run(acts).value.threads[t].ShutDone? && !Run(acts).value.threads[t].err
    ensures forall c :: c in Run(acts[..n]).value.jobs ==> c in Run(acts).value.jobs && Over(Run(acts).value, c)
  {
    var seen := Run(acts[..n]).value.jobs.Keys;
    CoversAlong(acts, n, t, seen);
    Always(acts);
    assert Faithful(Run(acts).value, Run(acts).value.threads[t]);
  }

  /** A Rebind that can still fail. */
  predicate MayFail(pc: Pc) { pc.RebindCheck? || pc.RebindListen? || (pc.RebindDone? && !pc.ok) }

  lemma CommittedStays(s: State, a: Action, t: Id)
    requires Inv(s) && t in s.threads && !MayFail(s.threads[t]) && Next(s, a).Some?
    ensures t in Next(s, a).value.threads && !MayFail(Next(s, a).value.threads[t])
  {
    InvIsNumbered(s);
    OthersUnmoved(s, a, t);
    if a.Advance? && a.t == t {
      CommittedOwnStep(s, t, a.c);
    }
    hide Inv, Next;
  }

  lemma {:induction false} CommittedAlong(acts: seq<Action>, n: nat, t: Id)
    requires Run(acts).Some? && n <= |acts| && Run(acts[..n]).Some?
    requires t in Run(acts[..n]).value.threads && !MayFail(Run(acts[..n]).value.threads[t])
    ensures t in Run(acts).value.threads && !MayFail(Run(acts).value.threads[t])
  {
    if n < |acts| {
      var init := acts[..|acts| - 1];
      assert init[..n] == acts[..n];
      CommittedAlong(init, n, t);
      Always(init);
      CommittedStays(Run(init).value, acts[|acts| - 1], t);
    } else {
      assert acts[..n] == acts;
    }
  }

  /** The part of the state that belongs to the server. */
  function ServerPart(s: State): (Option<Id>, Option<Id>, string, bool, seq<Id>)
  {
    (s.http, s.ln, s.addr, s.closed, s.drains)
  }

  lemma FailingTouchesNothing(s: State, t: Id, c: Choice)
    requires t in s.threads && MayFail(s.threads[t]) && Step(s, t, c).Some?
    requires t in Step(s, t, c).value.threads && MayFail(Step(s, t, c).value.threads[t])
    ensures ServerPart(Step(s, t, c).value) == ServerPart(s)
  {
  }

  lemma RunAt(acts: seq<Action>, n: nat)
    requires n < |acts| && Run(acts[..n + 1]).Some?
    ensures Run(acts[..n]).Some? && Run(acts[..n + 1]) == Next(Run(acts[..n]).value, acts[n])
  {
    assert acts[..n + 1][..n] == acts[..n];
    hide Next;
  }

  /** A Rebind that returned an error never changed the server: none of its steps,
      anywhere in the schedule, touched the server, listener, address, closed flag
      or drains. */
  lemma FailedRebindChangesNothing(acts: seq<Action>, n: nat, t: Id)
    requires Run(acts).Some? && n < |acts| && Run(acts[..n]).Some? && Run(acts[..n + 1]).Some?
    requires acts[n].Advance? && acts[n].t == t
    requires t in Run(acts).value.threads && Run(acts).value.threads[t].RebindDone? && !Run(acts).value.threads[t].ok
    ensures ServerPart(Run(acts[..n + 1]).value) == ServerPart(Run(acts[..n]).value)
  {
    hide Step, Run, ServerPart;
    RunAt(acts, n);
    var s, s' := Run(acts[..n]).value, Run(acts[..n + 1]).value;
    if !MayFail(s.threads[t]) {
      CommittedAlong(acts, n, t);
    }
    StillThere(s, acts[n], t);
    if !MayFail(s'.threads[t]) {
      CommittedAlong(acts, n + 1, t);
    }
    FailingTouchesNothing(s, t, acts[n].c);
  }

  lemma RebindStays(s: State, t: Id, pc: Pc, c: Choice)
    requires Rebinding(pc) && RebindStep(s, t, pc, c).Some?
    ensures t in RebindStep(s, t, pc, c).value.threads
  {
    hide SwapStep, DrainStep;
    match pc
    case RebindSwap(bound) => SwapCommits(s, t, bound);
    case RebindDrain(hs, ln, done) => DrainStays(s, t, hs, ln, done);
    case _ =>
  }

  lemma DrainStays(s: State, t: Id, hs: Option<Id>, ln: Option<Id>, done: Option<Id>)
    ensures t in DrainStep(s, t, hs, ln, done).threads
  {
  }

  lemma DrainingStays(s: State, t: Id, pc: Pc)
    requires Draining(pc)
    ensures t in DrainingStep(s, t, pc).threads
  {
  }

  lemma ShutdownStays(s: State, t: Id, pc: Pc, c: Choice)
    requires ShuttingDown(pc) && ShutdownStep(s, t, pc, c).Some?
    ensures t in ShutdownStep(s, t, pc, c).value.threads
  {
  }

  lemma StillThere(s: State, a: Action, t: Id)
    requires a.Advance? && a.t == t && Next(s, a).Some? && t in s.threads
    ensures t in Next(s, a).value.threads
  {
    hide RebindStep, DrainingStep, ShutdownStep, Rebinding, Draining, ShuttingDown;
    var pc := s.threads[t];
    if Rebinding(pc) {
      RebindStays(s, t, pc, a.c);
    } else if Draining(pc) {
      DrainingStays(s, t, pc);
    } else {
      ShutdownStays(s, t, pc, a.c);
    }
  }

  // ----- the listener a Rebind detached

  /** This Rebind has swapped and holds that listener until it has closed it. */
  predicate Carries(pc: Pc, ln: Option<Id>)
  {
    match pc
    case RebindDrain(_, l, _) => l == ln
    case RebindAwait(l, _) => l == ln
    case RebindDone(ok, was) => ok && was == ln
    case FinishRemove(_, ret) => ret == Inline(ln)
    case FinishClose(_, ret) => ret == Inline(ln)
    case _ => false
  }

  lemma SwapCarries(s: State, t: Id, c: Choice)
    requires t in s.threads && s.threads[t].RebindSwap?
    ensures Step(s, t, c).Some?
    ensures var s' := Step(s, t, c).value; t in s'.threads && Carries(s'.threads[t], s.ln)
  {
  }

  lemma DrainCarries(s: State, t: Id, pc: Pc)
    requires t < s.next && pc.RebindDrain? && (pc.done.None? ==> pc.ln.None?)
    ensures var s' := DrainStep(s, t, pc.hs, pc.ln, pc.done); t in s'.threads && Carries(s'.threads[t], pc.ln)
  {
    var s' := DrainStep(s, t, pc.hs, pc.ln, pc.done);
    if pc.done.None? {
      assert s'.threads[t] == RebindDone(true, None);
    } else if pc.hs.None? {
      assert s'.threads[t] == FinishRemove(pc.done.value, Inline(pc.ln));
    } else {
      assert s'.threads[t] == RebindAwait(pc.ln, pc.done.value);
    }
    hide DrainStep;
  }

  lemma CarriesOwnStep(s: State, t: Id, c: Choice, ln: Option<Id>)
    requires Numbered(s) && t in s.threads && Faithful(s, s.threads[t]) && Carries(s.threads[t], ln) &&
             Step(s, t, c).Some?
    ensures var s' := Step(s, t, c).value; t in s'.threads && Carries(s'.threads[t], ln)
  {
    if s.threads[t].RebindDrain? {
      DrainCarries(s, t, s.threads[t]);
    }
    hide SwapStep, DrainStep, ShutdownStep;
  }

  lemma CarriesStays(s: State, a: Action, t: Id, ln: Option<Id>)
    requires Inv(s) && t in s.threads && Carries(s.threads[t], ln) && Next(s, a).Some?
    ensures t in Next(s, a).value.threads && Carries(Next(s, a).value.threads[t], ln)
  {
    InvIsNumbered(s);
    OthersUnmoved(s, a, t);
    if a.Advance? && a.t == t {
      assert Faithful(s, s.threads[t]);
      CarriesOwnStep(s, t, a.c, ln);
    }
    hide Inv, Next;
  }

  lemma {:induction false} CarriesAlong(acts: seq<Action>, n: nat, t: Id, ln: Option<Id>)
    requires Run(acts).Some? && n <= |acts| && Run(acts[..n]).Some?
    requires t in Run(acts[..n]).value.threads && Carries(Run(acts[..n]).value.threads[t], ln)
    ensures t in Run(acts).value.threads && Carries(Run(acts).value.threads[t], ln)
  {
    if n < |acts| {
      var init := acts[..|acts| - 1];
      assert init[..n] == acts[..n];
      CarriesAlong(init, n, t, ln);
      Always(init);
      CarriesStays(Run(init).value, acts[|acts| - 1], t, ln);
    } else {
      assert acts[..n] == acts;
    }
  }

  /** A Rebind that has swapped can only return without an error, and when it has, the
      listener that it found at its swap is closed. */
  lemma RebindClosesOld(acts: seq<Action>, n: nat, t: Id)
    requires Run(acts).Some? && n < |acts| && Run(acts[..n]).Some? && Run(acts[..n + 1]).Some?
    requires acts[n].Advance? && acts[n].t == t
    requires t in Run(acts[..n]).value.threads && Run(acts[..n]).value.threads[t].RebindSwap?
    requires t in Run(acts).value.threads && Returned(Run(acts).value.threads[t])
    ensures var s := Run(acts).value;
            s.threads[t].RebindDone? && s.threads[t].ok && ClosedIfAny(s, Run(acts[..n]).value.ln)
  {
    hide Run, Step, Inv;
    var was := Run(acts[..n]).value;
    RunAt(acts, n);
    SwapCarries(was, t, acts[n].c);
    CarriesAlong(acts, n + 1, t, was.ln);
    Always(acts);
    InvIsFaithful(Run(acts).value, t);
  }

  lemma InvIsFaithful(s: State, t: Id)
    requires Inv(s) && t in s.threads
    ensures Faithful(s, s.threads[t])
  {
  }
}
