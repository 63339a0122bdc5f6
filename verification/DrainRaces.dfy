/** What the guards of the drain are for: one schedule that needs them. */
module DrainRaces {
  import opened Wrappers
  import opened Drain

  const OK := Choice(true, "")

  /** A Shutdown reads the server, a Rebind detaches it and waits for its drain to
      start, and the Shutdown's own call runs the drain's hook. */
  const EARLY := [
    Serve("a"), CallShutdown, Advance(2, OK), Advance(2, OK),
    CallRebind(""), Advance(3, OK), Advance(3, OK), Advance(3, OK),
    Advance(2, OK), Advance(7, OK), Advance(3, OK)]

  const TWICE := EARLY + [Advance(6, OK)]

  /** The state after the first k actions. */
  ghost predicate Reached(k: nat, s: State) { k <= |TWICE| && Run(TWICE[..k]) == Some(s) }

  lemma Play(k: nat, a: Action, s: State, s': State)
    requires Reached(k, s) && k < |TWICE| && TWICE[k] == a && Next(s, a) == Some(s')
    ensures Reached(k + 1, s')
  {
    assert TWICE[..k + 1][..k] == TWICE[..k];
    hide Next;
  }

  lemma Begin()
    ensures Reached(0, INIT)
  {
    assert TWICE[..0] == [];
  }

  /** The Rebind has detached the server that the Shutdown has read. */
  function Detached(): State
  {
    INIT.(closed := true, drains := [4], jobs := map[4 := Job(Some(0), Some(1))], owner := map[4 := 3],
          installed := {0}, next := 6,
          threads := map[2 := ShutServer(Some(0), Some(1)), 3 := RebindDrain(Some(0), Some(1), Some(4))])
  }

  /** A server is up and a Shutdown has been called. */
  function Called(): State
  {
    INIT.(http := Some(0), ln := Some(1), addr := "a", installed := {0}, next := 3, threads := map[2 := ShutMark])
  }

  lemma Calls()
    ensures Reached(2, Called())
  {
    hide Reached, Step;
    Begin();
    var s1 := INIT.(http := Some(0), ln := Some(1), addr := "a", installed := {} + {0}, next := 2);
    Play(0, Serve("a"), INIT, s1);
    var s2 := s1.(threads := s1.threads[2 := ShutMark], next := 3);
    Play(1, CallShutdown, s1, s2);
    assert s2.threads == Called().threads && s2.installed == {0};
  }

  /** The Shutdown has read the server. */
  function Read(): State
  {
    INIT.(http := Some(0), ln := Some(1), addr := "a", closed := true, installed := {0}, next := 3,
          threads := map[2 := ShutServer(Some(0), Some(1))])
  }

  lemma Reads()
    ensures Reached(4, Read())
  {
    hide Reached, RebindStep, SwapStep, DrainStep, DrainingStep, RunHooks;
    Calls();
    var s2 := Called();
    var s3 := At(s2.(closed := true), 2, ShutRead);
    Play(2, Advance(2, OK), s2, s3);
    var s4 := At(s3, 2, ShutServer(Some(0), Some(1)));
    Play(3, Advance(2, OK), s3, s4);
    assert s4.threads == Read().threads;
  }

  lemma Detaches()
    requires Reached(4, Read())
    ensures Reached(7, Detached())
  {
    hide Reached;
    var s4 := Read();
    var s5 := s4.(threads := s4.threads[3 := RebindCheck("")], next := 4);
    Play(4, CallRebind(""), s4, s5);
    var s6 := At(s5, 3, RebindSwap(None));
    Play(5, Advance(3, OK), s5, s6);
    var s7 := At(s6.(http := None, ln := None, addr := "", drains := [] + [4], next := 6,
                     jobs := s6.jobs[4 := Job(Some(0), Some(1))], owner := s6.owner[4 := 3]),
                 3, RebindDrain(Some(0), Some(1), Some(4)));
    Play(6, Advance(3, OK), s6, s7);
    assert s7.threads == Detached().threads && s7.drains == [4];
  }

  /** The drain has been handed to a goroutine of its own. */
  function Waiting(): State
  {
    Detached().(threads := Detached().threads[3 := RebindAwait(Some(1), 4)][6 := DrainShut(0, 4)], next := 7,
                owner := Detached().owner[4 := 6], hooks := map[0 := 4])
  }

  /** The Shutdown's call has run the hook, and the Rebind has gone on. */
  function Released(): State
  {
    var s := Waiting();
    s.(threads := s.threads[7 := HookDone][2 := ShutCall(0)][3 := RebindDone(true, Some(1))], next := 8,
       once := {4}, ready := {4}, closedLns := {1})
  }

  lemma Releases()
    requires Reached(7, Detached())
    ensures Reached(11, Released())
  {
    hide Reached;
    var s8 := Waiting();
    Play(7, Advance(3, OK), Detached(), s8);
    var s9 := At(s8.(threads := s8.threads[7 := Hook(4)], next := 8), 2, ShutCall(0));
    Play(8, Advance(2, OK), s8, s9);
    var s10 := At(s9.(once := s9.once + {4}, ready := s9.ready + {4}), 7, HookDone);
    Play(9, Advance(7, OK), s9, s10);
    var s11 := At(s10.(closedLns := s10.closedLns + {1}), 3, RebindDone(true, Some(1)));
    Play(10, Advance(3, OK), s10, s11);
    assert s11.threads == Released().threads && s11.once == {4} && s11.closedLns == {1};
  }

  /** The Rebind returns, its listener closed, before the goroutine of its drain has
      called Shutdown; and when that does, the hook runs again although its channel is
      closed: without the guard the second close would panic. */
  lemma HookRunsAgain()
    ensures Run(EARLY).Some? && Run(TWICE).Some?
    ensures var s := Run(EARLY).value;
            3 in s.threads && s.threads[3] == RebindDone(true, Some(1)) && 1 in s.closedLns &&
            6 in s.threads && s.threads[6] == DrainShut(0, 4)
    ensures var s := Run(TWICE).value; 8 in s.threads && s.threads[8] == Hook(4) && 4 in s.ready
  {
    hide Run;
    Reads();
    Detaches();
    Releases();
    var s := Released();
    Play(11, Advance(6, OK), s, At(s.(threads := s.threads[8 := Hook(4)], next := 9), 6, DrainWait(0, 4)));
    assert TWICE[..11] == EARLY && TWICE[..12] == TWICE;
  }
}
