/**
 Properties of whole runs: the loop of `start()` over a finite sequence of
 ticks, the log it produces, and what happens once STOPPED is reached.
 */
module RunProperties {
  import opened Time
  import opened Fsm
  import opened FsmProperties

  /** Reference semantics of a run: every tick is applied, without looking at the state. */
  function Fold(m: Machine, ticks: seq<Tick>): Machine
    decreases |ticks|
  {
    if |ticks| == 0 then m else Fold(Update(m, ticks[0].now, ticks[0].cmd), ticks[1..])
  }

  /** The number of ticks of a run that perform a transition. */
  function CountTransitions(m: Machine, ticks: seq<Tick>): nat
    decreases |ticks|
  {
    if |ticks| == 0 then 0
    else
      (if Transitions(m, ticks[0].now, ticks[0].cmd) then 1 else 0)
      + CountTransitions(Update(m, ticks[0].now, ticks[0].cmd), ticks[1..])
  }

  /** Running the loop over two batches of ticks is running it over their concatenation. */
  lemma {:induction false} RunLoopAppend(m: Machine, first: seq<Tick>, second: seq<Tick>)
    ensures RunLoop(m, first + second) == RunLoop(RunLoop(m, first), second)
    decreases |first|
  {
    if m.currentState != Stopped && |first| > 0 {
      assert (first + second)[0] == first[0];
      assert (first + second)[1..] == first[1..] + second;
      RunLoopAppend(Update(m, first[0].now, first[0].cmd), first[1..], second);
    } else if m.currentState == Stopped {
      assert RunLoop(m, first) == m;
    } else {
      assert first + second == second;
    }
  }

  /** STOPPED is terminal: no later tick changes any field. */
  lemma {:induction false} StoppedAbsorbs(m: Machine, ticks: seq<Tick>)
    requires m.currentState == Stopped
    ensures Fold(m, ticks) == m
    decreases |ticks|
  {
    if |ticks| > 0 {
      StoppedAbsorbs(Update(m, ticks[0].now, ticks[0].cmd), ticks[1..]);
    }
  }

  /** Leaving the loop at STOPPED loses nothing: the loop agrees with the plain fold. */
  lemma {:induction false} RunLoopIsFold(m: Machine, ticks: seq<Tick>)
    ensures RunLoop(m, ticks) == Fold(m, ticks)
    decreases |ticks|
  {
    if m.currentState == Stopped {
      StoppedAbsorbs(m, ticks);
    } else if |ticks| > 0 {
      RunLoopIsFold(Update(m, ticks[0].now, ticks[0].cmd), ticks[1..]);
    }
  }

  /**
   The log is append-only over a run and grows by exactly one record per
   transition performed.
   */
  lemma {:induction false} FoldHistory(m: Machine, ticks: seq<Tick>)
    ensures var r := Fold(m, ticks);
      && |r.stateHistory| == |m.stateHistory| + CountTransitions(m, ticks)
      && r.stateHistory[..|m.stateHistory|] == m.stateHistory
    decreases |ticks|
  {
    if |ticks| > 0 {
      var next := Update(m, ticks[0].now, ticks[0].cmd);
      UpdateFollowsTable(m, ticks[0].now, ticks[0].cmd);
      FoldHistory(next, ticks[1..]);
      var r := Fold(next, ticks[1..]);
      assert next.stateHistory[..|m.stateHistory|] == m.stateHistory;
      assert r.stateHistory[..|m.stateHistory|] == r.stateHistory[..|next.stateHistory|][..|m.stateHistory|];
    }
  }

  lemma {:induction false} FoldPreservesInvariant(m: Machine, ticks: seq<Tick>)
    requires Invariant(m)
    ensures Invariant(Fold(m, ticks))
    decreases |ticks|
  {
    if |ticks| > 0 {
      UpdatePreservesInvariant(m, ticks[0].now, ticks[0].cmd);
      FoldPreservesInvariant(Update(m, ticks[0].now, ticks[0].cmd), ticks[1..]);
    }
  }

  /**
   A run of a freshly constructed engine: the counters stay in range; if it
   reached STOPPED the log has been cleared, otherwise the log starts with the
   INIT record, has one record per transition besides it, forms a path of the
   table and ends in the current state.
   */
  lemma StartFromNew(d: u32, t0: u32, ticks: seq<Tick>)
    ensures var entered := TransitionToState(NewMachine(d), Init, t0);
      var r := Start(NewMachine(d), t0, ticks);
      && CountersInRange(r)
      && (r.currentState == Stopped ==> r.stateHistory == [])
      && (r.currentState != Stopped ==>
            && |r.stateHistory| == 1 + CountTransitions(entered, ticks)
            && r.stateHistory[0] == Entry(Init, t0)
            && HistoryConsistent(r))
  {
    var entered := TransitionToState(NewMachine(d), Init, t0);
    NewMachineInvariant(d, t0);
    RunLoopIsFold(entered, ticks);
    FoldPreservesInvariant(entered, ticks);
    FoldHistory(entered, ticks);
    var f := Fold(entered, ticks);
    assert f.stateHistory[..1] == [Entry(Init, t0)];
    assert f.stateHistory[0] == f.stateHistory[..1][0];
  }
}
