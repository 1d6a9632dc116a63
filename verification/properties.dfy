/**
 Properties of a single tick of the engine: what each state's action does,
 the gate, the transition table the actions implement, and the invariant
 every tick preserves.
 */
module FsmProperties {
  import opened Time
  import opened Fsm

  // ---------------------------------------------------------------------------
  // Accessors and construction
  // ---------------------------------------------------------------------------

  /**
   Each setter writes exactly its own field: get-after-set, set-what-you-got,
   set-twice, and restoring the old value of that field gives back the
   original engine, so no other field is touched.
   */
  lemma SetterLaws(m: Machine, d1: u32, d2: u32, c1: int, c2: int, h1: u32, h2: u32)
    ensures SetDelay(m, d1).delay == d1 && SetDelay(m, m.delay) == m
    ensures SetDelay(SetDelay(m, d1), d2) == SetDelay(m, d2)
    ensures SetErrorCount(m, c1).errorCount == c1 && SetErrorCount(m, m.errorCount) == m
    ensures SetErrorCount(SetErrorCount(m, c1), c2) == SetErrorCount(m, c2)
    ensures SetMoveCount(m, c1).moveCount == c1 && SetMoveCount(m, m.moveCount) == m
    ensures SetMoveCount(SetMoveCount(m, c1), c2) == SetMoveCount(m, c2)
    ensures SetLastHeartbeat(m, h1).lastHeartbeat == h1 && SetLastHeartbeat(m, m.lastHeartbeat) == m
    ensures SetLastHeartbeat(SetLastHeartbeat(m, h1), h2) == SetLastHeartbeat(m, h2)
    ensures SetDelay(m, d1).(delay := m.delay) == m
    ensures SetErrorCount(m, c1).(errorCount := m.errorCount) == m
    ensures SetMoveCount(m, c1).(moveCount := m.moveCount) == m
    ensures SetLastHeartbeat(m, h1).(lastHeartbeat := m.lastHeartbeat) == m
    ensures SetDelay(m, d1).stateHistory == m.stateHistory
         && SetErrorCount(m, c1).stateHistory == m.stateHistory
         && SetMoveCount(m, c1).stateHistory == m.stateHistory
         && SetLastHeartbeat(m, h1).stateHistory == m.stateHistory
  {
  }

  /** Adding a record appends exactly it to the log and touches no other field. */
  lemma AddStateToHistoryAppends(m: Machine, s: SystemState, time: u32)
    ensures var r := AddStateToHistory(m, s, time);
      && |r.stateHistory| == |m.stateHistory| + 1
      && r.stateHistory[..|m.stateHistory|] == m.stateHistory
      && r.stateHistory[|m.stateHistory|] == Entry(s, time)
      && r.(stateHistory := m.stateHistory) == m
  {
  }

  // ---------------------------------------------------------------------------
  // The gate
  // ---------------------------------------------------------------------------

  /**
   With the heartbeat and the tick stamped by the 32-bit clock, the gate
   compares the true elapsed time with the delay, across a counter wrap too,
   provided fewer than 2^32 milliseconds passed.
   */
  lemma GateMeasuresTrueTime(m: Machine, heartbeatMs: nat, nowMs: nat)
    requires m.lastHeartbeat == Millis(heartbeatMs)
    requires heartbeatMs <= nowMs < heartbeatMs + TWO_TO_THE_32
    ensures GateClosed(m, Millis(nowMs)) <==> m.currentState != Init && nowMs - heartbeatMs < m.delay
  {
    ElapsedAcrossWrap(heartbeatMs, nowMs);
  }

  /**
   A gate that opens at one clock reading stays open at any later reading
   within 2^32 ms of the heartbeat, so it does not matter which of the
   readings a tick takes is used for the gate.
   */
  lemma GateStaysOpen(m: Machine, heartbeatMs: nat, gateMs: nat, laterMs: nat)
    requires m.lastHeartbeat == Millis(heartbeatMs)
    requires heartbeatMs <= gateMs <= laterMs < heartbeatMs + TWO_TO_THE_32
    requires !GateClosed(m, Millis(gateMs))
    ensures !GateClosed(m, Millis(laterMs))
  {
    GateMeasuresTrueTime(m, heartbeatMs, gateMs);
    GateMeasuresTrueTime(m, heartbeatMs, laterMs);
  }

  /**
   What every tick guarantees, whatever the state: a gated tick or a STOPPED
   engine changes nothing; otherwise the heartbeat is refreshed unless the
   engine stopped; the log grows by at most one record, naming the new state,
   and grows exactly when the state changes; only INIT changes the delay and
   only ERROR changes the error count.
   */
  lemma UpdateShape(m: Machine, now: u32, cmd: string)
    ensures var r := Update(m, now, cmd);
      && (GateClosed(m, now) ==> r == m)
      && (m.currentState == Stopped ==> r == m)
      && (!GateClosed(m, now) && r.currentState != Stopped ==> r.lastHeartbeat == now)
      && (r.stateHistory == m.stateHistory || r.stateHistory == m.stateHistory + [Entry(r.currentState, now)])
      && (r.currentState != m.currentState <==> |r.stateHistory| == |m.stateHistory| + 1)
      && (r.delay == m.delay || (m.currentState == Init && r.delay == INIT_DELAY))
      && (r.errorCount == m.errorCount || (m.currentState == Error && r.errorCount == m.errorCount + 1))
  {
  }

  // ---------------------------------------------------------------------------
  // One lemma per state: the action a tick performs once past the gate
  // ---------------------------------------------------------------------------

  /** INIT ignores the gate: it installs the 1000 ms delay and enters IDLE. */
  lemma InitStep(m: Machine, now: u32, cmd: string)
    requires m.currentState == Init
    ensures var r := Update(m, now, cmd);
      && r.currentState == Idle
      && r.delay == INIT_DELAY
      && r.lastHeartbeat == now
      && r.stateHistory == m.stateHistory + [Entry(Idle, now)]
      && r.errorCount == m.errorCount && r.moveCount == m.moveCount
  {
  }

  /**
   IDLE follows the console token: "2", "3", "4", "5" enter MOVEMENT,
   SHOOTING, CALCULATION, STOPPED; "1" and every other token leave the state,
   the counters and the log alone and only refresh the heartbeat.
   */
  lemma IdleStep(m: Machine, now: u32, cmd: string)
    requires m.currentState == Idle && !GateClosed(m, now)
    ensures var r := Update(m, now, cmd);
      && r.lastHeartbeat == now
      && r.delay == m.delay && r.errorCount == m.errorCount && r.moveCount == m.moveCount
      && (cmd == "2" ==> r.currentState == Movement)
      && (cmd == "3" ==> r.currentState == Shooting)
      && (cmd == "4" ==> r.currentState == Calculation)
      && (cmd == "5" ==> r.currentState == Stopped)
      && (cmd in {"2", "3", "4", "5"} ==> r.stateHistory == m.stateHistory + [Entry(r.currentState, now)])
      && (cmd !in {"2", "3", "4", "5"} ==> r == m.(lastHeartbeat := now))
  {
  }

  /** MOVEMENT counts one move and shoots once the count reaches 3, else returns to IDLE. */
  lemma MovementStep(m: Machine, now: u32, cmd: string)
    requires m.currentState == Movement && !GateClosed(m, now)
    ensures var r := Update(m, now, cmd);
      && r.moveCount == m.moveCount + 1
      && (r.currentState == Shooting <==> r.moveCount >= MOVES_BEFORE_SHOOTING)
      && (r.currentState == Idle <==> r.moveCount < MOVES_BEFORE_SHOOTING)
      && r.stateHistory == m.stateHistory + [Entry(r.currentState, now)]
      && r.lastHeartbeat == now && r.delay == m.delay && r.errorCount == m.errorCount
  {
  }

  /** SHOOTING resets the move count and always returns to IDLE. */
  lemma ShootingStep(m: Machine, now: u32, cmd: string)
    requires m.currentState == Shooting && !GateClosed(m, now)
    ensures var r := Update(m, now, cmd);
      && r.moveCount == 0
      && r.currentState == Idle
      && r.stateHistory == m.stateHistory + [Entry(Idle, now)]
      && r.lastHeartbeat == now && r.delay == m.delay && r.errorCount == m.errorCount
  {
  }

  /** CALCULATION keeps the move count and fails exactly when no move was made. */
  lemma CalculationStep(m: Machine, now: u32, cmd: string)
    requires m.currentState == Calculation && !GateClosed(m, now)
    ensures var r := Update(m, now, cmd);
      && r.moveCount == m.moveCount
      && (r.currentState == Error <==> m.moveCount == 0)
      && (r.currentState == Idle <==> m.moveCount != 0)
      && r.stateHistory == m.stateHistory + [Entry(r.currentState, now)]
      && r.lastHeartbeat == now && r.delay == m.delay && r.errorCount == m.errorCount
  {
  }

  /** ERROR counts one error and stops once the count reaches 3, else returns to IDLE. */
  lemma ErrorStep(m: Machine, now: u32, cmd: string)
    requires m.currentState == Error && !GateClosed(m, now)
    ensures var r := Update(m, now, cmd);
      && r.errorCount == m.errorCount + 1
      && (r.currentState == Stopped <==> r.errorCount >= MAX_ERRORS)
      && (r.currentState == Idle <==> r.errorCount < MAX_ERRORS)
      && r.stateHistory == m.stateHistory + [Entry(r.currentState, now)]
      && r.lastHeartbeat == now && r.delay == m.delay && r.moveCount == m.moveCount
  {
  }

  // ---------------------------------------------------------------------------
  // The transition table the actions implement
  // ---------------------------------------------------------------------------

  /**
   The edges the per-state actions can take. No edge enters INIT (only
   `Start` does, without a check) and none leaves STOPPED.
   */
  predicate Edge(from: SystemState, to: SystemState) {
    match from
    case Init => to == Idle
    case Idle => to == Movement || to == Shooting || to == Calculation || to == Stopped
    case Movement => to == Shooting || to == Idle
    case Shooting => to == Idle
    case Calculation => to == Error || to == Idle
    case Error => to == Stopped || to == Idle
    case Stopped => false
  }

  /** Whether a tick performs a transition, decided from the state, gate and token alone. */
  predicate Transitions(m: Machine, now: u32, cmd: string) {
    && !GateClosed(m, now)
    && match m.currentState
       case Idle => cmd == "2" || cmd == "3" || cmd == "4" || cmd == "5"
       case Stopped => false
       case _ => true
  }

  /**
   A tick either leaves state and log as they were, or follows an edge of the
   table and appends exactly that one record; which of the two happens is
   decided by `Transitions`.
   */
  lemma UpdateFollowsTable(m: Machine, now: u32, cmd: string)
    ensures var r := Update(m, now, cmd);
      && (Transitions(m, now, cmd) ==>
            Edge(m.currentState, r.currentState)
            && r.stateHistory == m.stateHistory + [Entry(r.currentState, now)])
      && (!Transitions(m, now, cmd) ==>
            r.currentState == m.currentState && r.stateHistory == m.stateHistory)
  {
    var r := Update(m, now, cmd);
    if Transitions(m, now, cmd) {
      match m.currentState
      case Init => InitStep(m, now, cmd);
      case Idle => IdleStep(m, now, cmd);
      case Movement => MovementStep(m, now, cmd);
      case Shooting => ShootingStep(m, now, cmd);
      case Calculation => CalculationStep(m, now, cmd);
      case Error => ErrorStep(m, now, cmd);
    } else if !GateClosed(m, now) && m.currentState == Idle {
      IdleStep(m, now, cmd);
    }
  }

  /** Every edge of the table is taken by some tick, so the table has no edge to spare. */
  lemma EveryEdgeIsTaken(from: SystemState, to: SystemState)
    requires Edge(from, to)
    ensures exists m: Machine, now: u32, cmd: string ::
      m.currentState == from && Update(m, now, cmd).currentState == to
  {
    var cmd := match to
      case Movement => "2"
      case Shooting => "3"
      case Calculation => "4"
      case Stopped => "5"
      case _ => "";
    var moves := if from == Movement && to == Shooting then 2
      else if from == Calculation && to == Idle then 1
      else 0;
    var errors := if from == Error && to == Stopped then 2 else 0;
    var m := Machine(from, 0, 0, errors, moves, []);
    assert Update(m, 0, cmd).currentState == to;
  }

  // ---------------------------------------------------------------------------
  // The invariant of a run
  // ---------------------------------------------------------------------------

  /**
   Bounds on the counters: at most two moves are pending except right after
   the third (then SHOOTING resets them), and at most two errors have been
   absorbed unless the third one stopped the engine.
   */
  predicate CountersInRange(m: Machine) {
    && 0 <= m.moveCount <= (if m.currentState == Shooting then MOVES_BEFORE_SHOOTING else MOVES_BEFORE_SHOOTING - 1)
    && (0 <= m.errorCount < MAX_ERRORS || (m.currentState == Stopped && m.errorCount == MAX_ERRORS))
  }

  /** Consecutive records of the log are edges of the table. */
  predicate HistoryChained(h: seq<Entry>) {
    forall i :: 0 < i < |h| ==> Edge(h[i - 1].state, h[i].state)
  }

  /** The log is a path of the table that ends in the current state. */
  predicate HistoryConsistent(m: Machine) {
    && HistoryChained(m.stateHistory)
    && (|m.stateHistory| > 0 ==> m.stateHistory[|m.stateHistory| - 1].state == m.currentState)
  }

  predicate Invariant(m: Machine) {
    CountersInRange(m) && HistoryConsistent(m)
  }

  lemma ChainExtends(h: seq<Entry>, e: Entry)
    requires HistoryChained(h)
    requires |h| > 0 ==> Edge(h[|h| - 1].state, e.state)
    ensures HistoryChained(h + [e])
  {
    var h' := h + [e];
    forall i | 0 < i < |h'|
      ensures Edge(h'[i - 1].state, h'[i].state)
    {
      if i < |h| {
        assert h'[i - 1] == h[i - 1] && h'[i] == h[i];
      }
    }
  }

  /**
   A fresh engine satisfies the invariant, and so does one that has just
   entered INIT from the fresh state, as `Start` does.
   */
  lemma NewMachineInvariant(d: u32, t0: u32)
    ensures var m := NewMachine(d);
      && m.currentState == Init && m.delay == d && m.lastHeartbeat == 0
      && m.errorCount == 0 && m.moveCount == 0 && m.stateHistory == []
      && Invariant(m)
      && Invariant(TransitionToState(m, Init, t0))
  {
  }

  lemma UpdatePreservesInvariant(m: Machine, now: u32, cmd: string)
    requires Invariant(m)
    ensures Invariant(Update(m, now, cmd))
  {
    var r := Update(m, now, cmd);
    UpdateFollowsTable(m, now, cmd);
    if Transitions(m, now, cmd) {
      ChainExtends(m.stateHistory, Entry(r.currentState, now));
      match m.currentState
      case Init => InitStep(m, now, cmd);
      case Idle => IdleStep(m, now, cmd);
      case Movement => MovementStep(m, now, cmd);
      case Shooting => ShootingStep(m, now, cmd);
      case Calculation => CalculationStep(m, now, cmd);
      case Error => ErrorStep(m, now, cmd);
    } else if !GateClosed(m, now) && m.currentState == Idle {
      IdleStep(m, now, cmd);
    }
  }

  /** Under the invariant the third consecutive move is exactly the one that leads to SHOOTING. */
  lemma ThirdMoveShoots(m: Machine, now: u32, cmd: string)
    requires Invariant(m) && m.currentState == Movement && !GateClosed(m, now)
    ensures Update(m, now, cmd).currentState == Shooting <==> m.moveCount == MOVES_BEFORE_SHOOTING - 1
    ensures Update(m, now, cmd).currentState == Idle <==> m.moveCount < MOVES_BEFORE_SHOOTING - 1
  {
    MovementStep(m, now, cmd);
  }

  /** Under the invariant the third handled error is exactly the one that stops the engine. */
  lemma ThirdErrorStops(m: Machine, now: u32, cmd: string)
    requires Invariant(m) && m.currentState == Error && !GateClosed(m, now)
    ensures Update(m, now, cmd).currentState == Stopped <==> m.errorCount == MAX_ERRORS - 1
    ensures Update(m, now, cmd).currentState == Idle <==> m.errorCount < MAX_ERRORS - 1
  {
    ErrorStep(m, now, cmd);
  }
}
