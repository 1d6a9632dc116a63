/**
 The finite-state-machine engine of class `FSM` in fsm.cpp.

 The engine is one record: the current state, the update delay, the time of
 the last heartbeat, an error counter, a move counter and an append-only log
 of `(state, time)` pairs. Every operation is a pure function from the old
 record to the new one. The two impure inputs of the C++ code become
 parameters: the clock reading `now` (what `millis()` returns) and the console
 token `cmd` (what `cin >> choiceStr` reads while IDLE).
 */
module Fsm {
  import opened Time

  datatype SystemState = Init | Idle | Movement | Shooting | Calculation | Error | Stopped

  /** One history record: the state entered and the clock reading at that moment. */
  datatype Entry = Entry(state: SystemState, time: u32)

  /** The fields of an `FSM` object; the getters of the class are the field selectors. */
  datatype Machine = Machine(
    currentState: SystemState,
    lastHeartbeat: u32,
    delay: u32,
    errorCount: int,
    moveCount: int,
    stateHistory: seq<Entry>)

  /** The delay installed when initialisation completes, in milliseconds. */
  const INIT_DELAY: u32 := 1000
  /** A movement that brings the move counter to this value is followed by shooting. */
  const MOVES_BEFORE_SHOOTING: int := 3
  /** An error that brings the error counter to this value stops the engine. */
  const MAX_ERRORS: int := 3

  /** Both constructors; the default one is `NewMachine(0)`. */
  function NewMachine(initialDelay: u32): Machine {
    Machine(Init, 0, initialDelay, 0, 0, [])
  }

  function SetDelay(m: Machine, newDelay: u32): Machine {
    m.(delay := newDelay)
  }

  function SetErrorCount(m: Machine, count: int): Machine {
    m.(errorCount := count)
  }

  function SetMoveCount(m: Machine, count: int): Machine {
    m.(moveCount := count)
  }

  function SetLastHeartbeat(m: Machine, heartbeat: u32): Machine {
    m.(lastHeartbeat := heartbeat)
  }

  function AddStateToHistory(m: Machine, s: SystemState, time: u32): Machine {
    m.(stateHistory := m.stateHistory + [Entry(s, time)])
  }

  /**
   Enter state `s` at time `now`: the heartbeat is stamped with `now` and
   exactly one record is appended to the log; nothing else changes. No check
   is made that `s` is a legal successor of the current state.
   */
  function TransitionToState(m: Machine, s: SystemState, now: u32): (r: Machine)
    ensures r.currentState == s && r.lastHeartbeat == now
    ensures |r.stateHistory| == |m.stateHistory| + 1
    ensures r.stateHistory[..|m.stateHistory|] == m.stateHistory
    ensures r.stateHistory[|m.stateHistory|] == Entry(s, now)
    ensures r.delay == m.delay && r.errorCount == m.errorCount && r.moveCount == m.moveCount
  {
    AddStateToHistory(m.(currentState := s, lastHeartbeat := now), s, now)
  }

  function PerformInit(m: Machine, now: u32): Machine {
    TransitionToState(m.(delay := INIT_DELAY), Idle, now)
  }

  /** The IDLE action: the token read from the console chooses the next state. */
  function PerformProcess(m: Machine, now: u32, cmd: string): Machine {
    if cmd == "1" then
      m  // status and history are shown by the presentation layer; no transition
    else if cmd == "2" then
      TransitionToState(m, Movement, now)
    else if cmd == "3" then
      TransitionToState(m, Shooting, now)
    else if cmd == "4" then
      TransitionToState(m, Calculation, now)
    else if cmd == "5" then
      TransitionToState(m, Stopped, now)
    else
      m  // invalid choice: stay IDLE
  }

  function PerformMovement(m: Machine, now: u32): Machine {
    var moved := m.(moveCount := m.moveCount + 1);
    if moved.moveCount >= MOVES_BEFORE_SHOOTING then
      TransitionToState(moved, Shooting, now)
    else
      TransitionToState(moved, Idle, now)
  }

  function PerformShooting(m: Machine, now: u32): Machine {
    TransitionToState(m.(moveCount := 0), Idle, now)
  }

  function PerformCalculation(m: Machine, now: u32): Machine {
    if m.moveCount == 0 then
      TransitionToState(m, Error, now)
    else
      TransitionToState(m, Idle, now)
  }

  function PerformErrorHandling(m: Machine, now: u32): Machine {
    var failed := m.(errorCount := m.errorCount + 1);
    if failed.errorCount >= MAX_ERRORS then
      TransitionToState(failed, Stopped, now)
    else
      TransitionToState(failed, Idle, now)
  }

  /**
   The timing gate of `update()`: outside INIT, a tick is ignored while less
   than `delay` milliseconds (measured in 32-bit arithmetic) have passed
   since the last heartbeat.
   */
  predicate GateClosed(m: Machine, now: u32) {
    m.currentState != Init && Elapsed(now, m.lastHeartbeat) < m.delay
  }

  function Dispatch(m: Machine, now: u32, cmd: string): Machine {
    match m.currentState
    case Init => PerformInit(m, now)
    case Idle => PerformProcess(m, now, cmd)
    case Movement => PerformMovement(m, now)
    case Shooting => PerformShooting(m, now)
    case Calculation => PerformCalculation(m, now)
    case Error => PerformErrorHandling(m, now)
    case Stopped => m  // left to the loop in `Start`
  }

  /**
   One tick of `update()` at clock reading `now`, with `cmd` the token the
   console would supply if the engine is IDLE.
   */
  function Update(m: Machine, now: u32, cmd: string): Machine {
    if GateClosed(m, now) then
      m
    else
      var d := Dispatch(m, now, cmd);
      if d.currentState != Stopped then d.(lastHeartbeat := now) else d
  }

  /** Final cleanup: the log is emptied and every other field is kept. */
  function Shutdown(m: Machine): (r: Machine)
    ensures r.stateHistory == []
    ensures r.(stateHistory := m.stateHistory) == m
  {
    m.(stateHistory := [])
  }

  /** One iteration input of the run loop: the clock reading and the console token. */
  datatype Tick = Tick(now: u32, cmd: string)

  /**
   The `while` loop of `start()`: tick until STOPPED is reached or the
   supplied inputs run out. The sleep between ticks is not modelled; the clock
   readings in `ticks` carry the passage of time, including any gating they
   cause.
   */
  function RunLoop(m: Machine, ticks: seq<Tick>): Machine
    decreases |ticks|
  {
    if m.currentState == Stopped || |ticks| == 0 then
      m
    else
      RunLoop(Update(m, ticks[0].now, ticks[0].cmd), ticks[1..])
  }

  /**
   `start()`: enter INIT at time `t0`, run the loop, and shut down once the
   loop has reached STOPPED.
   */
  function Start(m: Machine, t0: u32, ticks: seq<Tick>): Machine {
    var r := RunLoop(TransitionToState(m, Init, t0), ticks);
    if r.currentState == Stopped then Shutdown(r) else r
  }
}
