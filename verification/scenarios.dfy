/**
 Concrete runs of the engine, computed from the model. Each run starts a
 freshly constructed engine (default delay 0) at an arbitrary clock reading
 `t0` and feeds it ticks one second apart, as the pacing of `start()`
 provides, with fixed console tokens. The runs are built from rounds of
 console interaction that start and end at IDLE; each whole run is chained
 from its rounds one stretch per lemma, with the engine between stretches
 named (`Moved`, `Shot`, `Calculated`, `Failed`).
 */
module Scenarios {
  import opened Time
  import opened Fsm
  import opened RunProperties

  /** The runs below span eleven seconds; they must end before the 32-bit clock wraps. */
  const LATEST_START: int := TWO_TO_THE_32 - 11001

  /** One iteration of the loop of `start()` while the engine is not stopped. */
  lemma RunLoopStep(m: Machine, t: Tick, rest: seq<Tick>)
    requires m.currentState != Stopped
    ensures RunLoop(m, [t] + rest) == RunLoop(Update(m, t.now, t.cmd), rest)
  {
    assert ([t] + rest)[1..] == rest;
  }

  /** Chaining two stretches of a run whose outcomes are known. */
  lemma Compose(a: Machine, first: seq<Tick>, b: Machine, second: seq<Tick>, c: Machine)
    requires RunLoop(a, first) == b && RunLoop(b, second) == c
    ensures RunLoop(a, first + second) == c
  {
    RunLoopAppend(a, first, second);
  }

  /** An IDLE engine that was initialised and whose gate is open at time `t`. */
  predicate ReadyAt(m: Machine, t: u32) {
    && m.currentState == Idle
    && m.delay == INIT_DELAY
    && Elapsed(t, m.lastHeartbeat) >= INIT_DELAY
    && t <= TWO_TO_THE_32 - 3001
  }

  // ---------------------------------------------------------------------------
  // Rounds
  // ---------------------------------------------------------------------------

  /** The INIT tick, which reads no token. */
  function InitInputs(t0: u32): seq<Tick>
    requires t0 <= LATEST_START
  {
    [Tick(t0, "")]
  }

  function Initialised(t0: u32): Machine {
    Machine(Idle, t0, INIT_DELAY, 0, 0, [Entry(Init, t0), Entry(Idle, t0)])
  }

  /**
   INIT is not gated and leaves the engine initialised. An IDLE tick only
   500 ms later is gated: it returns before reading any token, so whatever
   token it is given is unused and the engine is unchanged.
   */
  lemma InitSteps(t0: u32)
    requires t0 <= LATEST_START
    ensures var m1 := Update(TransitionToState(NewMachine(0), Init, t0), t0, "");
      && m1 == Initialised(t0)
      && Update(m1, t0 + 500, "5") == m1
  {
  }

  lemma InitRound(t0: u32)
    requires t0 <= LATEST_START
    ensures RunLoop(TransitionToState(NewMachine(0), Init, t0), InitInputs(t0)) == Initialised(t0)
  {
    var m0 := TransitionToState(NewMachine(0), Init, t0);
    InitSteps(t0);
    RunLoopStep(m0, Tick(t0, ""), []);
  }

  /** A move: "2" at IDLE, then the MOVEMENT tick one second later. */
  function MoveInputs(t: u32): seq<Tick>
    requires t <= TWO_TO_THE_32 - 3001
  {
    [Tick(t, "2"), Tick(t + 1000, "")]
  }

  /**
   The expected engine after a move started at `t`: the move is counted, the
   engine passed through MOVEMENT and went on to SHOOTING if it was the third
   move, else back to IDLE.
   */
  function AfterMove(m: Machine, t: u32): Machine
    requires t <= TWO_TO_THE_32 - 3001
  {
    var target := if m.moveCount + 1 >= MOVES_BEFORE_SHOOTING then Shooting else Idle;
    m.(currentState := target, moveCount := m.moveCount + 1, lastHeartbeat := t + 1000,
       stateHistory := m.stateHistory + [Entry(Movement, t), Entry(target, t + 1000)])
  }

  lemma MoveSteps(m: Machine, t: u32)
    requires ReadyAt(m, t)
    ensures && Update(m, t, "2").currentState == Movement
            && Update(Update(m, t, "2"), t + 1000, "") == AfterMove(m, t)
  {
  }

  lemma MoveRound(m: Machine, t: u32)
    requires ReadyAt(m, t)
    ensures RunLoop(m, MoveInputs(t)) == AfterMove(m, t)
  {
    MoveSteps(m, t);
    RunLoopStep(m, Tick(t, "2"), [Tick(t + 1000, "")]);
    RunLoopStep(Update(m, t, "2"), Tick(t + 1000, ""), []);
  }

  /** The expected engine after a shot at `t`: the move count is reset and the engine is IDLE. */
  function AfterShot(m: Machine, t: u32): Machine {
    m.(currentState := Idle, moveCount := 0, lastHeartbeat := t, stateHistory := m.stateHistory + [Entry(Idle, t)])
  }

  lemma ShotRound(m: Machine, t: u32)
    requires m.currentState == Shooting && m.delay == INIT_DELAY
    requires Elapsed(t, m.lastHeartbeat) >= INIT_DELAY
    ensures RunLoop(m, [Tick(t, "")]) == AfterShot(m, t)
  {
    RunLoopStep(m, Tick(t, ""), []);
  }

  /** A calculation: "4" at IDLE, then the CALCULATION tick and the ERROR tick a second apart. */
  function CalculationInputs(t: u32): seq<Tick>
    requires t <= TWO_TO_THE_32 - 3001
  {
    [Tick(t, "4"), Tick(t + 1000, ""), Tick(t + 2000, "")]
  }

  /**
   The expected engine after a calculation started at `t` with no move
   pending: the calculation failed, the engine passed through ERROR, which
   counted the error, and stopped if it was the third error, else went back
   to IDLE.
   */
  function AfterFailedCalculation(m: Machine, t: u32): Machine
    requires t <= TWO_TO_THE_32 - 3001
  {
    var target := if m.errorCount + 1 >= MAX_ERRORS then Stopped else Idle;
    m.(currentState := target, errorCount := m.errorCount + 1, lastHeartbeat := t + 2000,
       stateHistory := m.stateHistory + [Entry(Calculation, t), Entry(Error, t + 1000), Entry(target, t + 2000)])
  }

  lemma FailedCalculationSteps(m: Machine, t: u32)
    requires ReadyAt(m, t) && m.moveCount == 0
    ensures && Update(m, t, "4").currentState == Calculation
            && Update(Update(m, t, "4"), t + 1000, "").currentState == Error
            && Update(Update(Update(m, t, "4"), t + 1000, ""), t + 2000, "") == AfterFailedCalculation(m, t)
  {
  }

  lemma FailedCalculationRound(m: Machine, t: u32)
    requires ReadyAt(m, t) && m.moveCount == 0
    ensures RunLoop(m, CalculationInputs(t)) == AfterFailedCalculation(m, t)
  {
    FailedCalculationSteps(m, t);
    var m1 := Update(m, t, "4");
    var m2 := Update(m1, t + 1000, "");
    RunLoopStep(m, Tick(t, "4"), [Tick(t + 1000, ""), Tick(t + 2000, "")]);
    RunLoopStep(m1, Tick(t + 1000, ""), [Tick(t + 2000, "")]);
    RunLoopStep(m2, Tick(t + 2000, ""), []);
  }

  /** Two invalid tokens and the status request "1", a second apart. */
  function InvalidInputs(t: u32): seq<Tick>
    requires t <= TWO_TO_THE_32 - 3001
  {
    [Tick(t, "invalid"), Tick(t + 1000, "x"), Tick(t + 2000, "1")]
  }

  /** Invalid tokens and the status request keep the engine IDLE and only move the heartbeat. */
  lemma InvalidSteps(m: Machine, t: u32)
    requires ReadyAt(m, t)
    ensures && Update(m, t, "invalid") == m.(lastHeartbeat := t)
            && Update(m.(lastHeartbeat := t), t + 1000, "x") == m.(lastHeartbeat := t + 1000)
            && Update(m.(lastHeartbeat := t + 1000), t + 2000, "1") == m.(lastHeartbeat := t + 2000)
  {
  }

  lemma InvalidRound(m: Machine, t: u32)
    requires ReadyAt(m, t)
    ensures RunLoop(m, InvalidInputs(t)) == m.(lastHeartbeat := t + 2000)
  {
    InvalidSteps(m, t);
    RunLoopStep(m, Tick(t, "invalid"), [Tick(t + 1000, "x"), Tick(t + 2000, "1")]);
    RunLoopStep(m.(lastHeartbeat := t), Tick(t + 1000, "x"), [Tick(t + 2000, "1")]);
    RunLoopStep(m.(lastHeartbeat := t + 1000), Tick(t + 2000, "1"), []);
  }

  // ---------------------------------------------------------------------------
  // Whole runs
  // ---------------------------------------------------------------------------

  /** Initialise, move three times, shoot, then ask for a calculation. */
  function MoveShootCalculateInputs(t0: u32): seq<Tick>
    requires t0 <= LATEST_START
  {
    InitInputs(t0) + AfterFirstMoveInputs(t0)
  }

  function AfterFirstMoveInputs(t0: u32): seq<Tick>
    requires t0 <= LATEST_START
  {
    MoveInputs(t0 + 1000) + AfterSecondMoveInputs(t0)
  }

  function AfterSecondMoveInputs(t0: u32): seq<Tick>
    requires t0 <= LATEST_START
  {
    MoveInputs(t0 + 3000) + AfterThirdMoveInputs(t0)
  }

  function AfterThirdMoveInputs(t0: u32): seq<Tick>
    requires t0 <= LATEST_START
  {
    MoveInputs(t0 + 5000) + ShootThenCalculateInputs(t0)
  }

  function ShootThenCalculateInputs(t0: u32): seq<Tick>
    requires t0 <= LATEST_START
  {
    [Tick(t0 + 7000, "")] + CalculationInputs(t0 + 8000)
  }

  /** The engine of the run after `k` moves, `k` in 1..3. */
  function Moved(t0: u32, k: nat): Machine
    requires t0 <= LATEST_START && 1 <= k <= 3
    decreases k
  {
    AfterMove(if k == 1 then Initialised(t0) else Moved(t0, k - 1), t0 + 1000 + 2000 * (k - 1))
  }

  function Shot(t0: u32): Machine
    requires t0 <= LATEST_START
  {
    AfterShot(Moved(t0, 3), t0 + 7000)
  }

  function Calculated(t0: u32): Machine
    requires t0 <= LATEST_START
  {
    AfterFailedCalculation(Shot(t0), t0 + 8000)
  }

  lemma ShootThenCalculate(t0: u32)
    requires t0 <= LATEST_START
    ensures RunLoop(Moved(t0, 3), ShootThenCalculateInputs(t0)) == Calculated(t0)
  {
    ShotRound(Moved(t0, 3), t0 + 7000);
    FailedCalculationRound(Shot(t0), t0 + 8000);
    Compose(Moved(t0, 3), [Tick(t0 + 7000, "")], Shot(t0), CalculationInputs(t0 + 8000), Calculated(t0));
  }

  lemma AfterThirdMove(t0: u32)
    requires t0 <= LATEST_START
    ensures RunLoop(Moved(t0, 2), AfterThirdMoveInputs(t0)) == Calculated(t0)
  {
    MoveRound(Moved(t0, 2), t0 + 5000);
    ShootThenCalculate(t0);
    Compose(Moved(t0, 2), MoveInputs(t0 + 5000), Moved(t0, 3), ShootThenCalculateInputs(t0), Calculated(t0));
  }

  lemma AfterSecondMove(t0: u32)
    requires t0 <= LATEST_START
    ensures RunLoop(Moved(t0, 1), AfterSecondMoveInputs(t0)) == Calculated(t0)
  {
    MoveRound(Moved(t0, 1), t0 + 3000);
    AfterThirdMove(t0);
    Compose(Moved(t0, 1), MoveInputs(t0 + 3000), Moved(t0, 2), AfterThirdMoveInputs(t0), Calculated(t0));
  }

  lemma AfterFirstMove(t0: u32)
    requires t0 <= LATEST_START
    ensures RunLoop(Initialised(t0), AfterFirstMoveInputs(t0)) == Calculated(t0)
  {
    MoveRound(Initialised(t0), t0 + 1000);
    AfterSecondMove(t0);
    Compose(Initialised(t0), MoveInputs(t0 + 1000), Moved(t0, 1), AfterSecondMoveInputs(t0), Calculated(t0));
  }

  lemma MoveShootCalculateRun(t0: u32)
    requires t0 <= LATEST_START
    ensures Start(NewMachine(0), t0, MoveShootCalculateInputs(t0)) == Calculated(t0)
  {
    InitRound(t0);
    AfterFirstMove(t0);
    Compose(TransitionToState(NewMachine(0), Init, t0), InitInputs(t0), Initialised(t0),
      AfterFirstMoveInputs(t0), Calculated(t0));
  }

  /** The engine at the end of the run, field by field, with its twelve records. */
  lemma CalculatedEngine(t0: u32)
    requires t0 <= LATEST_START
    ensures Calculated(t0) == Machine(Idle, t0 + 10000, INIT_DELAY, 1, 0, [
        Entry(Init, t0), Entry(Idle, t0),
        Entry(Movement, t0 + 1000), Entry(Idle, t0 + 2000),
        Entry(Movement, t0 + 3000), Entry(Idle, t0 + 4000),
        Entry(Movement, t0 + 5000), Entry(Shooting, t0 + 6000), Entry(Idle, t0 + 7000),
        Entry(Calculation, t0 + 8000), Entry(Error, t0 + 9000), Entry(Idle, t0 + 10000)])
  {
  }

  /**
   The third move leads to SHOOTING, which resets the count; the calculation
   then finds no move pending, fails once and returns to IDLE. Every
   transition left one record, twelve in all.
   */
  lemma MoveShootCalculate(t0: u32)
    requires t0 <= LATEST_START
    ensures var r := Start(NewMachine(0), t0, MoveShootCalculateInputs(t0));
      && r.currentState == Idle
      && r.delay == 1000 && r.lastHeartbeat == t0 + 10000
      && r.moveCount == 0 && r.errorCount == 1
      && r.stateHistory == [
        Entry(Init, t0), Entry(Idle, t0),
        Entry(Movement, t0 + 1000), Entry(Idle, t0 + 2000),
        Entry(Movement, t0 + 3000), Entry(Idle, t0 + 4000),
        Entry(Movement, t0 + 5000), Entry(Shooting, t0 + 6000), Entry(Idle, t0 + 7000),
        Entry(Calculation, t0 + 8000), Entry(Error, t0 + 9000), Entry(Idle, t0 + 10000)]
  {
    MoveShootCalculateRun(t0);
    CalculatedEngine(t0);
  }

  /** Initialise, then type two invalid tokens and ask for the status. */
  function InvalidTokensInputs(t0: u32): seq<Tick>
    requires t0 <= LATEST_START
  {
    InitInputs(t0) + InvalidInputs(t0 + 1000)
  }

  /** The engine stays IDLE: no record is added and only the heartbeat moves. */
  lemma InvalidTokensStayIdle(t0: u32)
    requires t0 <= LATEST_START
    ensures var r := Start(NewMachine(0), t0, InvalidTokensInputs(t0));
      && r.currentState == Idle
      && r.lastHeartbeat == t0 + 3000
      && r.stateHistory == [Entry(Init, t0), Entry(Idle, t0)]
      && r.moveCount == 0 && r.errorCount == 0
  {
    var m0 := TransitionToState(NewMachine(0), Init, t0);
    InitRound(t0);
    InvalidRound(Initialised(t0), t0 + 1000);
    Compose(m0, InitInputs(t0), Initialised(t0), InvalidInputs(t0 + 1000), Initialised(t0).(lastHeartbeat := t0 + 3000));
  }

  /**
   Initialise, then ask for three calculations a few seconds apart with no
   move made, then ask for a move.
   */
  function ThreeErrorsInputs(t0: u32): seq<Tick>
    requires t0 <= LATEST_START
  {
    InitInputs(t0) + FromFirstCalculation(t0)
  }

  function FromFirstCalculation(t0: u32): seq<Tick>
    requires t0 <= LATEST_START
  {
    CalculationInputs(t0 + 1000) + FromSecondCalculation(t0)
  }

  function FromSecondCalculation(t0: u32): seq<Tick>
    requires t0 <= LATEST_START
  {
    CalculationInputs(t0 + 4000) + FromThirdCalculation(t0)
  }

  function FromThirdCalculation(t0: u32): seq<Tick>
    requires t0 <= LATEST_START
  {
    CalculationInputs(t0 + 7000) + [Tick(t0 + 10000, "2")]
  }

  /** The engine of the run after `k` failed calculations. */
  function Failed(t0: u32, k: nat): Machine
    requires t0 <= LATEST_START && k <= 3
    decreases k
  {
    if k == 0 then Initialised(t0)
    else AfterFailedCalculation(Failed(t0, k - 1), t0 + 1000 + 3000 * (k - 1))
  }

  lemma ThirdCalculation(t0: u32)
    requires t0 <= LATEST_START
    ensures RunLoop(Failed(t0, 2), FromThirdCalculation(t0)) == Failed(t0, 3)
  {
    FailedCalculationRound(Failed(t0, 2), t0 + 7000);
    assert RunLoop(Failed(t0, 3), [Tick(t0 + 10000, "2")]) == Failed(t0, 3);
    Compose(Failed(t0, 2), CalculationInputs(t0 + 7000), Failed(t0, 3), [Tick(t0 + 10000, "2")], Failed(t0, 3));
  }

  lemma SecondCalculation(t0: u32)
    requires t0 <= LATEST_START
    ensures RunLoop(Failed(t0, 1), FromSecondCalculation(t0)) == Failed(t0, 3)
  {
    FailedCalculationRound(Failed(t0, 1), t0 + 4000);
    ThirdCalculation(t0);
    Compose(Failed(t0, 1), CalculationInputs(t0 + 4000), Failed(t0, 2), FromThirdCalculation(t0), Failed(t0, 3));
  }

  lemma FirstCalculation(t0: u32)
    requires t0 <= LATEST_START
    ensures RunLoop(Initialised(t0), FromFirstCalculation(t0)) == Failed(t0, 3)
  {
    FailedCalculationRound(Initialised(t0), t0 + 1000);
    SecondCalculation(t0);
    Compose(Initialised(t0), CalculationInputs(t0 + 1000), Failed(t0, 1), FromSecondCalculation(t0), Failed(t0, 3));
  }

  /**
   Three failed calculations stop the engine; the loop then ends without
   reading the last token, and the log is cleared while the counters keep
   their final values.
   */
  lemma ThreeErrorsShutDown(t0: u32)
    requires t0 <= LATEST_START
    ensures var r := Start(NewMachine(0), t0, ThreeErrorsInputs(t0));
      && r.currentState == Stopped
      && r.errorCount == 3 && r.moveCount == 0
      && r.lastHeartbeat == t0 + 9000
      && r.stateHistory == []
  {
    var m0 := TransitionToState(NewMachine(0), Init, t0);
    InitRound(t0);
    FirstCalculation(t0);
    Compose(m0, InitInputs(t0), Initialised(t0), FromFirstCalculation(t0), Failed(t0, 3));
    assert Failed(t0, 3).currentState == Stopped;
  }

  /** The gate uses 32-bit arithmetic: a tick just after the clock wrapped still counts as late enough. */
  lemma GateAcrossClockWrap()
    ensures var m := Machine(Idle, TWO_TO_THE_32 - 400, 1000, 0, 0, []);
      && Update(m, 599, "2").currentState == Idle
      && Update(m, 600, "2").currentState == Movement
  {
  }
}
