# FSM engine of fsm.cpp, modelled in Dafny

This project models the finite-state-machine engine of class `FSM` in
`fsm.cpp`. The engine simulates an agent's operating cycle through seven states:
INIT, IDLE, MOVEMENT, SHOOTING, CALCULATION, ERROR and STOPPED.

An `FSM` object holds:

- the current state;
- a delay in milliseconds;
- the time of the last heartbeat;
- an error counter and a move counter;
- an append-only log of `(state, time)` records.

`update()` is one tick of the engine. It first applies a timing gate: outside
INIT, the tick is ignored until `delay` milliseconds have passed since the
last heartbeat. It then dispatches on the current state to one action. Each
action may adjust the delay or a counter and usually enters a new state
through `transitionToState`; an IDLE tick with "1" or an unknown token, and a
STOPPED tick, enter none. `start()` enters
INIT and calls `update()` until STOPPED is reached, then calls `shutdown()`.

The model is functional. The object is the immutable datatype `Fsm.Machine`,
and every operation is a pure function from the old record to the new one.
The two impure inputs of the C++ code become parameters:

- `now` is the clock reading that `millis()` returns, a 32-bit value.
- `cmd` is the token that `cin >> choiceStr` reads while IDLE.

A run of `start()` is a finite sequence of `Tick(now, cmd)` inputs.

Modules:

- `Time` (time.dfy): `uint32_t` timestamps. It covers the truncation of the
  millisecond clock to 32 bits (`Millis`) and the wrapping subtraction the gate
  uses (`Elapsed`, subtraction modulo 2^32).
- `Fsm` (fsm.dfy): the record, the constructors and setters,
  `TransitionToState`, the six state actions, `Update`, `Shutdown`, the loop of
  `start()` (`RunLoop`) and `Start` itself.
- `FsmProperties` (properties.dfy): single-tick properties. One lemma per
  state, the gate, the transition table the actions implement
  (`Edge`, both directions), and the invariant every tick preserves.
- `RunProperties` (run_properties.dfy): properties of whole runs. The loop
  agrees with a plain fold of `Update`, because STOPPED absorbs every later
  tick. The log grows by exactly one record per transition. The invariant
  holds throughout. A run of a fresh engine ends with a cleared log or with a
  log that is a path of the table starting at INIT.
- `Scenarios` (scenarios.dfy): concrete runs of a fresh engine, computed from
  the model and stated as lemmas. Each run starts at an arbitrary clock
  reading `t0`.

Facts about the code that the scenarios make concrete:

- The IDLE menu tokens are the literal strings `"1"` to `"5"`
  (fsm.cpp:212-226).
- The MOVEMENT tick that brings the move counter to 3 is the one that
  transitions to SHOOTING (fsm.cpp:232-236).
- Every move takes two transitions: IDLE to MOVEMENT on the menu tick, then
  MOVEMENT to IDLE or SHOOTING on the next tick. A fresh engine that is
  initialised and then makes three moves therefore holds eight records (INIT,
  IDLE, then MOVEMENT/IDLE, MOVEMENT/IDLE, MOVEMENT/SHOOTING). The shot adds
  a ninth. See `Scenarios.MoveShootCalculate`.
- The log has no bound (fsm.cpp:72-74).

## Model

| member | source | states |
|---|---|---|
| Fsm.TransitionToState | fsm.cpp:35-39 | Enters the given state at `now`. The heartbeat becomes `now` and exactly one record `(s, now)` is appended after the unchanged earlier records. The delay and both counters are unchanged, and no check is made that the move is legal. |
| Fsm.Shutdown | fsm.cpp:279-283 | The log is empty afterwards, and restoring the old log gives back the original record: state, delay, heartbeat and counters are untouched. |
| FsmProperties.AddStateToHistoryAppends | fsm.cpp:72-74 | Adding a record makes the log one longer, keeps the old records as a prefix and puts `(state, time)` last. Every other field is untouched. |
| FsmProperties.SetterLaws | fsm.cpp:41-89 | Each setter writes exactly its own field. Reading the field back gives the value set. Setting the value just read changes nothing. Setting twice is setting once with the second value. No setter touches the log. |
| FsmProperties.NewMachineInvariant | fsm.cpp:14-22 | Both constructors give an INIT engine with heartbeat 0, both counters 0, an empty log and the given delay (0 for the default constructor). It satisfies the run invariant, both before and after `start()` enters INIT. |
| Time.ElapsedIsModularDifference | fsm.cpp:109 | The 32-bit difference of two clock readings is the mathematical difference reduced modulo 2^32. Adding it back to the earlier reading wraps round to the later one. |
| Time.ElapsedAcrossWrap | fsm.cpp:7-11 | If fewer than 2^32 ms pass between two true clock values, the 32-bit difference of their truncated readings is the true elapsed time, even when the 32-bit counter wrapped in between. |
| FsmProperties.GateMeasuresTrueTime | fsm.cpp:109-111 | With heartbeat and tick stamped by the truncating clock and fewer than 2^32 ms apart, the gate is closed exactly when the state is not INIT and the true elapsed time is below the delay. |
| FsmProperties.GateStaysOpen | fsm.cpp:109-111 | If the gate is open at one clock reading, it is open at every later reading taken within 2^32 ms of the heartbeat. |
| FsmProperties.UpdateShape | fsm.cpp:108-142 | For every state and token: a gated tick, or a tick in STOPPED, returns the engine unchanged. Otherwise the heartbeat becomes `now` unless the engine stopped. The log is unchanged or gains exactly one record naming the new state, and it grows exactly when the state changes. Only INIT changes the delay (to 1000) and only ERROR changes the error count (by one). |
| FsmProperties.InitStep | fsm.cpp:189-195 | INIT ignores the gate. It installs the 1000 ms delay, enters IDLE at `now` with one record appended, and leaves the counters alone. |
| FsmProperties.IdleStep | fsm.cpp:198-227 | Past the gate, IDLE follows the token: "2", "3", "4" and "5" enter MOVEMENT, SHOOTING, CALCULATION and STOPPED with one record appended. "1" and every other token leave state, counters and log exactly as they were and only refresh the heartbeat. |
| FsmProperties.MovementStep | fsm.cpp:230-241 | The move counter rises by exactly one. The engine enters SHOOTING if and only if the new count is at least 3, and otherwise IDLE. One record is appended and the error count and delay are kept. |
| FsmProperties.ShootingStep | fsm.cpp:244-250 | The move counter becomes 0 and the engine always enters IDLE, appending one record. |
| FsmProperties.CalculationStep | fsm.cpp:253-262 | The move counter is kept. The engine enters ERROR if and only if no move is pending, and otherwise IDLE. |
| FsmProperties.ErrorStep | fsm.cpp:265-276 | The error counter rises by exactly one. The engine enters STOPPED if and only if the new count is at least 3, and otherwise IDLE. |
| FsmProperties.UpdateFollowsTable | fsm.cpp:108-142 | Every tick either leaves state and log untouched or takes an edge of the transition table and appends that one record. Which of the two happens is decided by the gate, the state and the token alone. |
| FsmProperties.EveryEdgeIsTaken | fsm.cpp:189-276 | The converse: for every edge of the table there is an engine and a tick that take it, so the table lists no edge the code cannot perform. |
| FsmProperties.UpdatePreservesInvariant | fsm.cpp:108-142 | One tick preserves the invariant. At most two moves are pending except right after the third, and at most two errors have been absorbed unless the third stopped the engine. The log is a path of the table ending in the current state. |
| FsmProperties.ThirdMoveShoots | fsm.cpp:232-236 | Under the invariant, a MOVEMENT tick leads to SHOOTING exactly when two moves were already pending, and to IDLE exactly when fewer were. |
| FsmProperties.ThirdErrorStops | fsm.cpp:267-271 | Under the invariant, an ERROR tick stops the engine exactly when two errors were already counted, and returns to IDLE exactly when fewer were. |
| RunProperties.RunLoopAppend | fsm.cpp:96-103 | Running the loop over two batches of ticks in turn is the same as running it over their concatenation. |
| RunProperties.StoppedAbsorbs | fsm.cpp:131-133 | Once STOPPED, no further tick changes any field. |
| RunProperties.RunLoopIsFold | fsm.cpp:96-103 | Leaving the loop at STOPPED loses nothing: the loop gives the same engine as applying `update()` to every tick. |
| RunProperties.FoldHistory | fsm.cpp:35-39 | Over any run the log keeps its old records as a prefix and grows by exactly the number of ticks that performed a transition. |
| RunProperties.FoldPreservesInvariant | fsm.cpp:108-142 | The run invariant holds after any sequence of ticks. |
| RunProperties.StartFromNew | fsm.cpp:92-105 | For `start()` on a freshly constructed engine, the counters stay in range. If the run reached STOPPED the log has been cleared. Otherwise the log holds the INIT record at `t0` plus one record per transition, follows the table and ends in the current state. |
| Scenarios.InitSteps | fsm.cpp:109-114 | The INIT tick is not gated and leaves the engine IDLE with delay 1000 and its two records. An IDLE tick only 500 ms later is gated: `update()` returns before reading a token, so the token it is given is unused and the engine is unchanged. |
| Scenarios.MoveShootCalculate | fsm.cpp:92-142 | A fresh engine that is initialised, makes three moves a second apart, shoots and then asks for a calculation ends IDLE. It has delay 1000, no pending move, one error and twelve records, listed with their times. |
| Scenarios.InvalidTokensStayIdle | fsm.cpp:212-226 | Two invalid tokens and the status request "1" keep the engine IDLE with its two records, and only move the heartbeat. |
| Scenarios.ThreeErrorsShutDown | fsm.cpp:92-105 | Three calculations with no move made stop the engine. The loop ends without reading the next token, and the shutdown clears the log while the counters keep their final values. |
| Scenarios.GateAcrossClockWrap | fsm.cpp:109 | With the heartbeat 400 ms before the 32-bit clock wraps and a delay of 1000, a tick at reading 599 is gated and a tick at reading 600 is served. |

## Left out

- Console output is not modelled: every `cout` line, the menu text, `printStatus` and `printStateHistory` (fsm.cpp:144-186). It is presentation only. The status request "1" is modelled as no transition.
- The console read (fsm.cpp:207-210) is not modelled; the token it would produce is the `cmd` parameter of `Update`. Tokens are compared as whole strings, as `choiceStr == "1"` does.
- The clock `millis()` (fsm.cpp:7-11) is not modelled; its reading is the `now` parameter. `Time.Millis` relates a true millisecond count to that reading.
- Fsm.Update: uses one clock reading per tick. The C++ code calls `millis()` separately for the gate (fsm.cpp:109), inside `transitionToState` (fsm.cpp:37) and for the heartbeat refresh (fsm.cpp:140). In IDLE the gate's reading is taken before the blocking console read (fsm.cpp:207-208) and the other two after it, so they can differ by the user's typing time. For an IDLE tick, `now` stands for the reading taken after the read. The gate gives the same verdict with that later reading: a tick it lets through at the earlier reading is still let through at the later one, because the 32-bit elapsed time only grows as long as fewer than 2^32 ms pass (`FsmProperties.GateStaysOpen`). In the other states the readings differ only by the time the tick's own code takes.
- The `sleep_for` pacing in `start()` (fsm.cpp:98-102) is not modelled as a wait. The passage of time is carried by the clock readings of the ticks.
- Fsm.Start: accepts any clock readings for its ticks, including ones that the pacing of `start()` rules out. `start()` sleeps at least `delay` ms right after `update()` has refreshed the heartbeat, so on a clock that does not go backwards every update after INIT inside `start()` finds the gate open. The model also admits gated ticks. Its run properties hold for every tick sequence, so they hold for the paced ones as well. The scenario runs use only paced readings; the gate itself is shown at the level of one tick (`Scenarios.InitSteps`, `Scenarios.GateAcrossClockWrap`).
- Fsm.Start: runs over a finite sequence of ticks. A run that never reaches STOPPED is observed through its finite prefixes, and `shutdown()` happens only when a prefix ends STOPPED.
- Tick.cmd is the token read on that iteration. On iterations that read nothing (a gated tick, or any state other than IDLE) it is unused. A real console keeps unread input buffered for the next read; the model has no such buffer, and the caller supplies on each IDLE tick the token that read returns.
- The `default:` branch of the dispatch (fsm.cpp:134-137) is not modelled. It is unreachable because the state is a closed datatype.
- The destructor (fsm.cpp:24-27) is not modelled. It clears the log, prints and releases memory; nothing can observe the engine afterwards.
- The counters are not given 32-bit bounds. They are unbounded integers because C++ `int` overflow is undefined behaviour; from a fresh engine the invariant keeps them within 0..3. The setters accept any integer, as the C++ setters do.
- `fsm.hpp` is not part of this model. The seven states are taken from their use in fsm.cpp:149-155.
