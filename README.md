# MooreArduino in Dafny

A model of the MooreArduino library's core: the generic Moore-machine
engine `MooreMachine<State, Input>` and the three helper classes `Timer`,
`AsyncOp` and `Button`.

- **`MooreMachine`** holds one current state and a transition function δ.
  - An optional output function λ turns each transition into a follow-up
    input. The engine feeds that input straight back into `step`, up to a
    depth ceiling of 3.
  - Observers sit in eight fixed slots. Adding appends; removing shifts the
    later slots down.
  - After each level of `step` the engine calls every observer with the
    level's pre-state and the state reached after its recursion.
- **`Timer`** is an interval timer.
- **`AsyncOp`** tracks a timeout and reports remaining time, elapsed time and
  percentage progress.
- **`Button`** debounces a pull-up input pin.

The three helper classes do `unsigned long` arithmetic. Here it is
arithmetic modulo 2^32 (`Word32`), and the clock and pin readings are
parameters.

The files:

- `word32.dfy`: the `Word32` module, 32-bit unsigned wrapping add, subtract
  and multiply.
- `moore_machine.dfy`: the `MooreMachines` module.
  - The class `MooreMachine`. It has the same fields as the original. The
    observers are an `array` of eight `Option` slots, and the
    function-local `static stepDepth` is a `depth` field.
  - A ghost log `events` that records every call the engine makes into
    δ, λ and the observers, in order.
  - `Step` is proved against the pure function `Run`. `Run` gives the final
    state and the call log of one step, entered at a given depth. The
    engine's promises are lemmas about `Run`:
    - how many times δ and λ run;
    - the chain of states;
    - which pairs the observers receive, and in which order.
- `timer.dfy`, `async_op.dfy`, `button.dfy`: the `Timers`, `AsyncOps` and
  `Buttons` modules. Each class has the original's fields. Its mutators are
  methods, and its queries are functions of the fields and `now`.

Two behaviours of the engine are easy to misread from its comments. The
model follows the code (MooreArduino/src/MooreMachine.h):

- **Follow-up inputs.** λ's result is always fed back into `step`, with no
  check for a "no input" value. It is re-entered while the depth is below 3
  and dropped at 3 (lines 87-99).
- **Notifications.** The comment at line 123 says observers are notified
  "whenever the machine transitions to a new state". In the code every
  recursion level notifies, once each level's recursion has returned
  (line 103). Each level passes its own pre-state and the state after its
  recursion. So with λ set, one external step notifies every observer four
  times, and every notification carries the final state
  (`ExternalStepCounts`, `NoticesCarryFinal`). An observer never sees an
  intermediate state as `next`, and the rounds arrive innermost level
  first.

## Model

| member | source | states |
|---|---|---|
| Word32.Sub | MooreArduino/src/Timer.h:90 | wrapped `a - b` is the distance from `b` to `a`: adding it back to `b` gives `a`, and it is `a - b` or `a - b + 2^32` |
| Word32.Mul | MooreArduino/src/AsyncOp.h:106 | wrapped product: the exact product when it fits, otherwise congruent to it modulo 2^32 |
| Word32.SubAfterAdd | MooreArduino/src/Timer.h:45 | an elapsed time `d` is recovered exactly from `now - start` even when the counter wrapped in between |
| MooreMachines.MooreMachine.constructor | MooreArduino/src/MooreMachine.h:66-72 | the state is the initial state, λ is unset, the count is 0, all eight slots are null, depth 0, no calls made |
| MooreMachines.MooreMachine.Step | MooreArduino/src/MooreMachine.h:78-104 | with δ null nothing changes (state, log, depth, registry); otherwise the new state and the calls appended to the log are exactly `Run`'s from the old state and depth; the depth is restored on return; the registry and λ are untouched |
| MooreMachines.MooreMachine.GetState | MooreArduino/src/MooreMachine.h:109-111 | returns the current state |
| MooreMachines.MooreMachine.SetOutputFunction | MooreArduino/src/MooreMachine.h:117-119 | λ becomes the given function (or unset), nothing else changes |
| MooreMachines.MooreMachine.AddStateObserver | MooreArduino/src/MooreMachine.h:126-134 | succeeds iff fewer than 8 are registered and the handle is non-null; then the registry gains the handle at its end and the count grows by one; otherwise nothing changes; the slot invariant (0..8, occupied prefix, null suffix) is kept |
| MooreMachines.MooreMachine.RemoveStateObserver | MooreArduino/src/MooreMachine.h:139-152 | succeeds iff the handle is registered; then exactly its first occurrence is deleted, the others keep their order and the count drops by one; otherwise nothing changes; the slot invariant is kept |
| MooreMachines.MooreMachine.GetObserverCount | MooreArduino/src/MooreMachine.h:157-159 | the number of registered observers, between 0 and 8 |
| MooreMachines.MooreMachine.NotifyObservers | MooreArduino/src/MooreMachine.h:165-171 | every registered observer is called once with (previous, next), in slot order, and nothing else is recorded |
| MooreMachines.RunLast | MooreArduino/src/MooreMachine.h:81-103 | a level that does not re-enter (no λ, or at depth 3) applies δ once, calls λ once if set (its result dropped) and notifies one round with (before, δ(before, input)) |
| MooreMachines.RunLevel | MooreArduino/src/MooreMachine.h:81-103 | a level below depth 3 with λ set applies δ, calls λ on (before, after), then makes the calls of the re-entered level, then notifies one round with (before, the re-entered level's final state) |
| MooreMachines.StepWithoutOutput | MooreArduino/src/MooreMachine.h:78-104 | with λ unset one step sets the state to δ(old, input), never calls λ and notifies each observer exactly once, in index order, with (old, δ(old, input)) |
| MooreMachines.RunCounts | MooreArduino/src/MooreMachine.h:87-99 | with λ set, a step entered at depth d applies δ and calls λ exactly `3 - d + 1` times each and notifies `(3 - d + 1) * observers` times |
| MooreMachines.ExternalStepCounts | MooreArduino/src/MooreMachine.h:91-99 | an external step (depth 0) with λ set applies δ four times and λ four times (the fourth follow-up is dropped) and notifies each observer four times |
| MooreMachines.RunChain | MooreArduino/src/MooreMachine.h:84-94 | with λ set the applications form a chain: the first is (old state, input); each later one starts where the previous ended, with λ's follow-up; λ receives each pre-recursion pair (before, δ(before, input)); the final state is where the last application ended |
| MooreMachines.RunNotices | MooreArduino/src/MooreMachine.h:94-103 | observer calls are one round per level, innermost level first, each round carrying its level's pre-state and the step's final state |
| MooreMachines.NoticesCarryFinal | MooreArduino/src/MooreMachine.h:81-103 | every observer call of one external step carries the final state as its second argument; the last round, issued by the outermost level, carries the pre-step state as its first |
| MooreMachines.RemoveFirstPresent | MooreArduino/src/MooreMachine.h:139-152 | removing a registered handle shortens the registry by one and drops exactly one copy of it from its multiset |
| MooreMachines.RemoveFirstAbsent | MooreArduino/src/MooreMachine.h:139-152 | removing an absent handle leaves the registry unchanged |
| MooreMachines.RemoveAfterAppend | MooreArduino/src/MooreMachine.h:126-152 | adding a handle that was absent and removing it again restores the registry |
| MooreMachines.ShiftedValues | MooreArduino/src/MooreMachine.h:143-147 | shifting the occupied slots after index `i` down by one deletes exactly the handle at `i` and keeps the rest in order |
| Timers.Timer.constructor | MooreArduino/src/Timer.h:30-31 | a stopped timer with the given interval; it is never expired and has no remaining time, whatever the clock |
| Timers.Timer.Elapsed | MooreArduino/src/Timer.h:45 | the time since the last start, the distance that added to the start time gives `now` |
| Timers.Timer.Expired | MooreArduino/src/Timer.h:44-46 | only a running timer expires, and it is expired exactly when its remaining time is 0 |
| Timers.Timer.RemainingTime | MooreArduino/src/Timer.h:87-94 | never exceeds the interval; positive exactly when running and less than an interval has elapsed, and then remaining plus elapsed equals the interval |
| Timers.Timer.Start | MooreArduino/src/Timer.h:36-39 | sets the start time to `now` and running, keeps the interval; right after starting, the timer is expired iff the interval is 0 |
| Timers.Timer.Stop | MooreArduino/src/Timer.h:51-53 | clears running only; afterwards it is never expired and has no remaining time |
| Timers.Timer.Restart | MooreArduino/src/Timer.h:58-60 | the same effect as `Start` |
| Timers.Timer.SetInterval | MooreArduino/src/Timer.h:65-68 | the interval becomes the new value (read back by `GetInterval`) and the timer restarts at `now` |
| Timers.Timer.GetInterval | MooreArduino/src/Timer.h:73-75 | returns the interval |
| Timers.Timer.IsRunning | MooreArduino/src/Timer.h:80-82 | returns whether the timer runs |
| Timers.ExpiresAfterInterval | MooreArduino/src/Timer.h:44-46 | a running timer observed `d` ms after its start is expired iff `d >= interval`, across counter wrap, and otherwise has `interval - d` left |
| AsyncOps.AsyncOp.constructor | MooreArduino/src/AsyncOp.h:37 | inactive, start time and timeout 0; never timed out, no remaining or elapsed time, progress 0 |
| AsyncOps.AsyncOp.Start | MooreArduino/src/AsyncOp.h:42-46 | active, start time `now`, timeout the given value; at `now` nothing has elapsed and it has not timed out |
| AsyncOps.AsyncOp.Finish | MooreArduino/src/AsyncOp.h:51-53 | clears active only |
| AsyncOps.AsyncOp.ElapsedTime | MooreArduino/src/AsyncOp.h:84-87 | 0 when inactive; otherwise the distance that added to the start time gives `now` |
| AsyncOps.AsyncOp.TimedOut | MooreArduino/src/AsyncOp.h:58-60 | timed out iff active and strictly more than the timeout has elapsed; a timed-out operation is active with no remaining time and progress 100; an active one that has not timed out has elapsed at most its timeout |
| AsyncOps.AsyncOp.IsActive | MooreArduino/src/AsyncOp.h:65-67 | returns whether the operation is active |
| AsyncOps.AsyncOp.RemainingTime | MooreArduino/src/AsyncOp.h:72-79 | never exceeds the timeout; positive exactly when active with less than the timeout elapsed, and then remaining plus elapsed equals the timeout |
| AsyncOps.AsyncOp.GetTimeout | MooreArduino/src/AsyncOp.h:92-94 | returns the timeout of the last start, 0 before any |
| AsyncOps.AsyncOp.GetProgress | MooreArduino/src/AsyncOp.h:100-107 | between 0 and 100; 0 when inactive; 100 once the timeout is reached (so a zero timeout never divides); otherwise the corrected percentage `Progress` |
| AsyncOps.TimeoutBoundary | MooreArduino/src/AsyncOp.h:58-79 | exactly `timeout` ms after the start the remaining time is 0 and progress 100 but the operation has not timed out (strict `>`); one ms later it has |
| AsyncOps.ProgressAsWritten | MooreArduino/src/AsyncOp.h:100-107 | the header's formula with the wrapping product still lies in 0..100 and is 100 once the timeout is reached |
| AsyncOps.ProgressWraps | MooreArduino/src/AsyncOp.h:106 | with a 100,000,000 ms timeout the header's formula gives 42 at 42,949,672 ms, 0 one ms later, and 7 at 50,000,000 ms, where the corrected one gives 42 and 50 |
| AsyncOps.ProgressAgreesBeforeWrap | MooreArduino/src/AsyncOp.h:106 | while `elapsed * 100` fits in 32 bits the header's formula and the corrected one agree |
| AsyncOps.Progress | MooreArduino/src/AsyncOp.h:100-107 | the corrected percentage: 0..100, 100 once the timeout is reached, otherwise the whole number `p` with `p * timeout <= elapsed * 100 < (p + 1) * timeout` |
| AsyncOps.ProgressMonotone | MooreArduino/src/AsyncOp.h:96-107 | the corrected progress never decreases as elapsed time grows |
| Buttons.Button.constructor | MooreArduino/src/Button.h:36-40 | remembers pin and delay (50 ms by default); raw and debounced levels HIGH, not pressed |
| Buttons.Button.IsPressed | MooreArduino/src/Button.h:53-55 | pressed iff the debounced level is LOW |
| Buttons.Button.Update | MooreArduino/src/Button.h:61-80 | the raw level becomes the reading; the change time moves to `changeTime` iff the reading differs from the previous raw level; the result is true iff more than the delay elapsed since the change time and the reading differs from the debounced level, which then becomes the reading; a reading equal to the debounced level, or a fresh change checked at the same instant, is never accepted |
| Buttons.Button.WasPressed | MooreArduino/src/Button.h:46-48 | updates exactly as `Update` does (raw level, change time, debounced level) and returns true exactly on a debounced HIGH→LOW edge in this update |
| Buttons.Button.SetDebounceDelay | MooreArduino/src/Button.h:85-87 | the delay becomes the value and reads back through `GetDebounceDelay`; the levels and change time are kept |
| Buttons.Button.GetDebounceDelay | MooreArduino/src/Button.h:92-94 | returns the delay |
| Buttons.Button.GetPin | MooreArduino/src/Button.h:99-101 | returns the pin given at construction |

## Left out

- AsyncOps.AsyncOp.GetProgress: computes the percentage without the 32-bit wrap of `elapsed * 100`. The header's wrapping formula is `ProgressAsWritten` (see Findings).
- The `static stepDepth` is shared by all machines of one template instantiation. The model keeps a depth per machine. This matters only when one machine's step re-enters another machine.
- Code inside observers and λ, including a re-entrant `step`, is not modelled. Observers are opaque integer handles compared by equality, and their calls are recorded in the ghost log. δ and λ are pure Dafny functions, with `Option` for a null pointer.
- `millis()`, `digitalRead()` and `pinMode()` are hardware calls. The clock and the pin reading are parameters, and `pinMode` is dropped.
- Buttons.Button.Update: `update` reads the clock twice, so it takes two times, `changeTime` and `checkTime`. "A fresh change is never accepted in the same call" is stated only for equal times.
- `getState` returns a const reference in the header. The model returns the state value.
- `getProgress` returns a C `int`; its values (0..100) fit, so no `int` width is modelled.
- MooreArduino/src/MooreArduino.h only includes the other headers and defines version macros; it is not part of this model.

## Findings

| source | as written | input that shows it | evidently intended | confidence | as-written member | corrected member |
|---|---|---|---|---|---|---|
| MooreArduino/src/AsyncOp.h:106 | `(elapsed * 100) / timeout` multiplies in `unsigned long`, so the product wraps modulo 2^32 once `elapsed >= 42,949,673` ms | timeout 100,000,000 ms: progress 42 at 42,949,672 ms, 0 at 42,949,673 ms, 7 at 50,000,000 ms | the whole percentage of the timeout elapsed (50 at half-way), never decreasing over time | medium, not executed | AsyncOps.ProgressWraps | AsyncOps.Progress |
