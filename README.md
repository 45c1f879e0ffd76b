# Heltec ball timer, modelled in Dafny

The ball timer is an ESP32 sketch. It times a ball dropped past a start beam
and five sensor beams, and shows split times on a small OLED display. The
whole program is a handful of global variables changed by two kinds of step:

- an interrupt handler (`startTimer`, `resetTimer`, `takeTime1` .. `takeTime5`)
  running on a falling edge of the pin it is attached to;
- one pass of `loop()`, which runs four checks in a fixed order: start the
  timer, detach the sensor the ball was last seen at, stop the timer on a
  finish, and process a reset. It also draws the split rows.

The model has four modules:

- `Decimal` (decimal.dfy): the `snprintf("%ldmS")` rendering of a split time.
  It comes with a parser, and the two are proved to round-trip.
- `Machine` (machine.dfy): the globals as the value `State`. It holds every
  scalar, the interrupt attachment table as a `map` from pin to handler, and
  the display as 8 rows of 16 characters. There is one function per step.
  These functions are the specification.
- `Sketch` (sketch.dfy): the sketch itself as the class `BallTimer`. Its
  fields are the globals and its display is an `array`. The constructor is
  `setup()`, and there are the handler methods and `LoopStep`, which is
  `loop()`. Each method is proved to change the fields exactly as the matching
  `Machine` function says.
- `Reachability` (reachability.dfy): runs made of interrupt edges and loop
  passes, one after another, with a clock that never goes back. It proves an
  invariant of every reachable state, plus lemmas about how runs behave.

The model follows the code, not the repository's own prose. Where the two
differ, the code is what is modelled:

- A handler sets the position outright (`ballPosition = i`). A later edge on
  a lower sensor therefore moves the position back.
- Handlers do not detach their own pin. Each pass of `loop()` detaches START
  when it starts the timer, and the sensor whose number is the current
  position. Two edges on one sensor before a pass both write that split.
- `finishTriggered` is never incremented. It is 0 in every reachable state
  (`Reachability.ReachableInv`).
- `start` is cleared only by a reset. The pass after the one that stopped
  the timer starts it again, with a new origin, and blanks the split rows
  above the ball's position (`Reachability.RestartAfterFinish`).
- Reset processing keeps the position and the split times.
- Every live row shows split 1 (`timer1`), not its own split.
- The 200 ms check only records the time. It does not gate drawing.
- `RESET_PIN` and `SENSOR2_PIN` are both pin 18. In `setup()` the reset
  attach replaces sensor 2's, so until the first reset, sensor 2 has no
  handler. Breaking its beam is a reset instead
  (`Reachability.SensorTwoBeamResetsWhileArmed`). Reset processing attaches
  sensor 2 back over the reset handler, so after that the reset button never
  works again (`Reachability.DisarmedForever`).

Interrupts are modelled as events between two loop passes. The clock is the
parameter `now`, and one pass reads it once.

## Model

| member | source | states |
|---|---|---|
| Decimal.Digits | HeltecBallTimer/src/main.cpp:153 | the digits of a non-negative value: at least one, all decimal digits, a leading '0' only for zero |
| Decimal.Signed | HeltecBallTimer/src/main.cpp:153 | the `%ld` rendering: a leading '-' exactly for negative values, then only decimal digits, with a leading '0' exactly for zero |
| Decimal.FormatMillis | HeltecBallTimer/src/main.cpp:152-153 | the drawn text fits the 32-byte buffer with its NUL and is a prefix of the decimal rendering followed by "mS"; when the rendering fits, it is exactly that rendering followed by "mS" |
| Decimal.ParseSignedOfSigned | HeltecBallTimer/src/main.cpp:153 | the `%ld` rendering of any value is well formed and reads back as that value |
| Decimal.FormatMillisOfLong | HeltecBallTimer/src/main.cpp:22-35 | for any 32-bit `long` the buffer never truncates: the text is the full rendering plus "mS", at most 13 characters |
| Machine.SensorPin | HeltecBallTimer/src/main.cpp:13-20 | no sensor pin is the START pin, and the pin shared with RESET belongs to sensor 2 and no other |
| Machine.SensorPinInjective | HeltecBallTimer/src/main.cpp:14-18 | the five sensors sit on five different pins |
| Machine.Overlay | HeltecBallTimer/src/main.cpp:156 | drawing keeps the row width, writes the text from the column on, and leaves the columns before and after it unchanged; text running past the row is cut at the row's end, and text starting past the end changes nothing |
| Machine.ClearTimeRows | HeltecBallTimer/src/main.cpp:104-108 | rows 3..7 become blank and rows 0..2 are kept |
| Machine.SetupTable | HeltecBallTimer/src/main.cpp:77-86 | the setup attach sequence: six pins attached, START runs startTimer, pin 18 runs resetTimer, sensors 1, 3, 4, 5 run their handlers, and no pin runs takeTime2 |
| Machine.Reattach | HeltecBallTimer/src/main.cpp:178-183 | after the re-attach sequence START and each sensor pin run their own handler, every other pin keeps its key and its handler, and no reset handler is added |
| Machine.Setup | HeltecBallTimer/src/main.cpp:24-92 | initial globals are zero or false, `displayTimer` is the setup time, the attach table is exactly `Machine.SetupTable` (START, sensors 1, 3, 4, 5, and pin 18 running the reset handler, takeTime2 attached nowhere), and rows 0 and 1 are exactly "Ball Timer" and "----------" padded with blanks on an otherwise cleared display |
| Machine.OnStartTimer | HeltecBallTimer/src/main.cpp:232-235 | counts the start edge and sets `start`; nothing else changes (no timer, position or attach table) |
| Machine.OnResetTimer | HeltecBallTimer/src/main.cpp:240-242 | sets `resetFlag` and changes nothing else |
| Machine.OnTakeTime | HeltecBallTimer/src/main.cpp:191-227 | position becomes n outright, split n becomes `now - timer`, other splits are kept, `finish` is set by sensor 5 only, nothing else changes |
| Machine.Dispatch | HeltecBallTimer/src/main.cpp:191-242 | a handler's full effect: startTimer sets `start` and counts the edge, resetTimer sets `resetFlag`, takeTimeN sets the position to n and split n to `now - timer`, only takeTime5 sets `finish`; every other split, the position for non-sensor handlers, the table, display, run origin, running flag, refresh time and finish count are kept |
| Machine.Fire | HeltecBallTimer/src/main.cpp:191-242 | an edge on an unattached pin changes nothing; on an attached pin its handler runs (START: start set and edge counted; RESET: reset flag set; sensor n: position n and split n is `now - timer`); splits the handler does not own, `start` and its count (unless START), and `finish` (unless sensor 5) are left alone; no handler changes the attach table, the display, the run origin, the running flag or the finish count; a changed reset flag or position comes from the handler attached to that pin |
| Machine.RefreshTick | HeltecBallTimer/src/main.cpp:98-100 | `displayTimer` becomes `now` exactly when more than 200 ms passed; nothing else changes |
| Machine.StartCheck | HeltecBallTimer/src/main.cpp:103-115 | when start is requested, no run is active and no finish was counted, the timer runs from `now`, rows 3..7 are cleared and START is detached, nothing else changes; otherwise nothing changes |
| Machine.DetachSwitch | HeltecBallTimer/src/main.cpp:117-137 | the pin of sensor `ballPosition` is detached when the position is 1..5; position 0 detaches nothing; only the attach table changes |
| Machine.FinishCheck | HeltecBallTimer/src/main.cpp:140-149 | a finish while running stops the timer and clears `finish`; otherwise (a finish while not running included) nothing changes |
| Machine.DrawTimes | HeltecBallTimer/src/main.cpp:151-158 | while running, rows `3 + ballPosition` .. 7 get split 1 as "<decimal>mS" from column 1 and the other rows are kept; when not running nothing is drawn |
| Machine.ResetCheck | HeltecBallTimer/src/main.cpp:160-185 | on a reset: counters zero, `start`, `finish`, running and reset flags false, rows 3..7 cleared, START and the sensors re-attached, position, splits and origin kept; no reset: nothing changes |
| Machine.Loop | HeltecBallTimer/src/main.cpp:95-186 | a pass never writes position or splits nor counts a finish; without a reset the reached sensor ends detached and no pin is newly attached; with one, the run is stopped and START and every sensor are attached |
| Reachability.RunPreservesInv | HeltecBallTimer/src/main.cpp:95-242 | every run of edges and passes with a monotone clock keeps the invariant: no finish counted, position at most 5, origin and splits non-negative, each pin runs only its own handler, START detached while running, sensor 2 dead while reset is live, no reset pending once it is not |
| Reachability.ReachableInv | HeltecBallTimer/src/main.cpp:48-92 | every state reachable from `setup()` satisfies the invariant; `finishTriggered` is always 0 and no split time is negative |
| Reachability.SetupEstablishesInv | HeltecBallTimer/src/main.cpp:66-92 | the state after `setup()` satisfies the invariant |
| Reachability.FirePreservesInv | HeltecBallTimer/src/main.cpp:191-242 | any edge keeps the invariant |
| Reachability.LoopPreservesInv | HeltecBallTimer/src/main.cpp:95-186 | any pass keeps the invariant |
| Reachability.ResetProcessingDisarms | HeltecBallTimer/src/main.cpp:180 | a pass that processes a reset leaves pin 18 running takeTime2, so the reset handler is gone |
| Reachability.DisarmedForever | HeltecBallTimer/src/main.cpp:15-20 | once the reset handler is gone, no later run brings it back, and no reset is ever requested again |
| Reachability.SensorTwoBeamResetsWhileArmed | HeltecBallTimer/src/main.cpp:80-86 | while pin 18 runs resetTimer, an edge on sensor 2's pin is a reset request; the next pass stops the run, clears `start`, disarms the reset button and keeps position and splits |
| Reachability.StartEdgeWhileRunningIgnored | HeltecBallTimer/src/main.cpp:114 | in a reachable state with the timer running, a start edge changes nothing |
| Reachability.RepeatedEdgeIgnored | HeltecBallTimer/src/main.cpp:117-137 | after a pass without a reset, a further edge on the sensor the ball was last seen at changes nothing |
| Reachability.RestartAfterFinish | HeltecBallTimer/src/main.cpp:103-149 | the pass that sees the finish stops the timer and keeps `start`; the next pass runs it again from the new clock reading, and rows 3 .. `2 + ballPosition` are left blank |
| Reachability.RefreshGatesNothing | HeltecBallTimer/src/main.cpp:98-100 | a pass does the same whatever the last refresh time was, apart from the refresh time itself |
| Sketch.BallTimer.constructor | HeltecBallTimer/src/main.cpp:66-92 | `setup()` leaves the fields equal to `Machine.Setup(now)` |
| Sketch.BallTimer.Attach | HeltecBallTimer/src/main.cpp:77-86 | `attachInterrupt`: the pin's entry becomes the handler, replacing any earlier one, and no other entry changes |
| Sketch.BallTimer.Detach | HeltecBallTimer/src/main.cpp:114-135 | `detachInterrupt`: the pin's entry is removed and no other entry changes |
| Sketch.BallTimer.ClearLine | HeltecBallTimer/src/main.cpp:104-108 | `clearLine(y)`: row y becomes blank and no other row changes |
| Sketch.BallTimer.DrawString | HeltecBallTimer/src/main.cpp:89-90 | `drawString(x, y, text)`: row y becomes `Machine.Overlay` of its old text and no other row changes |
| Sketch.BallTimer.AttachSensors | HeltecBallTimer/src/main.cpp:178-183 | the six attach calls leave the table equal to `Machine.Reattach` of the old one |
| Sketch.BallTimer.ClearTimeLines | HeltecBallTimer/src/main.cpp:171-175 | the five `clearLine` calls leave the display equal to `Machine.ClearTimeRows` of the old one |
| Sketch.BallTimer.StartTimer | HeltecBallTimer/src/main.cpp:232-235 | the fields become `Machine.OnStartTimer` of the old ones |
| Sketch.BallTimer.ResetTimer | HeltecBallTimer/src/main.cpp:240-242 | the fields become `Machine.OnResetTimer` of the old ones |
| Sketch.BallTimer.TakeTime | HeltecBallTimer/src/main.cpp:191-227 | the fields become `Machine.OnTakeTime` of the old ones |
| Sketch.BallTimer.Interrupt | HeltecBallTimer/src/main.cpp:77-86 | an edge dispatches through the attach table: the fields become `Machine.Fire` of the old ones |
| Sketch.BallTimer.LoopStep | HeltecBallTimer/src/main.cpp:95-186 | one pass leaves the fields equal to `Machine.Loop` of the old ones |
| Sketch.BallTimer.CheckStart | HeltecBallTimer/src/main.cpp:103-115 | the fields become `Machine.StartCheck` of the old ones |
| Sketch.BallTimer.DetachReached | HeltecBallTimer/src/main.cpp:117-137 | the fields become `Machine.DetachSwitch` of the old ones |
| Sketch.BallTimer.CheckFinish | HeltecBallTimer/src/main.cpp:140-149 | the fields become `Machine.FinishCheck` of the old ones |
| Sketch.BallTimer.DrawSplits | HeltecBallTimer/src/main.cpp:151-158 | the drawing loop leaves the fields equal to `Machine.DrawTimes` of the old ones |
| Sketch.BallTimer.ProcessReset | HeltecBallTimer/src/main.cpp:160-185 | the fields become `Machine.ResetCheck` of the old ones |

## Left out

- The U8x8/SSD1306 driver, its font and the software I2C bus. The display is 8 rows of 16 characters. `clearLine` blanks a row. `drawString` overwrites characters from a column and drops what falls past the row's end.
- `u8x8.begin()` is modelled only as leaving the display cleared.
- `Serial` debug output. It is compiled out by `DEBUG 0`.
- Pre-emption of `loop()` by an interrupt in the middle of a pass, and the atomicity of the stores. Edges happen only between passes.
- The `millis()` hardware clock. Each step takes the clock reading `now` as a parameter, and one pass reads it once, where the sketch calls `millis()` up to three times.
- Unsigned 32-bit wrap-around of `millis() - timer` and `millis() - displayTimer`, and overflow of `startTriggered`. Integers are unbounded.
- `digitalPinToInterrupt` is the identity, `pinMode(RESET_PIN, INPUT_PULLUP)` is not modelled, and every handler is taken as attached on the falling edge.
- The global `startTime` is declared and never used, so it is not modelled.
- The flags are `int` variables in the sketch that only ever hold `false` or `true`. They are modelled as `bool`.
- A `%ld` value wider than 32 bits (see `Decimal.FormatMillisOfLong`). Beyond decimal digits and truncation to the buffer, `snprintf` is not modelled.
