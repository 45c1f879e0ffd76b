/** The ball timer as a value: the sketch's global variables, its interrupt
    attachment table and the display rows, and one function per step the
    sketch can take (an interrupt handler running, or one pass of `loop()`).
    These functions are the specification the class in module Sketch is
    proved against. */
module Machine {
  import opened Decimal

  // Pins of the ESP32 board. RESET_PIN and SENSOR2_PIN are the same pin.
  const StartPin: int := 0
  const Sensor1Pin: int := 5
  const Sensor2Pin: int := 18
  const Sensor3Pin: int := 23
  const Sensor4Pin: int := 19
  const Sensor5Pin: int := 22
  const ResetPin: int := 18

  /** The display refresh interval in milliseconds. */
  const RefreshMs: int := 200

  /** The 128x64 display seen as 8 text rows of 16 characters. */
  const Rows: nat := 8
  const Width: nat := 16
  /** Row of the first split time; sensor `n` owns row `FirstTimeRow + n - 1`. */
  const FirstTimeRow: nat := 3

  /** The index of a split sensor. */
  type Sensor = n: int | 1 <= n <= 5 witness 1

  function SensorPin(n: Sensor): (p: int)
    ensures p != StartPin
    ensures p == Sensor2Pin <==> n == 2
  {
    match n
    case 1 => Sensor1Pin
    case 2 => Sensor2Pin
    case 3 => Sensor3Pin
    case 4 => Sensor4Pin
    case 5 => Sensor5Pin
  }

  /** The five sensors are on five different pins. */
  lemma SensorPinInjective(a: Sensor, b: Sensor)
    ensures SensorPin(a) == SensorPin(b) ==> a == b
  {
  }

  /** The interrupt handlers of the sketch: startTimer, resetTimer and
      takeTime1 .. takeTime5. */
  datatype Handler = StartTimer | ResetTimer | TakeTime(sensor: Sensor)

  type Row = string

  /** A row after `clearLine`. */
  const Blank: Row := "                "

  /** The sketch's global state. The source keeps the flags in `int`
      variables that only ever hold `false` or `true`. */
  datatype State = State(
    ballPosition: nat,
    timer1: int, timer2: int, timer3: int, timer4: int, timer5: int,
    timer: int,
    displayTimer: int,
    timerRunningFlag: bool,
    finish: bool,
    finishTriggered: int,
    start: bool,
    startTriggered: int,
    resetFlag: bool,
    attached: map<int, Handler>,
    display: seq<Row>)

  /** The split time of sensor `n` (`timer1` .. `timer5`). */
  function Split(s: State, n: Sensor): int {
    match n
    case 1 => s.timer1
    case 2 => s.timer2
    case 3 => s.timer3
    case 4 => s.timer4
    case 5 => s.timer5
  }

  // ---------------------------------------------------------------------
  // Display collaborator

  /** `drawString(col, y, text)` on one row: the characters of `text` replace
      those from column `col` on; what falls beyond the row is not shown. */
  function Overlay(row: Row, col: nat, text: string): (r: Row)
    ensures |r| == |row|
    ensures col + |text| <= |row| ==> r[col..col + |text|] == text
    ensures col <= |row| ==> r[..col] == row[..col]
    ensures col + |text| <= |row| ==> r[col + |text|..] == row[col + |text|..]
    ensures col < |row| < col + |text| ==> r[col..] == text[..|row| - col]
    ensures |row| <= col ==> r == row
  {
    seq(|row|, j requires 0 <= j < |row| =>
      if col <= j < col + |text| then text[j - col] else row[j])
  }

  /** The five `clearLine(3)` .. `clearLine(7)` calls. */
  function ClearTimeRows(d: seq<Row>): (r: seq<Row>)
    requires |d| == Rows
    ensures |r| == Rows
    ensures forall k :: 0 <= k < Rows ==> r[k] == (if FirstTimeRow <= k then Blank else d[k])
  {
    d[3 := Blank][4 := Blank][5 := Blank][6 := Blank][7 := Blank]
  }

  /** The rows the running display loop redraws: `3 + i` for `i` from `from` to 4. */
  predicate Redrawn(from: nat, k: nat) {
    FirstTimeRow + from <= k < Rows
  }

  /** The display after `for (i = from; i < 5; i++) drawString(1, 3 + i, text)`. */
  function DrawFrom(d: seq<Row>, from: nat, text: string): (r: seq<Row>)
    requires |d| == Rows
    ensures |r| == Rows
  {
    seq(Rows, k requires 0 <= k < Rows =>
      if Redrawn(from, k) then Overlay(d[k], 1, text) else d[k])
  }

  // ---------------------------------------------------------------------
  // Interrupt attachment table

  /** The attach sequence of `setup()`: START, the five sensors, then RESET,
      which lands on SENSOR2's pin and replaces its handler. */
  function SetupTable(): (m: map<int, Handler>)
    ensures forall p :: p in m <==> p in {StartPin, Sensor1Pin, Sensor2Pin, Sensor3Pin, Sensor4Pin, Sensor5Pin}
    ensures m[StartPin] == StartTimer && m[ResetPin] == ResetTimer
    ensures forall n: Sensor :: n != 2 ==> m[SensorPin(n)] == TakeTime(n)
    ensures TakeTime(2) !in m.Values
  {
    map[][StartPin := StartTimer]
       [Sensor1Pin := TakeTime(1)]
       [Sensor2Pin := TakeTime(2)]
       [Sensor3Pin := TakeTime(3)]
       [Sensor4Pin := TakeTime(4)]
       [Sensor5Pin := TakeTime(5)]
       [ResetPin := ResetTimer]
  }

  /** The re-attach sequence of reset processing: START and the five sensors.
      Every other entry of `m` is kept; SENSOR2's attach replaces RESET. */
  function Reattach(m: map<int, Handler>): (r: map<int, Handler>)
    ensures forall p :: p in r <==> p in m || p in {StartPin, Sensor1Pin, Sensor2Pin, Sensor3Pin, Sensor4Pin, Sensor5Pin}
    ensures r[StartPin] == StartTimer
    ensures forall n: Sensor :: r[SensorPin(n)] == TakeTime(n)
    ensures forall p :: p in m && p !in {StartPin, Sensor1Pin, Sensor2Pin, Sensor3Pin, Sensor4Pin, Sensor5Pin} ==> r[p] == m[p]
    ensures ResetTimer in r.Values ==> ResetTimer in m.Values
  {
    m[StartPin := StartTimer]
     [Sensor1Pin := TakeTime(1)]
     [Sensor2Pin := TakeTime(2)]
     [Sensor3Pin := TakeTime(3)]
     [Sensor4Pin := TakeTime(4)]
     [Sensor5Pin := TakeTime(5)]
  }

  // ---------------------------------------------------------------------
  // setup()

  /** The state after `setup()`, which read the clock as `now`: all globals at
      their initial values, the attach table of the setup sequence, and the
      title on rows 0 and 1 of an otherwise cleared display. */
  function Setup(now: int): (r: State)
    ensures r.ballPosition == 0 && r.timer == 0 && r.displayTimer == now
    ensures forall n: Sensor :: Split(r, n) == 0
    ensures !r.timerRunningFlag && !r.start && !r.finish && !r.resetFlag
    ensures r.startTriggered == 0 && r.finishTriggered == 0
    ensures r.attached == SetupTable()
    ensures ResetPin in r.attached && r.attached[ResetPin] == ResetTimer && TakeTime(2) !in r.attached.Values
    ensures |r.display| == Rows && forall k :: 0 <= k < Rows ==> |r.display[k]| == Width
    ensures r.display[0][..10] == "Ball Timer" && r.display[1][..10] == "----------"
    ensures r.display[0] == "Ball Timer      " && r.display[1] == "----------      "
    ensures forall k :: 2 <= k < Rows ==> r.display[k] == Blank
  {
    var cleared := seq(Rows, _ => Blank);
    State(0, 0, 0, 0, 0, 0, 0, now, false, false, 0, false, 0, false,
          SetupTable(),
          cleared[0 := Overlay(Blank, 0, "Ball Timer")][1 := Overlay(Blank, 0, "----------")])
  }

  // ---------------------------------------------------------------------
  // Interrupt handlers

  /** `startTimer`: counts the edge and requests a start. It touches no timer,
      no position and not the attach table. */
  function OnStartTimer(s: State): (r: State)
    ensures r.startTriggered == s.startTriggered + 1 && r.start
    ensures r.(startTriggered := s.startTriggered, start := s.start) == s
  {
    s.(startTriggered := s.startTriggered + 1, start := true)
  }

  /** `resetTimer`: requests a reset and changes nothing else. */
  function OnResetTimer(s: State): (r: State)
    ensures r.resetFlag
    ensures r.(resetFlag := s.resetFlag) == s
  {
    s.(resetFlag := true)
  }

  /** `takeTimeN`: the position becomes `n` outright (it is not the maximum
      seen so far), split `n` becomes the time since the run origin, the
      other splits are kept, and only sensor 5 requests the finish. */
  function OnTakeTime(s: State, n: Sensor, now: int): (r: State)
    ensures r.ballPosition == n
    ensures Split(r, n) == now - s.timer
    ensures forall k: Sensor :: k != n ==> Split(r, k) == Split(s, k)
    ensures r.finish == (s.finish || n == 5)
    ensures r.(ballPosition := s.ballPosition, timer1 := s.timer1, timer2 := s.timer2,
               timer3 := s.timer3, timer4 := s.timer4, timer5 := s.timer5,
               finish := s.finish) == s
  {
    match n
    case 1 => s.(ballPosition := 1, timer1 := now - s.timer)
    case 2 => s.(ballPosition := 2, timer2 := now - s.timer)
    case 3 => s.(ballPosition := 3, timer3 := now - s.timer)
    case 4 => s.(ballPosition := 4, timer4 := now - s.timer)
    case 5 => s.(ballPosition := 5, timer5 := now - s.timer, finish := true)
  }

  /** The handler `h` running at time `now`. Whichever it is, it leaves the
      attach table, the display, the run origin, the running flag, the
      refresh time and the finish count alone. */
  function Dispatch(s: State, h: Handler, now: int): (r: State)
    ensures r.attached == s.attached && r.display == s.display
    ensures r.timer == s.timer && r.timerRunningFlag == s.timerRunningFlag
    ensures r.displayTimer == s.displayTimer && r.finishTriggered == s.finishTriggered
    ensures h == StartTimer ==> r.start && r.startTriggered == s.startTriggered + 1
    ensures h != StartTimer ==> r.start == s.start && r.startTriggered == s.startTriggered
    ensures r.resetFlag == (s.resetFlag || h == ResetTimer)
    ensures r.finish == (s.finish || h == TakeTime(5))
    ensures h.TakeTime? ==> r.ballPosition == h.sensor && Split(r, h.sensor) == now - s.timer
    ensures !h.TakeTime? ==> r.ballPosition == s.ballPosition
    ensures forall n: Sensor :: h != TakeTime(n) ==> Split(r, n) == Split(s, n)
  {
    match h
    case StartTimer => OnStartTimer(s)
    case ResetTimer => OnResetTimer(s)
    case TakeTime(n) => OnTakeTime(s, n, now)
  }

  /** A falling edge on `pin` at time `now`: the handler attached to the pin
      runs, if there is one. No handler detaches or re-attaches a pin, draws
      on the display, moves the run origin or starts or stops the run. */
  function Fire(s: State, pin: int, now: int): (r: State)
    ensures pin !in s.attached ==> r == s
    ensures pin in s.attached && s.attached[pin] == StartTimer ==>
      r.start && r.startTriggered == s.startTriggered + 1
    ensures pin in s.attached && s.attached[pin] == ResetTimer ==> r.resetFlag
    ensures forall n: Sensor :: !(pin in s.attached && s.attached[pin] == TakeTime(n)) ==> Split(r, n) == Split(s, n)
    ensures r.finish == (s.finish || (pin in s.attached && s.attached[pin] == TakeTime(5)))
    ensures !(pin in s.attached && s.attached[pin] == StartTimer) ==>
      r.start == s.start && r.startTriggered == s.startTriggered
    ensures pin in s.attached && s.attached[pin].TakeTime? ==>
      r.ballPosition == s.attached[pin].sensor && Split(r, s.attached[pin].sensor) == now - s.timer
    ensures r.attached == s.attached && r.display == s.display
    ensures r.timer == s.timer && r.timerRunningFlag == s.timerRunningFlag
    ensures r.displayTimer == s.displayTimer && r.finishTriggered == s.finishTriggered
    ensures r.resetFlag != s.resetFlag ==> pin in s.attached && s.attached[pin] == ResetTimer
    ensures r.ballPosition != s.ballPosition ==> 1 <= r.ballPosition <= 5 && pin in s.attached && s.attached[pin] == TakeTime(r.ballPosition)
  {
    if pin in s.attached then Dispatch(s, s.attached[pin], now) else s
  }

  // ---------------------------------------------------------------------
  // The four checks of loop(), in statement order

  /** The 200 ms check: it only moves `displayTimer` and gates nothing. */
  function RefreshTick(s: State, now: int): (r: State)
    ensures r.displayTimer == (if now - s.displayTimer > RefreshMs then now else s.displayTimer)
    ensures r.(displayTimer := s.displayTimer) == s
  {
    if now - s.displayTimer > RefreshMs then s.(displayTimer := now) else s
  }

  predicate StartGuard(s: State) {
    s.start && !s.timerRunningFlag && s.finishTriggered == 0
  }

  /** The start transition. It fires exactly when a start is requested, no run
      is active and no finish was ever counted; it then runs the timer from
      `now`, clears rows 3..7 and detaches START. */
  function StartCheck(s: State, now: int): (r: State)
    requires |s.display| == Rows
    ensures StartGuard(s) ==> r.timerRunningFlag && r.timer == now
    ensures StartGuard(s) ==> r.attached == s.attached - {StartPin}
    ensures StartGuard(s) ==> r.display == ClearTimeRows(s.display)
    ensures StartGuard(s) ==> r.(timerRunningFlag := false, timer := s.timer, attached := s.attached, display := s.display) == s
    ensures !StartGuard(s) ==> r == s
  {
    if StartGuard(s) then
      s.(display := ClearTimeRows(s.display), timerRunningFlag := true, timer := now,
         attached := s.attached - {StartPin})
    else s
  }

  /** The `switch (ballPosition)`: the pin of the sensor the ball was last seen
      at is detached; position 0 (or anything above 5) detaches nothing. */
  function DetachSwitch(s: State): (r: State)
    ensures 1 <= s.ballPosition <= 5 ==> r.attached == s.attached - {SensorPin(s.ballPosition)}
    ensures !(1 <= s.ballPosition <= 5) ==> r.attached == s.attached
    ensures r.(attached := s.attached) == s
  {
    if 1 <= s.ballPosition <= 5 then s.(attached := s.attached - {SensorPin(s.ballPosition)}) else s
  }

  /** The finish transition: a finish request stops a running timer and is
      consumed; a finish request while no timer runs is left pending. */
  function FinishCheck(s: State): (r: State)
    ensures s.finish && s.timerRunningFlag ==> !r.finish && !r.timerRunningFlag
    ensures !(s.finish && s.timerRunningFlag) ==> r == s
    ensures r.(finish := s.finish, timerRunningFlag := s.timerRunningFlag) == s
  {
    if s.finish && s.timerRunningFlag then s.(timerRunningFlag := false, finish := false) else s
  }

  /** Drawing while running: rows `3 + ballPosition` .. 7 get split 1 rendered
      as "<decimal>mS" from column 1; the rows above are not redrawn. */
  function DrawTimes(s: State): (r: State)
    requires |s.display| == Rows
    ensures |r.display| == Rows
    ensures forall k :: 0 <= k < Rows ==>
      r.display[k] == (if s.timerRunningFlag && Redrawn(s.ballPosition, k)
                       then Overlay(s.display[k], 1, FormatMillis(s.timer1))
                       else s.display[k])
    ensures r.(display := s.display) == s
  {
    if s.timerRunningFlag then s.(display := DrawFrom(s.display, s.ballPosition, FormatMillis(s.timer1)))
    else s
  }

  /** Reset processing: every counter and flag is cleared, rows 3..7 are
      cleared and START and the five sensors are attached again; the position
      and the split times are kept. */
  function ResetCheck(s: State): (r: State)
    requires |s.display| == Rows
    ensures s.resetFlag ==> r.startTriggered == 0 && r.finishTriggered == 0
    ensures s.resetFlag ==> !r.start && !r.finish && !r.timerRunningFlag && !r.resetFlag
    ensures s.resetFlag ==> r.display == ClearTimeRows(s.display) && r.attached == Reattach(s.attached)
    ensures s.resetFlag ==> r.ballPosition == s.ballPosition && forall n: Sensor :: Split(r, n) == Split(s, n)
    ensures s.resetFlag ==> r.timer == s.timer && r.displayTimer == s.displayTimer
    ensures !s.resetFlag ==> r == s
  {
    if s.resetFlag then
      s.(startTriggered := 0, start := false, finishTriggered := 0, finish := false,
         timerRunningFlag := false, display := ClearTimeRows(s.display),
         attached := Reattach(s.attached), resetFlag := false)
    else s
  }

  /** One pass of `loop()` at time `now`. Nothing in the pass writes the
      position or a split time, nor counts a finish; the sensor the ball was
      last seen at ends the pass detached unless a reset was processed. */
  function Loop(s: State, now: int): (r: State)
    requires |s.display| == Rows
    ensures |r.display| == Rows
    ensures r.ballPosition == s.ballPosition && forall n: Sensor :: Split(r, n) == Split(s, n)
    ensures r.finishTriggered == (if s.resetFlag then 0 else s.finishTriggered)
    ensures !s.resetFlag && 1 <= s.ballPosition <= 5 ==> SensorPin(s.ballPosition) !in r.attached
    ensures !s.resetFlag ==> forall p :: p in r.attached ==> p in s.attached
    ensures s.resetFlag ==> !r.resetFlag && !r.start && !r.timerRunningFlag
    ensures s.resetFlag ==> StartPin in r.attached && r.attached[StartPin] == StartTimer
    ensures s.resetFlag ==> forall n: Sensor :: SensorPin(n) in r.attached && r.attached[SensorPin(n)] == TakeTime(n)
  {
    var s1 := RefreshTick(s, now);
    var s2 := StartCheck(s1, now);
    var s3 := DetachSwitch(s2);
    var s4 := FinishCheck(s3);
    var s5 := DrawTimes(s4);
    ResetCheck(s5)
  }
}
