/** What holds in every state the sketch can reach. Interrupts are events
    that happen between two passes of `loop()`; a run of the sketch is
    `setup()` followed by a sequence of such events and passes, each at a
    clock reading no earlier than the one before. */
module Reachability {
  import opened Machine

  datatype Event =
    | Edge(pin: int, at: int)   // a falling edge on a pin
    | Pass(at: int)             // one pass of loop()

  function Step(s: State, e: Event): (r: State)
    requires |s.display| == Rows
    ensures |r.display| == Rows
  {
    match e
    case Edge(p, t) => Fire(s, p, t)
    case Pass(t) => Loop(s, t)
  }

  function Run(s: State, evs: seq<Event>): (r: State)
    requires |s.display| == Rows
    ensures |r.display| == Rows
    decreases |evs|
  {
    if evs == [] then s else Run(Step(s, evs[0]), evs[1..])
  }

  /** The clock never goes back: every event is at or after `clock` and
      after the events before it. */
  predicate Monotone(clock: int, evs: seq<Event>)
    decreases |evs|
  {
    evs == [] || (clock <= evs[0].at && Monotone(evs[0].at, evs[1..]))
  }

  /** The clock reading of the last event, `clock` when there is none. */
  function Clock(clock: int, evs: seq<Event>): int
    decreases |evs|
  {
    if evs == [] then clock else Clock(evs[0].at, evs[1..])
  }

  /** Handler `h` is the one the sketch attaches to pin `p`. */
  predicate WiredPin(p: int, h: Handler) {
    match h
    case StartTimer => p == StartPin
    case ResetTimer => p == ResetPin
    case TakeTime(n) => p == SensorPin(n)
  }

  predicate Wired(m: map<int, Handler>) {
    forall p :: p in m ==> WiredPin(p, m[p])
  }

  /** The reset button is live: the shared pin 18 still runs `resetTimer`. */
  predicate ResetArmed(s: State) {
    ResetPin in s.attached && s.attached[ResetPin] == ResetTimer
  }

  /** The invariant of the reachable states, with `clock` the latest clock
      reading. While the reset button is live, sensor 2 has no handler, so
      the ball is never seen there and split 2 stays 0; once it is not, no
      reset can be pending. */
  predicate Inv(s: State, clock: int) {
    && |s.display| == Rows
    && s.finishTriggered == 0
    && s.ballPosition <= 5
    && 0 <= s.timer <= clock
    && (forall n: Sensor :: Split(s, n) >= 0)
    && Wired(s.attached)
    && (s.timerRunningFlag ==> StartPin !in s.attached)
    && (ResetArmed(s) ==> s.ballPosition != 2 && s.timer2 == 0)
    && (!ResetArmed(s) ==> !s.resetFlag)
  }

  lemma SetupEstablishesInv(now: int)
    requires now >= 0
    ensures Inv(Setup(now), now)
  {

  }

  lemma FirePreservesInv(s: State, clock: int, pin: int, now: int)
    requires Inv(s, clock) && clock <= now
    ensures Inv(Fire(s, pin, now), now)
  {
    var r := Fire(s, pin, now);
    if pin in s.attached {
      assert WiredPin(pin, s.attached[pin]);
      if ResetArmed(s) {
        assert s.attached[pin] != TakeTime(2);
      }
      forall n: Sensor ensures Split(r, n) >= 0 {
        assert Split(s, n) >= 0;
      }
    }
  }

  lemma LoopPreservesInv(s: State, clock: int, now: int)
    requires Inv(s, clock) && clock <= now
    ensures Inv(Loop(s, now), now)
  {

  }

  lemma StepPreservesInv(s: State, clock: int, e: Event)
    requires Inv(s, clock) && clock <= e.at
    ensures Inv(Step(s, e), e.at)
  {
    match e
    case Edge(p, t) => FirePreservesInv(s, clock, p, t);
    case Pass(t) => LoopPreservesInv(s, clock, t);
  }

  lemma {:induction false} RunPreservesInv(s: State, clock: int, evs: seq<Event>)
    requires Inv(s, clock) && Monotone(clock, evs)
    ensures Inv(Run(s, evs), Clock(clock, evs))
    decreases |evs|
  {
    if evs != [] {
      StepPreservesInv(s, clock, evs[0]);
      RunPreservesInv(Step(s, evs[0]), evs[0].at, evs[1..]);
    }
  }

  /** Every state reachable from `setup()` satisfies the invariant; in
      particular no finish is ever counted and no split time is negative. */
  lemma ReachableInv(t0: int, evs: seq<Event>)
    requires t0 >= 0 && Monotone(t0, evs)
    ensures Inv(Run(Setup(t0), evs), Clock(t0, evs))
    ensures Run(Setup(t0), evs).finishTriggered == 0
    ensures forall n: Sensor :: Split(Run(Setup(t0), evs), n) >= 0
  {
    SetupEstablishesInv(t0);
    RunPreservesInv(Setup(t0), t0, evs);
  }

  /** Processing a reset re-attaches sensor 2 over the reset handler ... */
  lemma ResetProcessingDisarms(s: State, now: int)
    requires |s.display| == Rows && s.resetFlag
    ensures !ResetArmed(Loop(s, now))
    ensures ResetPin in Loop(s, now).attached && Loop(s, now).attached[ResetPin] == TakeTime(2)
  {

  }

  lemma DisarmedStepStaysDisarmed(s: State, clock: int, e: Event)
    requires Inv(s, clock) && !ResetArmed(s)
    ensures !ResetArmed(Step(s, e))
  {

  }

  /** ... and from then on the reset button never works again: whatever
      happens, no reset is ever requested. */
  lemma {:induction false} DisarmedForever(s: State, clock: int, evs: seq<Event>)
    requires Inv(s, clock) && !ResetArmed(s) && Monotone(clock, evs)
    ensures !ResetArmed(Run(s, evs)) && !Run(s, evs).resetFlag
    decreases |evs|
  {
    if evs != [] {
      StepPreservesInv(s, clock, evs[0]);
      DisarmedStepStaysDisarmed(s, clock, evs[0]);
      DisarmedForever(Step(s, evs[0]), evs[0].at, evs[1..]);
    }
  }

  /** A start edge while the timer runs is ignored: START is detached. */
  lemma StartEdgeWhileRunningIgnored(s: State, clock: int, now: int)
    requires Inv(s, clock) && s.timerRunningFlag
    ensures Fire(s, StartPin, now) == s
  {
  }

  /** Repeated edges on the sensor the ball was last seen at are ignored
      once a pass has run, unless that pass processed a reset. */
  lemma RepeatedEdgeIgnored(s: State, now: int, later: int)
    requires |s.display| == Rows && !s.resetFlag && 1 <= s.ballPosition <= 5
    ensures Fire(Loop(s, now), SensorPin(s.ballPosition), later) == Loop(s, now)
  {
  }

  /** A finished run re-arms: `start` is only cleared by a reset, so the
      pass after the one that stopped the timer starts it again from the
      new clock reading, and the split rows above the ball's position are
      left blank (all of them after sensor 5). */
  lemma RestartAfterFinish(s: State, clock: int, t1: int, t2: int)
    requires Inv(s, clock)
    requires s.start && s.finish && s.timerRunningFlag && !s.resetFlag
    ensures !Loop(s, t1).timerRunningFlag && !Loop(s, t1).finish && Loop(s, t1).start
    ensures Loop(Loop(s, t1), t2).timerRunningFlag && Loop(Loop(s, t1), t2).timer == t2
    ensures forall k :: FirstTimeRow <= k < FirstTimeRow + s.ballPosition ==>
      Loop(Loop(s, t1), t2).display[k] == Blank
  {

  }

  /** The 200 ms check gates nothing: the pass is the same whatever the
      last refresh time was, except for the refresh time itself. */
  lemma RefreshGatesNothing(s: State, now: int, d: int)
    requires |s.display| == Rows
    ensures Loop(s, now).(displayTimer := d) == Loop(s.(displayTimer := d), now).(displayTimer := d)
  {
  }

  /** While the reset button is live, breaking sensor 2's beam is a reset:
      the edge on the shared pin 18 runs `resetTimer`, and the next pass stops
      the run, cancels the start request and hands pin 18 to sensor 2 for
      good, keeping the position and the split times. */
  lemma SensorTwoBeamResetsWhileArmed(s: State, clock: int, t: int, now: int)
    requires Inv(s, clock) && ResetArmed(s)
    ensures Fire(s, Sensor2Pin, t) == OnResetTimer(s)
    ensures !Loop(Fire(s, Sensor2Pin, t), now).timerRunningFlag
    ensures !Loop(Fire(s, Sensor2Pin, t), now).start
    ensures !ResetArmed(Loop(Fire(s, Sensor2Pin, t), now))
    ensures Loop(Fire(s, Sensor2Pin, t), now).ballPosition == s.ballPosition
    ensures forall n: Sensor :: Split(Loop(Fire(s, Sensor2Pin, t), now), n) == Split(s, n)
  {

  }
}
