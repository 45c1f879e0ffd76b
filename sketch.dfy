/** The sketch itself: its global variables as the fields of one object,
    `setup()` as the constructor, the interrupt handlers and `loop()` as
    methods that update the fields in place. Every method is proved to do
    what the matching function of module Machine says. */
module Sketch {
  import opened Decimal
  import opened Machine

  class BallTimer {
    var ballPosition: nat
    var timer1: int
    var timer2: int
    var timer3: int
    var timer4: int
    var timer5: int
    var timer: int
    var displayTimer: int
    var timerRunningFlag: bool
    var finish: bool
    var finishTriggered: int
    var start: bool
    var startTriggered: int
    var resetFlag: bool
    /** The interrupt attachment table: pin to handler. */
    var attached: map<int, Handler>
    /** The text rows of the display. */
    const display: array<Row>

    ghost predicate Valid()
      reads this
    {
      display.Length == Rows
    }

    /** The globals as a value of module Machine. */
    function Snapshot(): State
      reads this, display
    {
      State(ballPosition, timer1, timer2, timer3, timer4, timer5, timer, displayTimer,
            timerRunningFlag, finish, finishTriggered, start, startTriggered, resetFlag,
            attached, display[..])
    }

    /** `setup()` with the clock reading `now`: the display starts cleared,
        the handlers are attached in the sketch's order and the title drawn. */
    constructor (now: int)
      ensures Valid() && fresh(display)
      ensures Snapshot() == Setup(now)
    {
      ballPosition := 0;
      timer1, timer2, timer3, timer4, timer5 := 0, 0, 0, 0, 0;
      timer := 0;
      timerRunningFlag, finish, finishTriggered := false, false, 0;
      start, startTriggered, resetFlag := false, 0, false;
      attached := map[];
      display := new Row[Rows](_ => Blank);
      new;
      assert display[..] == seq(Rows, _ => Blank);
      // START and the five sensors, in the order of the reset path, then RESET.
      AttachSensors();
      Attach(ResetPin, Handler.ResetTimer);
      assert attached == SetupTable();
      DrawString(0, 0, "Ball Timer");
      DrawString(0, 1, "----------");
      displayTimer := now;
      assert display[..] == Setup(now).display;
    }

    // -------------------------------------------------------------------
    // Collaborators: interrupt attachment and the display

    /** `attachInterrupt(pin, h, FALLING)`; a pin holds one handler. */
    method Attach(pin: int, h: Handler)
      modifies this`attached
      ensures attached == old(attached)[pin := h]
    {
      attached := attached[pin := h];
    }

    /** `detachInterrupt(pin)`. */
    method Detach(pin: int)
      modifies this`attached
      ensures attached == old(attached) - {pin}
    {
      attached := attached - {pin};
    }

    /** The attach calls for START and the five sensors, in the sketch's order. */
    method AttachSensors()
      modifies this`attached
      ensures attached == Reattach(old(attached))
    {
      Attach(StartPin, Handler.StartTimer);
      Attach(Sensor1Pin, Handler.TakeTime(1));
      Attach(Sensor2Pin, Handler.TakeTime(2));
      Attach(Sensor3Pin, Handler.TakeTime(3));
      Attach(Sensor4Pin, Handler.TakeTime(4));
      Attach(Sensor5Pin, Handler.TakeTime(5));
    }

    /** The calls `clearLine(3)` .. `clearLine(7)`. */
    method ClearTimeLines()
      requires Valid()
      modifies display
      ensures display[..] == ClearTimeRows(old(display[..]))
    {
      ClearLine(3);
      ClearLine(4);
      ClearLine(5);
      ClearLine(6);
      ClearLine(7);
    }

    method ClearLine(y: nat)
      requires Valid() && y < Rows
      modifies display
      ensures display[..] == old(display[..])[y := Blank]
    {
      display[y] := Blank;
    }

    method DrawString(x: nat, y: nat, text: string)
      requires Valid() && y < Rows
      modifies display
      ensures display[..] == old(display[..])[y := Overlay(old(display[y]), x, text)]
    {
      display[y] := Overlay(display[y], x, text);
    }

    // -------------------------------------------------------------------
    // Interrupt handlers

    method StartTimer()
      modifies this`startTriggered, this`start
      ensures Snapshot() == OnStartTimer(old(Snapshot()))
    {
      startTriggered := startTriggered + 1;
      start := true;
    }

    method ResetTimer()
      modifies this`resetFlag
      ensures Snapshot() == OnResetTimer(old(Snapshot()))
    {
      resetFlag := true;
    }

    /** `takeTime1` .. `takeTime5`. */
    method TakeTime(n: Sensor, now: int)
      modifies this`ballPosition, this`timer1, this`timer2, this`timer3, this`timer4,
               this`timer5, this`finish
      ensures Snapshot() == OnTakeTime(old(Snapshot()), n, now)
    {
      match n
      case 1 =>
        ballPosition := 1;
        timer1 := now - timer;
      case 2 =>
        ballPosition := 2;
        timer2 := now - timer;
      case 3 =>
        ballPosition := 3;
        timer3 := now - timer;
      case 4 =>
        ballPosition := 4;
        timer4 := now - timer;
      case 5 =>
        ballPosition := 5;
        timer5 := now - timer;
        finish := true;
    }

    /** A falling edge on `pin` at time `now` runs the handler attached to it. */
    method Interrupt(pin: int, now: int)
      modifies this`ballPosition, this`timer1, this`timer2, this`timer3, this`timer4,
               this`timer5, this`finish, this`startTriggered, this`start, this`resetFlag
      ensures Snapshot() == Fire(old(Snapshot()), pin, now)
    {
      if pin in attached {
        match attached[pin]
        case StartTimer => StartTimer();
        case ResetTimer => ResetTimer();
        case TakeTime(n) => TakeTime(n, now);
      }
    }

    // -------------------------------------------------------------------
    // loop()

    /** One pass of `loop()` with the clock reading `now`: the 200 ms check,
        then the four checks in the sketch's order. */
    method LoopStep(now: int)
      requires Valid()
      modifies this`displayTimer, this`timerRunningFlag, this`timer, this`attached,
               this`startTriggered, this`start, this`finishTriggered, this`finish,
               this`resetFlag, display
      ensures Valid()
      ensures Snapshot() == Loop(old(Snapshot()), now)
    {
      // Only update the display timer every 200 ms.
      if now - displayTimer > RefreshMs {
        displayTimer := now;
      }
      CheckStart(now);
      DetachReached();
      CheckFinish();
      DrawSplits();
      ProcessReset();
    }

    /** Start the timer running. */
    method CheckStart(now: int)
      requires Valid()
      modifies this`timerRunningFlag, this`timer, this`attached, display
      ensures Valid()
      ensures Snapshot() == StartCheck(old(Snapshot()), now)
    {
      if start && !timerRunningFlag && finishTriggered == 0 {
        ClearTimeLines();
        timerRunningFlag := true;
        timer := now;
        // Detach the start interrupt so that later edges are ignored.
        Detach(StartPin);
      }
    }

    /** The `switch (ballPosition)`. */
    method DetachReached()
      modifies this`attached
      ensures Snapshot() == DetachSwitch(old(Snapshot()))
    {
      match ballPosition {
        case 1 => Detach(Sensor1Pin);
        case 2 => Detach(Sensor2Pin);
        case 3 => Detach(Sensor3Pin);
        case 4 => Detach(Sensor4Pin);
        case 5 => Detach(Sensor5Pin);
        case _ =>
      }
    }

    method CheckFinish()
      modifies this`timerRunningFlag, this`finish
      ensures Snapshot() == FinishCheck(old(Snapshot()))
    {
      if finish && timerRunningFlag {
        timerRunningFlag := false;
        finish := false;
      }
    }

    /** While running, split 1 is drawn on the rows from the ball's position down. */
    method DrawSplits()
      requires Valid()
      modifies display
      ensures Snapshot() == DrawTimes(old(Snapshot()))
    {
      if timerRunningFlag {
        var timeString := FormatMillis(timer1);
        var i := ballPosition;
        while i < 5
          invariant ballPosition <= i
          invariant forall k :: 0 <= k < Rows ==>
            display[k] == (if Redrawn(ballPosition, k) && k < FirstTimeRow + i
                           then Overlay(old(display[k]), 1, timeString) else old(display[k]))
        {
          DrawString(1, FirstTimeRow + i, timeString);
          i := i + 1;
        }
        assert display[..] == DrawFrom(old(display[..]), ballPosition, timeString);
      }
    }

    method ProcessReset()
      requires Valid()
      modifies this`startTriggered, this`start, this`finishTriggered, this`finish,
               this`timerRunningFlag, this`attached, this`resetFlag, display
      ensures Valid()
      ensures Snapshot() == ResetCheck(old(Snapshot()))
    {
      ghost var s0 := Snapshot();
      if resetFlag {
        startTriggered := 0;
        start := false;
        finishTriggered := 0;
        finish := false;
        timerRunningFlag := false;
        ghost var s1 := Snapshot();
        assert s1 == s0.(startTriggered := 0, start := false, finishTriggered := 0,
          finish := false, timerRunningFlag := false);
        ClearTimeLines();
        ghost var s2 := Snapshot();
        assert s2 == s1.(display := ClearTimeRows(s1.display));
        // Re-attach the start interrupt and the sensors.
        AttachSensors();
        assert Snapshot() == s2.(attached := Reattach(s2.attached));
        resetFlag := false;
        assert Snapshot() == s0.(startTriggered := 0, start := false, finishTriggered := 0,
          finish := false, timerRunningFlag := false, display := ClearTimeRows(s0.display),
          attached := Reattach(s0.attached), resetFlag := false);
      }
    }
  }
}
