/**
 The recall pipeline on the demonstration data of app.py.

 The demonstration stamps its buffer relative to the wall clock; here the
 clock reading is the parameter `clock`, so the facts below hold whatever
 time the demonstration runs at. The last event, stamped `clock - 65`, is the
 window's anchor.
 */
module RecallDemo {
  import opened Debouncer
  import opened SafetyGate
  import opened Motor
  import opened CommandArm

  /** The demonstration's signal buffer, for a clock reading `clock` (in milliseconds). */
  function DemoBuffer(clock: int): seq<SignalEvent>
  {
    [ SignalEvent(clock - 180, "TrackRecallOrder"),
      SignalEvent(clock - 160, "TrackRecallOrder"),
      SignalEvent(clock - 130, "TrackRecallOrder"),
      SignalEvent(clock - 300, "ReclineRecallOrder"),
      SignalEvent(clock - 120, "TiltRecallOrder"),
      SignalEvent(clock - 110, "TiltRecallOrder"),
      SignalEvent(clock - 100, "TiltRecallOrder"),
      SignalEvent(clock - 90, "CommandArmHeightRecallOrder"),
      SignalEvent(clock - 80, "CommandArmHeightRecallOrder"),
      SignalEvent(clock - 70, "CommandArmHeightRecallOrder"),
      SignalEvent(clock - 85, "CommandArmForeAftRecallOrder"),
      SignalEvent(clock - 75, "CommandArmForeAftRecallOrder"),
      SignalEvent(clock - 65, "CommandArmForeAftRecallOrder") ]
  }

  /** The recline request is alone in the buffer and 235 ms older than the anchor. */
  lemma DemoReclineIsStale(clock: int)
    ensures WindowIndices(DemoBuffer(clock), clock - 65, DefaultThresholdMs, "ReclineRecallOrder") == {}
  {
    var stale := WindowIndices(DemoBuffer(clock), clock - 65, DefaultThresholdMs, "ReclineRecallOrder");
    assert forall i :: i !in stale;
  }

  /** Every event of the demonstration carries one of five request names. */
  lemma DemoSignalNames(clock: int, i: int)
    requires 0 <= i < |DemoBuffer(clock)|
    ensures DemoBuffer(clock)[i].signal in
      {"TrackRecallOrder", "ReclineRecallOrder", "TiltRecallOrder",
       "CommandArmHeightRecallOrder", "CommandArmForeAftRecallOrder"}
  {
  }

  /** The three events from position `i` on carry one request and lie in the window, which confirms it. */
  lemma DemoRunConfirmed(clock: int, i: int)
    requires i in {0, 4, 7, 10}
    ensures DemoBuffer(clock)[i].signal in AcquireWithDefaultWindow(DemoBuffer(clock))
  {
    var buffer := DemoBuffer(clock);
    ThreeWitnessesConfirm(buffer, DefaultThresholdMs, buffer[i].signal, i, i + 1, i + 2);
  }

  /** The requests that open the track, tilt and two command-arm runs of the buffer. */
  lemma DemoRunNames(clock: int)
    ensures DemoBuffer(clock)[0].signal == "TrackRecallOrder"
    ensures DemoBuffer(clock)[4].signal == "TiltRecallOrder"
    ensures DemoBuffer(clock)[7].signal == "CommandArmHeightRecallOrder"
    ensures DemoBuffer(clock)[10].signal == "CommandArmForeAftRecallOrder"
  {
  }

  /** Each of the track, tilt and command-arm requests occurs three times in the window. */
  lemma DemoConfirmsFour(clock: int)
    ensures "TrackRecallOrder" in AcquireWithDefaultWindow(DemoBuffer(clock))
    ensures "TiltRecallOrder" in AcquireWithDefaultWindow(DemoBuffer(clock))
    ensures "CommandArmHeightRecallOrder" in AcquireWithDefaultWindow(DemoBuffer(clock))
    ensures "CommandArmForeAftRecallOrder" in AcquireWithDefaultWindow(DemoBuffer(clock))
  {
    DemoRunNames(clock);
    DemoRunConfirmed(clock, 0);
    DemoRunConfirmed(clock, 4);
    DemoRunConfirmed(clock, 7);
    DemoRunConfirmed(clock, 10);
  }

  /** Nothing but the track, tilt and command-arm requests is confirmed. */
  lemma DemoConfirmsNoMore(clock: int, id: string)
    requires id in AcquireWithDefaultWindow(DemoBuffer(clock))
    ensures id in {"TrackRecallOrder", "TiltRecallOrder", "CommandArmHeightRecallOrder", "CommandArmForeAftRecallOrder"}
  {
    var buffer := DemoBuffer(clock);
    assert Anchor(buffer) == clock - 65;
    DemoReclineIsStale(clock);
    assert id != "ReclineRecallOrder";
    var i :| 0 <= i < |buffer| && buffer[i].signal == id;
    DemoSignalNames(clock, i);
  }

  /**
   With the default 200 ms window the demonstration confirms the track, tilt
   and both command-arm requests, and not the single, stale recline request.
   */
  lemma DemoConfirmations(clock: int)
    ensures AcquireWithDefaultWindow(DemoBuffer(clock))
      == {"TrackRecallOrder", "TiltRecallOrder", "CommandArmHeightRecallOrder", "CommandArmForeAftRecallOrder"}
  {
    var confirmed := AcquireWithDefaultWindow(DemoBuffer(clock));
    DemoConfirmsFour(clock);
    forall id | id in confirmed
      ensures id in {"TrackRecallOrder", "TiltRecallOrder", "CommandArmHeightRecallOrder", "CommandArmForeAftRecallOrder"}
    {
      DemoConfirmsNoMore(clock, id);
    }
    ExactlyFour(confirmed, "TrackRecallOrder", "TiltRecallOrder", "CommandArmHeightRecallOrder", "CommandArmForeAftRecallOrder");
  }

  /** A set that holds four given values and nothing else is the set of those four. */
  lemma ExactlyFour<T>(s: set<T>, a: T, b: T, c: T, d: T)
    requires a in s && b in s && c in s && d in s
    requires forall x :: x in s ==> x in {a, b, c, d}
    ensures s == {a, b, c, d}
  {
  }

  /**
   The demonstration's commands: with every interlock clear the gate allows
   the recall; track (70 over 60) rotates CW, recline (30 at 30) and tilt (the
   fail-safe order) stop, and the command arm, whose height target 55 lies
   below its position 60, moves fore/aft first (CW) and then lowers (CCW).
   The recline command is stated for its orders only: the demonstration never
   issues it, because the recline request is not confirmed (`DemoConfirmations`).
   */
  lemma DemoScenario()
    ensures IsRecallAllowed(false, NoCommand, true) == Decision(true, Permitted)
    ensures TrackCommand(Target(70), 60) == CW
    ensures ReclineCommand(Target(30), 30) == Stop
    ensures TiltCommand(Text(FailSafe), 45) == Stop
    ensures MotionSequence(Target(55), 60, Target(40), 20) == [Step(ForeAftLabel, CW), Step(HeightLabel, CCW)]
  {
  }

  /**
   A variation on the demonstration that it does not itself run: with a
   height target of 70 instead of 55, above the position 60, the arm rises
   before it moves fore/aft.
   */
  lemma DemoRisingVariant()
    ensures MotionSequence(Target(70), 60, Target(40), 20) == [Step(HeightLabel, CW), Step(ForeAftLabel, CW)]
  {
  }
}
