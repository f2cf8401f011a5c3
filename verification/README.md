# Seat recall decision pipeline, in Dafny

A model of the decision logic of a seat-position recall ("memory preset")
simulator for a seat with five motors: track, recline, tilt, command-arm
height and command-arm fore/aft. The program

- debounces recall-request signals: a buffer of `(timestamp, signal)` events
  yields the signals that occur at least three times among the events
  stamped no more than 200 ms before the last event's timestamp, or after it
  (`Debouncer`, `debouncer.dfy`);
- gates the recall behind three interlocks checked in a fixed order: the
  physical switch, then an active CAN bus command, then the availability of
  the motor position (`SafetyGate`, `safety_gate.dfy`);
- derives a direction command (Stop, CW, CCW) for each motor from its stored
  order and its position; the order is a number or a text, and the text
  `"FF"` is the fail-safe stop (`Motor`, `motor.dfy`);
- sequences the two command-arm motors: height first exactly when its target
  lies above its position, fore/aft first otherwise (`CommandArm`,
  `command_arm.dfy`).

`recall_demo.dfy` (`RecallDemo`) replays the program's own demonstration data
through the model, with the wall-clock reading as a parameter.

Modelling choices:

- The debouncer's result is a `set<string>`. Callers only test membership,
  so the order of the list app.py returns is not modelled.
- The count of a signal is stated against an independent reference: the set
  of buffer positions whose event carries the signal and lies in the window
  (`WindowIndices`). The `Counter` of app.py is `Tally`, a map whose
  values agree with the multiset of the in-window signals.
- The window test is kept as the code writes it, `now - ts <= threshold`. It
  is inclusive. With a non-negative window, an event stamped after the
  anchor gives a negative difference and so counts, however far ahead it is.
  app.py:28 does not reject such events, and the model keeps them
  (`FutureEventInWindow`, `FutureEventsCount`).
- An order is `Target(int) | Text(string)`. The text `"FF"` gives Stop, and
  so does every other text. This follows the code, which falls through to
  Stop for any non-integer order. A two-case order (a number or the
  fail-safe token) could not represent the other texts that app.py:41 turns
  into Stop.
- The reason of a gate decision is an enumeration
  (`SwitchEngaged | CanActive(cmd) | PositionUnknown | Permitted`), not the
  display text. `CanActive` carries the active command, which app.py
  puts into its message.
- The five per-motor entry points differ in the label they log. The label is
  the `MotorLabel` parameter of `BasicMotorLogic`, and each wrapper is shown to
  return the shared logic's answer whatever the label.
- `MotionSequence` requires a numeric height order. app.py compares
  the height order with the position directly, and a text order there has
  no defined result: Python raises a type error.

## Model

| member | source | states |
|---|---|---|
| SafetyGate.IsRecallAllowed | app.py:6-17 | allowed exactly when the switch is off, the CAN command is "No Command" and the position is available; allowed exactly when the reason is Permitted; every reason names a condition that holds; an engaged switch always gives SwitchEngaged; with the switch off, an active CAN command gives CanActive carrying that command |
| SafetyGate.SwitchDominates | app.py:11-12 | with the switch engaged, the decision is the same denial whatever the CAN command and position state |
| SafetyGate.CanCheckBeforePosition | app.py:13-16 | with the switch off and a CAN command active, the position state does not change the decision, which reports the CAN command |
| SafetyGate.ContractDeterminesDecision | app.py:11-17 | any decision meeting every guarantee of the gate's contract is the gate's decision, so the contract fixes the result for every input |
| Debouncer.RecentSignals | app.py:27-28 | the in-window signals hold each identifier exactly as many times as there are in-window buffer positions carrying it |
| Debouncer.Tally | app.py:29 | the counter's keys are exactly the identifiers that occur, each mapped to its number of occurrences |
| Debouncer.AcquireRecallRequests | app.py:20-30 | a buffer of fewer than 3 events confirms nothing; otherwise an identifier is confirmed exactly when at least 3 in-window positions, anchored at the last event, carry it; every confirmed identifier occurs in the buffer |
| Debouncer.AcquireWithDefaultWindow | app.py:20-22 | the same characterisation with the default 200 ms window |
| Debouncer.ThreeWitnessesConfirm | app.py:27-30 | three distinct in-window events carrying one identifier confirm it |
| Debouncer.ConfirmedHasThreeWitnesses | app.py:24-30 | a confirmed identifier comes from a buffer of at least 3 events and has three in-window events at increasing positions |
| Debouncer.StaleEventsIgnored | app.py:24-30 | events placed before a non-empty buffer that lie outside its window do not change the confirmed set, also when they lift the buffer over the length guard |
| Debouncer.RecentSignalsSkipStale | app.py:28 | out-of-window events placed before a buffer add nothing to its in-window signals |
| Debouncer.NothingRecent | app.py:28 | a buffer with no event in the window has no in-window signals |
| Debouncer.InclusiveEdgeCounts | app.py:28 | an event exactly one window width before the anchor still counts |
| Debouncer.JustOutsideDropsOut | app.py:28 | an event one millisecond older than the window width does not count |
| Debouncer.FutureEventsCount | app.py:27-28 | with a 200 ms window, three events stamped seconds after the anchor confirm their signal |
| Debouncer.FutureEventInWindow | app.py:27-28 | for any buffer and non-negative window, an event stamped at or after the anchor lies in the window |
| Debouncer.WindowEdgeInside | app.py:28 | for any buffer and window, an event exactly one window width before the anchor lies in the window |
| Debouncer.WindowEdgeOutside | app.py:28 | for any buffer and window, an event one millisecond older than the window width lies outside it |
| Motor.BasicMotorLogic | app.py:33-41 | the fail-safe order gives Stop; CW exactly for a numeric target above the position; CCW exactly for one below; Stop exactly for a text order or a reached target |
| Motor.NumericCommandFollowsDisplacement | app.py:36-41 | for a numeric order the command depends only on the target's displacement from the position |
| Motor.SwappingReversesDirection | app.py:37-40 | exchanging target and position turns CW into CCW and keeps Stop |
| Motor.TrackCommand | app.py:44-46 | returns the shared logic's command, whatever label it is given |
| Motor.ReclineCommand | app.py:48-50 | returns the shared logic's command, whatever label it is given |
| Motor.TiltCommand | app.py:52-54 | returns the shared logic's command, whatever label it is given |
| Motor.CommandArmHeightCommand | app.py:56-58 | returns the shared logic's command, whatever label it is given |
| Motor.CommandArmForeAftCommand | app.py:60-62 | returns the shared logic's command, whatever label it is given |
| CommandArm.MotionSequence | app.py:65-73 | exactly two steps, one labelled "Height" and one "ForeAft"; Height first exactly when the height target lies above the height position; each step carries its own motor's command |
| CommandArm.SequenceIsPermutationOfCommands | app.py:66-73 | the two steps are the two per-motor commands, unchanged, in either order |
| CommandArm.HeightFirstExactlyWhenRising | app.py:67-72 | Height is first exactly when its command is CW; a Height step in second place is never CW |
| CommandArm.TiePutsForeAftFirst | app.py:67-72 | a height target equal to the position puts ForeAft first and gives the Height step Stop |
| RecallDemo.DemoConfirmations | app.py:81-97 | the demonstration buffer confirms exactly the track, tilt and both command-arm requests, at any clock reading; the lone recline request is 235 ms old and is not confirmed |
| RecallDemo.DemoScenario | app.py:100-114 | on the demonstration's state and orders the gate allows; track gives CW and tilt gives Stop; the arm moves fore/aft (CW) first, then height (CCW); the recline orders would give Stop, but the demonstration never issues that command because the recline request is not confirmed (app.py:126, `DemoConfirmations`) |
| RecallDemo.DemoRisingVariant | app.py:67-69 | a variation the demonstration does not run: with a height target of 70 above the position 60, the arm rises (Height CW) before it moves fore/aft |

## Left out

- The demonstration driver (app.py:76-144) is not modelled as a program. Its wall-clock read becomes the parameter `clock`, and its printing is dropped. Its data is replayed in `RecallDemo`.
- The diagnostic `print` calls inside the five per-motor functions are left out. They are side effects and do not affect the returned command.
- The exact reason texts of the gate are left out. The model's reason is an enumeration that names the triggering condition.
- The order of the identifiers in the debouncer's returned list is left out. It follows `Counter` insertion order, and callers only test membership.
- Orders that are neither an integer nor a string are left out. Python would send a float to the Stop fallthrough. Python's `bool`, as an `int` subclass, would be compared numerically.
- CommandArm.MotionSequence: a text height order is excluded by its precondition, because app.py raises a type error on the comparison instead of returning a sequence.
