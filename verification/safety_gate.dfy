/**
 The safety interlock that decides whether a stored seat recall may run.

 Three checks are made in a fixed order and the first one that trips decides:
 the physical switch, then an active bus (CAN) command, then the availability
 of the motor position. The decision carries the reason that decided it; the
 reason is an enumeration, not the display text that app.py returns.
 */
module SafetyGate {

  /** The bus command value that means "no command is active". */
  const NoCommand: string := "No Command"

  /** Why the gate decided as it did. `CanActive` carries the active bus command. */
  datatype Reason =
    | SwitchEngaged
    | CanActive(command: string)
    | PositionUnknown
    | Permitted

  /** The gate's answer: allow or deny, with the reason. */
  datatype Decision = Decision(allowed: bool, reason: Reason)

  /** All three interlocks are clear: the switch is off, the bus is idle, the position is known. */
  predicate AllClear(switchActive: bool, canCommand: string, positionAvailable: bool)
  {
    !switchActive && canCommand == NoCommand && positionAvailable
  }

  /** True when `reason` names a condition that really holds of the inputs. */
  predicate ReasonHolds(reason: Reason, switchActive: bool, canCommand: string, positionAvailable: bool)
  {
    match reason
    case SwitchEngaged => switchActive
    case CanActive(c) => c == canCommand && canCommand != NoCommand
    case PositionUnknown => !positionAvailable
    case Permitted => AllClear(switchActive, canCommand, positionAvailable)
  }

  /**
   The interlock gate. Allowed exactly when all interlocks are clear; a denial
   names a condition that holds, and the switch outranks the bus command,
   which outranks the position check.
   */
  function IsRecallAllowed(switchActive: bool, canCommand: string, positionAvailable: bool): (d: Decision)
    ensures d.allowed <==> AllClear(switchActive, canCommand, positionAvailable)
    ensures d.allowed <==> d.reason == Permitted
    ensures ReasonHolds(d.reason, switchActive, canCommand, positionAvailable)
    ensures switchActive ==> d.reason == SwitchEngaged
    ensures !switchActive && canCommand != NoCommand ==> d.reason == CanActive(canCommand)
  {
    if switchActive then
      Decision(false, SwitchEngaged)
    else if canCommand != NoCommand then
      Decision(false, CanActive(canCommand))
    else if !positionAvailable then
      Decision(false, PositionUnknown)
    else
      Decision(true, Permitted)
  }

  /**
   The switch dominates: whatever the bus command and the position state, an
   engaged switch gives the same denial.
   */
  lemma SwitchDominates(canCommand1: string, positionAvailable1: bool, canCommand2: string, positionAvailable2: bool)
    ensures IsRecallAllowed(true, canCommand1, positionAvailable1) == IsRecallAllowed(true, canCommand2, positionAvailable2)
    ensures !IsRecallAllowed(true, canCommand1, positionAvailable1).allowed
  {
  }

  /**
   With the switch off, an active bus command is reported before an unknown
   position, and the position state then has no influence on the decision.
   */
  lemma CanCheckBeforePosition(canCommand: string)
    requires canCommand != NoCommand
    ensures IsRecallAllowed(false, canCommand, false) == IsRecallAllowed(false, canCommand, true)
    ensures IsRecallAllowed(false, canCommand, false).reason == CanActive(canCommand)
  {
  }

  /**
   The contract of `IsRecallAllowed` is complete: any decision that meets all
   of its guarantees is the gate's decision.
   */
  lemma ContractDeterminesDecision(switchActive: bool, canCommand: string, positionAvailable: bool, d: Decision)
    requires d.allowed <==> AllClear(switchActive, canCommand, positionAvailable)
    requires d.allowed <==> d.reason == Permitted
    requires ReasonHolds(d.reason, switchActive, canCommand, positionAvailable)
    requires switchActive ==> d.reason == SwitchEngaged
    requires !switchActive && canCommand != NoCommand ==> d.reason == CanActive(canCommand)
    ensures d == IsRecallAllowed(switchActive, canCommand, positionAvailable)
  {
  }
}
