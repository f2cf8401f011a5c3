/**
 Per-motor command derivation.

 A stored order is either a numeric target position or a text value; the text
 "FF" is the fail-safe stop request. The command is Stop, CW (target above the
 current position) or CCW (target below it). Any text order, the fail-safe
 one included, gives Stop. The five per-motor entry points differ only in the
 motor label they pass along, which never influences the command.
 */
module Motor {

  /** A stored order: a numeric target position, or a text value. */
  datatype Order = Target(position: int) | Text(text: string)

  /** The text order that requests an immediate stop. */
  const FailSafe: string := "FF"

  /** A directional motor command. */
  datatype Command = Stop | CW | CCW

  /** The motor a command is derived for; used only as a diagnostic label. */
  datatype MotorLabel = Track | Recline | Tilt | CommandArmHeight | CommandArmForeAft

  /**
   The shared motor logic. CW exactly when a numeric target lies above the
   position, CCW exactly when it lies below, and Stop otherwise: for the
   fail-safe order, for any other text order, and for a target already reached.
   */
  function BasicMotorLogic(order: Order, position: int, motor: MotorLabel): (c: Command)
    ensures order == Text(FailSafe) ==> c == Stop
    ensures c == CW <==> order.Target? && order.position > position
    ensures c == CCW <==> order.Target? && order.position < position
    ensures c == Stop <==> order.Text? || order.position == position
  {
    if order == Text(FailSafe) then
      Stop
    else if order.Target? then
      if order.position > position then CW
      else if order.position < position then CCW
      else Stop
    else
      Stop
  }

  /** The command that drives a position towards a target displacement `delta` away. */
  function TowardsDisplacement(delta: int): Command
  {
    if delta > 0 then CW else if delta < 0 then CCW else Stop
  }

  /**
   For a numeric order the command depends only on the displacement from the
   position to the target, whatever the motor.
   */
  lemma NumericCommandFollowsDisplacement(target: int, position: int, motor: MotorLabel)
    ensures BasicMotorLogic(Target(target), position, motor) == TowardsDisplacement(target - position)
  {
  }

  /** Exchanging the target and the position reverses the direction. */
  lemma SwappingReversesDirection(a: int, b: int, motor: MotorLabel)
    ensures BasicMotorLogic(Target(a), b, motor) == CW <==> BasicMotorLogic(Target(b), a, motor) == CCW
    ensures BasicMotorLogic(Target(a), b, motor) == Stop <==> BasicMotorLogic(Target(b), a, motor) == Stop
  {
  }

  /** The track motor's command; the label never changes the shared logic's answer. */
  function TrackCommand(order: Order, position: int): (c: Command)
    ensures forall motor :: c == BasicMotorLogic(order, position, motor)
  {
    BasicMotorLogic(order, position, Track)
  }

  /** The recline motor's command; the label never changes the shared logic's answer. */
  function ReclineCommand(order: Order, position: int): (c: Command)
    ensures forall motor :: c == BasicMotorLogic(order, position, motor)
  {
    BasicMotorLogic(order, position, Recline)
  }

  /** The tilt motor's command; the label never changes the shared logic's answer. */
  function TiltCommand(order: Order, position: int): (c: Command)
    ensures forall motor :: c == BasicMotorLogic(order, position, motor)
  {
    BasicMotorLogic(order, position, Tilt)
  }

  /** The command-arm height motor's command; the label never changes the shared logic's answer. */
  function CommandArmHeightCommand(order: Order, position: int): (c: Command)
    ensures forall motor :: c == BasicMotorLogic(order, position, motor)
  {
    BasicMotorLogic(order, position, CommandArmHeight)
  }

  /** The command-arm fore/aft motor's command; the label never changes the shared logic's answer. */
  function CommandArmForeAftCommand(order: Order, position: int): (c: Command)
    ensures forall motor :: c == BasicMotorLogic(order, position, motor)
  {
    BasicMotorLogic(order, position, CommandArmForeAft)
  }
}
