/**
 Sequencing of the two command-arm motors.

 The height and fore/aft commands are emitted as two labelled steps; the
 order of the steps is the actuation order. Height goes first exactly when
 its numeric target lies above its position (the arm rises before it shifts);
 otherwise, a tie included, fore/aft goes first. The sequencer never changes
 a command, only the order of the two.

 The height order is compared with the height position directly, so it must
 be numeric: a text height order has no defined comparison with a position.
 */
module CommandArm {
  import opened Motor

  /** The label of the height step. */
  const HeightLabel: string := "Height"

  /** The label of the fore/aft step. */
  const ForeAftLabel: string := "ForeAft"

  /** One step of the sequence: which motor, and its command. */
  datatype Step = Step(motor: string, command: Command)

  /**
   The command-arm sequence: exactly two steps, one per motor, each carrying
   that motor's own command, with Height first exactly when the height target
   lies above the height position.
   */
  function MotionSequence(heightOrder: Order, heightPos: int, foreAftOrder: Order, foreAftPos: int): (steps: seq<Step>)
    requires heightOrder.Target?
    ensures |steps| == 2
    ensures {steps[0].motor, steps[1].motor} == {HeightLabel, ForeAftLabel}
    ensures steps[0].motor == HeightLabel <==> heightOrder.position > heightPos
    ensures forall i :: 0 <= i < |steps| && steps[i].motor == HeightLabel ==>
      steps[i].command == BasicMotorLogic(heightOrder, heightPos, CommandArmHeight)
    ensures forall i :: 0 <= i < |steps| && steps[i].motor == ForeAftLabel ==>
      steps[i].command == BasicMotorLogic(foreAftOrder, foreAftPos, CommandArmForeAft)
  {
    var height := Step(HeightLabel, CommandArmHeightCommand(heightOrder, heightPos));
    var foreAft := Step(ForeAftLabel, CommandArmForeAftCommand(foreAftOrder, foreAftPos));
    if heightOrder.position > heightPos then [height, foreAft] else [foreAft, height]
  }

  /**
   The sequence holds the two per-motor commands, unchanged, whichever order
   it puts them in.
   */
  lemma SequenceIsPermutationOfCommands(heightOrder: Order, heightPos: int, foreAftOrder: Order, foreAftPos: int)
    requires heightOrder.Target?
    ensures multiset(MotionSequence(heightOrder, heightPos, foreAftOrder, foreAftPos))
      == multiset{Step(HeightLabel, CommandArmHeightCommand(heightOrder, heightPos)),
                  Step(ForeAftLabel, CommandArmForeAftCommand(foreAftOrder, foreAftPos))}
  {
  }

  /**
   The clearance rule seen from the commands: the height motor is first
   exactly when it is commanded to rotate CW, so a rising arm always rises
   before fore/aft moves, and a height step placed second never rotates CW.
   */
  lemma HeightFirstExactlyWhenRising(heightOrder: Order, heightPos: int, foreAftOrder: Order, foreAftPos: int)
    requires heightOrder.Target?
    ensures var steps := MotionSequence(heightOrder, heightPos, foreAftOrder, foreAftPos);
      steps[0].motor == HeightLabel <==> CommandArmHeightCommand(heightOrder, heightPos) == CW
    ensures var steps := MotionSequence(heightOrder, heightPos, foreAftOrder, foreAftPos);
      steps[1].motor == HeightLabel ==> steps[1].command != CW
  {
  }

  /**
   A tie on height (target already reached) puts fore/aft first, and the
   height step is then a Stop.
   */
  lemma TiePutsForeAftFirst(height: int, foreAftOrder: Order, foreAftPos: int)
    ensures var steps := MotionSequence(Target(height), height, foreAftOrder, foreAftPos);
      steps[0].motor == ForeAftLabel && steps[1] == Step(HeightLabel, Stop)
  {
  }
}
