/**
  The arithmetic that maps a robot identity to a (radio, pipe) pair of the
  base station and back. The helpers Radio::getRobotID, Radio::getRadioID and
  Radio::getPipe are not part of this model's sources; they are taken to be
  the formulas below, and the lemmas state what the base station relies on.
*/
module AddressSpace {
  import opened Arithmetic

  /** Radio::getRobotID: the robot listened to on `pipe` (1..5) of radio `radio`
      when `n` radios are online. */
  function RobotId(pipe: nat, radio: nat, n: nat): (id: nat)
    requires pipe >= 1
    ensures radio < n ==> (pipe - 1) * n <= id < pipe * n
  {
    (pipe - 1) * n + radio
  }

  /** Radio::getRadioID: the radio that serves robot `id`. */
  function RadioOf(id: nat, n: nat): (radio: nat)
    requires n > 0
    ensures radio < n
  {
    id % n
  }

  /** Radio::getPipe: the pipe on which robot `id` is served. */
  function PipeOf(id: nat, n: nat): (pipe: nat)
    requires n > 0
    ensures pipe >= 1 && (pipe - 1) * n <= id < pipe * n
  {
    id / n + 1
  }

  /** Splitting an identity gives back the pipe and radio it was made from. */
  lemma SplitRobotId(pipe: nat, radio: nat, n: nat)
    requires pipe >= 1 && radio < n
    ensures RadioOf(RobotId(pipe, radio, n), n) == radio
    ensures PipeOf(RobotId(pipe, radio, n), n) == pipe
  {
    DivModUnique(RobotId(pipe, radio, n), n, pipe - 1, radio);
  }

  /** Every identity is the one made from its own pipe and radio. */
  lemma JoinRobotId(id: nat, n: nat)
    requires n > 0
    ensures PipeOf(id, n) >= 1 && RadioOf(id, n) < n
    ensures RobotId(PipeOf(id, n), RadioOf(id, n), n) == id
  {
  }

  /** Robot 12 with four radios online is on radio 0, pipe 4, and back. */
  lemma ExampleRobot12()
    ensures RadioOf(12, 4) == 0 && PipeOf(12, 4) == 4 && RobotId(4, 0, 4) == 12
  {
  }

}
