/**
  The base-station end of the radio link (CustomRF24_Base): one radio of a
  group, listening on five robot pipes, writing to one robot or to the
  broadcast address at a time. Radio driver calls are not modelled as calls:
  the pipes it opens are recorded in `readingPipes` and `writingPipes`, and
  a received message with its pipe is a parameter.
*/
module RadioBase {
  import opened Wrappers
  import opened RadioProtocol
  import opened AddressSpace

  /** The SSL id returned for a pipe that is not a robot pipe of this radio. */
  const InvalidId: nat := 255

  /** The value of rx_robot while writing to the broadcast address. */
  const BroadcastRobot: nat := 0xEE

  class BaseRadio {
    /** Radio::BaseAddress_BtR: base-to-robot address of robot 0. */
    const baseAddressBtR: nat
    /** Radio::BroadcastAddress. */
    const broadcastAddress: nat

    /** identity: this radio's index in the group. */
    var identity: nat
    /** num_radios_online. */
    var numRadiosOnline: nat
    /** rx_robot: the robot the writing pipe is open to. */
    var rxRobot: nat
    /** The address each reading pipe is open on. */
    var readingPipes: map<nat, nat>
    /** Every address passed to openWritingPipe, in order. */
    var writingPipes: seq<nat>
    /** Whether callback_msg is set. */
    var hasCallback: bool
    /** Every (message, robot id) passed to callback_msg, in order. */
    var delivered: seq<(Message, nat)>

    constructor (group: nat, baseAddressBtR: nat, broadcastAddress: nat, rxRobot: nat, numRadiosOnline: nat)
      ensures identity == group && this.rxRobot == rxRobot && this.numRadiosOnline == numRadiosOnline
      ensures this.baseAddressBtR == baseAddressBtR && this.broadcastAddress == broadcastAddress
      ensures readingPipes == map[] && writingPipes == [] && !hasCallback && delivered == []
    {
      identity := group;
      this.baseAddressBtR := baseAddressBtR;
      this.broadcastAddress := broadcastAddress;
      this.rxRobot := rxRobot;
      this.numRadiosOnline := numRadiosOnline;
      readingPipes := map[];
      writingPipes := [];
      hasCallback := false;
      delivered := [];
    }

    /** setRadioID. */
    method SetRadioID(identity: nat)
      modifies this`identity
      ensures this.identity == identity
    {
      this.identity := identity;
    }

    /** registerCallback: set callback_msg, or clear it when given nullptr
        (`present` is false). */
    method RegisterCallback(present: bool)
      modifies this`hasCallback
      ensures hasCallback == present
    {
      hasCallback := present;
    }

    /** getID: the robot served on `pipe` of this radio, or 255 for a pipe
        outside 1..5 or a radio that is not among the online ones. */
    function GetID(pipe: nat): (id: nat)
      reads this
      ensures !(1 <= pipe <= 5) ==> id == InvalidId
      ensures identity >= numRadiosOnline ==> id == InvalidId
      ensures 1 <= pipe <= 5 && identity < numRadiosOnline ==>
                RadioOf(id, numRadiosOnline) == identity && PipeOf(id, numRadiosOnline) == pipe
    {
      if pipe < 1 || pipe > 5 then InvalidId
      else if identity >= numRadiosOnline then InvalidId
      else
        SplitRobotId(pipe, identity, numRadiosOnline);
        RobotId(pipe, identity, numRadiosOnline)
    }

    /** getPipe: the pipe robot `id` is served on, or 0 when another radio
        serves it. The result is a `uint8_t`, so a pipe past 255 wraps. */
    function GetPipe(id: nat): (pipe: nat)
      reads this
      requires numRadiosOnline > 0
      ensures pipe < 0x100
      ensures RadioOf(id, numRadiosOnline) != identity ==> pipe == 0
      ensures RadioOf(id, numRadiosOnline) == identity && PipeOf(id, numRadiosOnline) < 0x100 ==>
                pipe >= 1 && RobotId(pipe, identity, numRadiosOnline) == id
      ensures RadioOf(id, numRadiosOnline) == identity ==> (PipeOf(id, numRadiosOnline) - pipe) % 0x100 == 0
    {
      if RadioOf(id, numRadiosOnline) != identity then 0
      else
        JoinRobotId(id, numRadiosOnline);
        PipeOf(id, numRadiosOnline) % 0x100
    }

    /** setRxRobot: point the writing pipe at robot `id`, reopening it only
        when the robot changes. */
    method SetRxRobot(id: nat)
      modifies this`rxRobot, this`writingPipes
      ensures rxRobot == id
      ensures writingPipes == old(writingPipes) + (if old(rxRobot) != id then [baseAddressBtR + id] else [])
    {
      if id != rxRobot {
        rxRobot := id;
        writingPipes := writingPipes + [baseAddressBtR + rxRobot];
      }
    }

    /** setRxBroadcast: point the writing pipe at the broadcast address,
        reopening it only when it is not already there. */
    method SetRxBroadcast()
      modifies this`rxRobot, this`writingPipes
      ensures rxRobot == BroadcastRobot
      ensures writingPipes == old(writingPipes) + (if old(rxRobot) != BroadcastRobot then [broadcastAddress] else [])
    {
      if BroadcastRobot != rxRobot {
        rxRobot := BroadcastRobot;
        writingPipes := writingPipes + [broadcastAddress];
      }
    }

    /** openPipes: record how many radios are online and open reading pipes
        0..5, pipe p on base-to-robot address p + 1. */
    method OpenPipes(n: nat)
      modifies this`numRadiosOnline, this`readingPipes
      ensures numRadiosOnline == n
      ensures readingPipes == old(readingPipes) + PipeAddresses(baseAddressBtR, 6)
    {
      numRadiosOnline := n;
      for pipe := 0 to 6
        invariant readingPipes == old(readingPipes) + PipeAddresses(baseAddressBtR, pipe)
        invariant numRadiosOnline == n
      {
        readingPipes := readingPipes[pipe := baseAddressBtR + pipe + 1];
      }
    }

    /** receiveAndCallback: pass the message and the robot id to callback_msg
        if it is set; a received message is always reported as handled. */
    method ReceiveAndCallback(id: nat, msg: Message) returns (handled: bool)
      modifies this`delivered
      ensures handled
      ensures delivered == old(delivered) + (if hasCallback then [(msg, id)] else [])
    {
      if hasCallback {
        delivered := delivered + [(msg, id)];
      }
      return true;
    }

    /** run: with nothing available report false; otherwise deliver the
        message with id `pipe + 1` and report true. */
    method Run(incoming: Option<(nat, Message)>) returns (handled: bool)
      modifies this`delivered
      ensures handled <==> incoming.Some?
      ensures incoming.None? ==> delivered == old(delivered)
      ensures incoming.Some? ==>
                delivered == old(delivered) + (if hasCallback then [(incoming.value.1, incoming.value.0 + 1)] else [])
    {
      if incoming.None? {
        return false;
      }
      var (pipe, msg) := incoming.value;
      handled := ReceiveAndCallback(pipe + 1, msg);
    }
  }

  /** The reading pipes 0..k-1 with the addresses openPipes gives them. */
  function PipeAddresses(base: nat, k: nat): (m: map<nat, nat>)
    ensures forall p: nat :: p in m <==> p < k
    ensures forall p :: p in m ==> m[p] == base + p + 1
    decreases k
  {
    if k == 0 then map[] else PipeAddresses(base, k - 1)[k - 1 := base + k]
  }

  /** getPipe undoes getID on every robot pipe of an online radio. */
  lemma GetPipeOfGetID(b: BaseRadio, pipe: nat)
    requires 1 <= pipe <= 5 && b.identity < b.numRadiosOnline
    ensures b.GetPipe(b.GetID(pipe)) == pipe
  {
    var n := b.numRadiosOnline;
    var id := b.GetID(pipe);
    JoinRobotId(id, n);
  }

  /** With one radio online, the identity 255 that getID returns for a bad
      pipe is served by radio 0 on pipe 256, which the `uint8_t` result
      wraps to 0, the value getPipe also returns for another radio's robot. */
  lemma GetPipeOfInvalidIdWraps(b: BaseRadio)
    requires b.numRadiosOnline == 1 && b.identity == 0
    ensures PipeOf(InvalidId, 1) == 0x100 && b.GetPipe(InvalidId) == 0
  {
  }

  /** getID undoes getPipe on every robot this radio serves on pipes 1..5. */
  lemma GetIDOfGetPipe(b: BaseRadio, id: nat)
    requires b.numRadiosOnline > 0 && b.identity < b.numRadiosOnline
    requires RadioOf(id, b.numRadiosOnline) == b.identity && PipeOf(id, b.numRadiosOnline) <= 5
    ensures b.GetID(b.GetPipe(id)) == id
  {
    var n := b.numRadiosOnline;
    JoinRobotId(id, n);
  }

}
