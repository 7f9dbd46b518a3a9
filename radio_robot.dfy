/**
  The robot end of the radio link (CustomRF24_Robot): the configuration
  variable responder, the transmit queue and cyclic buffer that feed the
  acknowledgement payloads, and the dispatcher of received messages.

  Radio driver calls are not modelled as calls: what the driver reports
  (a message is available, the received message) is a parameter, and what
  is handed to it (writeAckPayload) is appended to the `acked` log.
  Registered callbacks are recorded as the handler kinds that are set, and
  invoking one appends its kind to the `invoked` log.
*/
module RadioRobot {
  import opened Wrappers
  import opened RadioProtocol
  import opened ConfigSync
  import opened OutboundQueue

  /** The callbacks a robot can register (callback_msg, callback_command, ...). */
  datatype Handler =
    | OnMessage
    | OnCommand
    | OnStatusHF
    | OnStatusLF
    | OnImuReadings
    | OnOdometryReading
    | OnOverrideOdometry

  /** The typed callback a message tag is routed to, if any. */
  function CallbackFor(mt: MessageType): (h: Option<Handler>)
    ensures h != Some(OnMessage)
  {
    match mt
    case Command => Some(OnCommand)
    case PrimaryStatusHF => Some(OnStatusHF)
    case PrimaryStatusLF => Some(OnStatusLF)
    case ImuReadings => Some(OnImuReadings)
    case OdometryReading => Some(OnOdometryReading)
    case OverrideOdometry => Some(OnOverrideOdometry)
    case _ => None
  }

  /** What receiveAndCallback returns for a tag: whether it is a known message,
      that is, one the switch handles. */
  predicate Known(mt: MessageType)
    ensures Known(mt) <==> !mt.NoMessage? && !mt.Other?
  {
    mt == MultiConfigMessage || CallbackFor(mt).Some?
  }

  /** No two tags share a typed callback. */
  lemma RoutingIsExact(mt: MessageType, mt': MessageType)
    ensures CallbackFor(mt).Some? && CallbackFor(mt) == CallbackFor(mt') ==> mt == mt'
  {
  }

  /** The callbacks invoked for one received message, in order: the generic
      one first, then the typed one, each only if registered. */
  function Invocations(callbacks: set<Handler>, mt: MessageType): seq<Handler>
  {
    (if OnMessage in callbacks then [OnMessage] else [])
    + (if CallbackFor(mt).Some? && CallbackFor(mt).value in callbacks then [CallbackFor(mt).value] else [])
  }

  /** Each registered callback that applies is invoked exactly once, the
      generic one first, and nothing else is invoked. */
  lemma InvocationsExact(callbacks: set<Handler>, mt: MessageType)
    ensures var r := Invocations(callbacks, mt);
            && (OnMessage in callbacks <==> OnMessage in r)
            && (OnMessage in callbacks ==> r[0] == OnMessage)
            && (forall h :: h in r && h != OnMessage ==> h in callbacks && CallbackFor(mt) == Some(h))
            && (CallbackFor(mt).Some? && CallbackFor(mt).value in callbacks ==> CallbackFor(mt).value in r)
            && |r| == (if OnMessage in callbacks then 1 else 0)
                      + (if CallbackFor(mt).Some? && CallbackFor(mt).value in callbacks then 1 else 0)
  {
  }

  /** The replies handleMultiConfigMessage pushes onto txQueue: none, or one. */
  function Replies(out: Outcome): seq<Message>
  {
    if out.reply.Some? then [Message(MultiConfigMessage, out.reply.value)] else []
  }

  class Robot {
    /** MAX_TX_BUFFER: the capacity of the cyclic buffer. */
    const maxTxBuffer: nat

    /** The configuration variables and the contents of their storage. */
    var variables: Registry
    /** txQueue: replies waiting to be sent, front first. */
    var txQueue: seq<Message>
    /** txBuffer: the last message written to each slot. */
    var txBuffer: array<Message>
    /** tx_buffer_len: one past the highest slot ever written. */
    var txBufferLen: nat
    /** tx_rotate: the round-robin cursor. */
    var txRotate: nat
    /** The callbacks that are registered (non-null). */
    var callbacks: set<Handler>
    /** Every payload handed to writeAckPayload, in order. */
    var acked: seq<Message>
    /** Every callback invocation, in order. */
    var invoked: seq<Handler>

    ghost predicate Valid()
      reads this
    {
      && txBuffer.Length == maxTxBuffer
      && txBufferLen <= maxTxBuffer
      && RegistryValid(variables)
    }

    /** The transmit state as a value. */
    function Outgoing(): (o: Outbound)
      reads this, txBuffer
      requires Valid()
      ensures OutboundValid(o)
    {
      Outbound(txQueue, txBuffer[..], txBufferLen, txRotate)
    }

    /** tx_rotate has no initialiser in the source; its starting value is a
        parameter. */
    constructor (maxTxBuffer: nat, variables: Registry, txRotate: nat)
      requires RegistryValid(variables)
      ensures Valid() && fresh(txBuffer)
      ensures this.maxTxBuffer == maxTxBuffer && this.variables == variables
      ensures txQueue == [] && txBufferLen == 0 && this.txRotate == txRotate
      ensures callbacks == {} && acked == [] && invoked == []
    {
      this.maxTxBuffer := maxTxBuffer;
      this.variables := variables;
      txQueue := [];
      txBuffer := new Message[maxTxBuffer](_ => EmptyMessage);
      txBufferLen := 0;
      this.txRotate := txRotate;
      callbacks := {};
      acked := [];
      invoked := [];
    }

    /** registerCallback<T>: set the callback of one kind, or clear it when
        given nullptr (`present` is false). */
    method RegisterCallback(h: Handler, present: bool)
      modifies this`callbacks
      ensures callbacks == if present then old(callbacks) + {h} else old(callbacks) - {h}
    {
      if present {
        callbacks := callbacks + {h};
      } else {
        callbacks := callbacks - {h};
      }
    }

    /** handleMultiConfigMessage: answer a request slot by slot against the
        registry, rewriting a copy of the message in place, and queue exactly
        one reply; any other operation is ignored. */
    method HandleMultiConfigMessage(mcm: MultiConfig)
      requires Valid() && WellFormed(mcm)
      modifies this`variables, this`txQueue
      ensures Valid()
      ensures var out := Handle(old(variables), mcm);
              && variables == out.registry
              && txQueue == old(txQueue) + Replies(out)
    {
      var op := mcm.operation;
      if !IsRequest(op) {
        return;
      }
      var vars: seq<Variable>, values: seq<nat> := mcm.vars, mcm.values;
      for i := 0 to Slots
        invariant SweepState(vars, values, variables) == Sweep(op, old(variables), mcm.vars, mcm.values, i)
        invariant RegistryValid(variables)
        invariant txQueue == old(txQueue)
      {
        SweepStep(op, old(variables), mcm.vars, mcm.values, i);
        vars, values := AnswerSlot(op, vars, values, i);
      }
      ghost var s := Sweep(op, old(variables), mcm.vars, mcm.values, Slots);
      assert vars == s.vars && values == s.values;
      txQueue := txQueue + [Message(MultiConfigMessage, MultiConfig(ReturnOf(op), vars, values))];
    }

    /** One iteration of the slot loop of handleMultiConfigMessage: answer
        slot `i` of the message being rewritten, against the registry. */
    method AnswerSlot(op: ConfigOperation, vars: seq<Variable>, values: seq<nat>, i: nat)
      returns (vars': seq<Variable>, values': seq<nat>)
      requires IsRequest(op) && i < |vars| == |values|
      modifies this`variables
      ensures var o := HandleSlot(op, old(variables), vars[i], values[i]);
              vars' == vars[i := o.variable] && values' == values[i := o.value] && variables == o.registry
    {
      vars', values' := vars, values;
      if vars[i] == NONE {
        assert vars[i := NONE] == vars && values[i := values[i]] == values;
        return;
      }
      var id := vars[i].index;
      if id !in variables {
        vars' := vars[i := NONE];  // not available
        assert values[i := values[i]] == values;
        return;
      }
      var cv := variables[id];
      if op == Read {
        if !Readable(cv.access) {
          vars' := vars[i := NONE];  // not readable
          assert values[i := values[i]] == values;
          return;
        }
        values' := values[i := Truncate(cv.value, cv.width)];
      } else {
        if !Writable(cv.access) {
          vars' := vars[i := NONE];  // not writeable
          assert values[i := values[i]] == values;
          return;
        }
        var stored := if op == Write then Truncate(values[i], cv.width) else Truncate(cv.default, cv.width);
        variables := variables[id := cv.(value := stored)];
        values' := values[i := Truncate(variables[id].value, cv.width)];
      }
      assert vars[i := vars[i]] == vars;
    }

    /** writeTx: attach the front of the queue to the next acknowledgement,
        or, with nothing queued, the buffer slot under the cursor. Only the
        buffer branch is guarded: with nothing queued and nothing buffered
        nothing is attached, where the code as written reduces modulo 0.
        This is narrower than the commented-out `tx_buffer_len >= 1` guard,
        which would also hold back queued replies. */
    method WriteTx()
      requires Valid()
      modifies this`txQueue, this`txRotate, this`acked
      ensures Valid()
      ensures var t := NextTransmission(old(Outgoing()));
              Outgoing() == t.after && acked == old(acked) + Sent(t)
    {
      if txQueue == [] {
        if txBufferLen > 0 {
          acked := acked + [txBuffer[txRotate % txBufferLen]];
          txRotate := txRotate + 1;
        }
      } else {
        acked := acked + [txQueue[0]];
        txQueue := txQueue[1..];
      }
    }

    /** writeTxBuffer: store a message in a slot of the cyclic buffer, grow the
        used length to cover it, and take the next transmit opportunity. An
        index past MAX_TX_BUFFER is ignored. */
    method WriteTxBuffer(index: nat, msg: Message)
      requires Valid()
      modifies this`txBufferLen, this`txQueue, this`txRotate, this`acked, txBuffer
      ensures Valid()
      ensures index >= maxTxBuffer ==>
                txBuffer[..] == old(txBuffer[..]) && Outgoing() == old(Outgoing()) && acked == old(acked)
      ensures index < maxTxBuffer ==>
                var stored := old(Outgoing()).(buffer := old(txBuffer[..])[index := msg],
                                               len := if index >= old(txBufferLen) then index + 1 else old(txBufferLen));
                var t := NextTransmission(stored);
                Outgoing() == t.after && acked == old(acked) + Sent(t)
    {
      if index >= maxTxBuffer {
        return;
      }
      if index >= txBufferLen {
        txBufferLen := index + 1;
      }
      txBuffer[index] := msg;
      WriteTx();
    }

    /** receiveAndCallback: hand the received message to the generic callback,
        then route it by tag; returns whether the tag is a known message. */
    method ReceiveAndCallback(msg: Message) returns (handled: bool)
      requires Valid()
      requires msg.mt == MultiConfigMessage ==> WellFormed(msg.mcm)
      modifies this`variables, this`txQueue, this`invoked
      ensures Valid()
      ensures handled == Known(msg.mt)
      ensures invoked == old(invoked) + Invocations(callbacks, msg.mt)
      ensures msg.mt == MultiConfigMessage ==>
                var out := Handle(old(variables), msg.mcm);
                && variables == out.registry
                && txQueue == old(txQueue) + Replies(out)
      ensures msg.mt != MultiConfigMessage ==> variables == old(variables) && txQueue == old(txQueue)
    {
      if OnMessage in callbacks {
        invoked := invoked + [OnMessage];
      }
      if msg.mt == MultiConfigMessage {
        HandleMultiConfigMessage(msg.mcm);
        handled := true;
      } else if CallbackFor(msg.mt).Some? {
        // one case per typed message: its callback, if registered
        var h := CallbackFor(msg.mt).value;
        if h in callbacks {
          invoked := invoked + [h];
        }
        handled := true;
      } else {
        // NONE and unknown message types
        handled := false;
      }
    }

    /** run: if a message is available, receive and dispatch it and then take
        one transmit opportunity; otherwise do nothing and report false. */
    method Run(incoming: Option<Message>) returns (handled: bool)
      requires Valid()
      requires incoming.Some? && incoming.value.mt == MultiConfigMessage ==> WellFormed(incoming.value.mcm)
      modifies this`variables, this`txQueue, this`invoked, this`txRotate, this`acked
      ensures Valid()
      ensures incoming.None? ==>
                !handled && variables == old(variables) && Outgoing() == old(Outgoing())
                && acked == old(acked) && invoked == old(invoked)
      ensures incoming.Some? ==>
                var msg := incoming.value;
                var q := if msg.mt == MultiConfigMessage then old(txQueue) + Replies(Handle(old(variables), msg.mcm))
                         else old(txQueue);
                var t := NextTransmission(old(Outgoing()).(queue := q));
                && handled == Known(msg.mt)
                && invoked == old(invoked) + Invocations(callbacks, msg.mt)
                && variables == (if msg.mt == MultiConfigMessage then Handle(old(variables), msg.mcm).registry else old(variables))
                && Outgoing() == t.after && acked == old(acked) + Sent(t)
    {
      if incoming.None? {
        return false;
      }
      handled := ReceiveAndCallback(incoming.value);
      WriteTx();
    }
  }

}
