/**
  What the robot attaches to its next acknowledgement: the front of the
  priority queue of replies if there is one, otherwise the next slot of the
  cyclic "last known" buffer. RadioRobot.Robot.WriteTx performs one step of
  this on the robot's fields and is proved equal to `NextTransmission`.
*/
module OutboundQueue {
  import opened Wrappers
  import opened RadioProtocol
  import opened Arithmetic

  /** The transmit state: txQueue, the used prefix length of txBuffer
      (tx_buffer_len), its contents, and the rotation cursor tx_rotate. */
  datatype Outbound = Outbound(queue: seq<Message>, buffer: seq<Message>, len: nat, rotate: nat)

  predicate OutboundValid(o: Outbound)
  {
    o.len <= |o.buffer|
  }

  /** One writeTx: the payload handed to the radio (if any) and the state after. */
  datatype Transmission = Transmission(sent: Option<Message>, after: Outbound)

  /** writeTx as written: with an empty queue it indexes the buffer with
      `tx_rotate % tx_buffer_len`, which is undefined when the length is 0
      (`None` here). */
  function NextTransmissionAsWritten(o: Outbound): (r: Option<Transmission>)
    requires OutboundValid(o)
    ensures r.None? <==> o.queue == [] && o.len == 0
  {
    if o.queue != [] then Some(Transmission(Some(o.queue[0]), o.(queue := o.queue[1..])))
    else if o.len == 0 then None
    else Some(Transmission(Some(o.buffer[o.rotate % o.len]), o.(rotate := o.rotate + 1)))
  }

  /** writeTx with only its buffer branch guarded: with nothing queued and
      nothing buffered, nothing is sent, where the code as written reduces
      modulo 0. This differs from the commented-out `tx_buffer_len >= 1`
      guard, which encloses both branches and would also hold back queued
      replies while nothing is buffered. */
  function NextTransmission(o: Outbound): (r: Transmission)
    requires OutboundValid(o)
    ensures OutboundValid(r.after)
    ensures r.after.buffer == o.buffer && r.after.len == o.len
    ensures o.queue != [] ==> r.sent == Some(o.queue[0]) && r.after == o.(queue := o.queue[1..])
    ensures o.queue == [] && o.len > 0 ==>
              r.sent == Some(o.buffer[o.rotate % o.len]) && r.after == o.(rotate := o.rotate + 1)
    ensures r.sent.None? <==> o.queue == [] && o.len == 0
  {
    if o.queue != [] then Transmission(Some(o.queue[0]), o.(queue := o.queue[1..]))
    else if o.len == 0 then Transmission(None, o)
    else Transmission(Some(o.buffer[o.rotate % o.len]), o.(rotate := o.rotate + 1))
  }

  /** The payloads of a transmission, as a sequence of zero or one message. */
  function Sent(t: Transmission): seq<Message>
  {
    if t.sent.Some? then [t.sent.value] else []
  }

  /** The state after `k` consecutive transmit opportunities. */
  function After(o: Outbound, k: nat): (r: Outbound)
    requires OutboundValid(o)
    ensures OutboundValid(r) && r.buffer == o.buffer && r.len == o.len
    decreases k
  {
    if k == 0 then o else After(NextTransmission(o).after, k - 1)
  }

  /** The payloads sent during `k` consecutive transmit opportunities. */
  function Drain(o: Outbound, k: nat): seq<Message>
    requires OutboundValid(o)
    decreases k
  {
    if k == 0 then [] else Sent(NextTransmission(o)) + Drain(NextTransmission(o).after, k - 1)
  }

  // ---------------------------------------------------------------------------

  /** The guarded writeTx differs from the code as written only where the code
      divides by zero. */
  lemma AsWrittenAgreesWhenDefined(o: Outbound)
    requires OutboundValid(o) && (o.queue != [] || o.len > 0)
    ensures NextTransmissionAsWritten(o) == Some(NextTransmission(o))
  {
  }

  /** The state a freshly constructed robot is in (tx_buffer_len{0}, nothing
      queued): if a message that queues no reply arrives before any
      writeTxBuffer, run() calls writeTx with `tx_rotate % 0`. */
  lemma FreshRobotDividesByZero(rotate: nat)
    ensures NextTransmissionAsWritten(Outbound([], [], 0, rotate)).None?
  {
  }

  /** Queued replies go out first, in the order they were pushed, and the
      rotation cursor does not move while they do. */
  lemma {:induction false} QueueDrainsInOrder(o: Outbound, k: nat)
    requires OutboundValid(o) && k <= |o.queue|
    ensures Drain(o, k) == o.queue[..k]
    ensures After(o, k) == o.(queue := o.queue[k..])
    decreases k
  {
    if k > 0 {
      var next := NextTransmission(o).after;
      QueueDrainsInOrder(next, k - 1);
      assert next.queue[..k - 1] == o.queue[1..k];
      assert next.queue[k - 1..] == o.queue[k..];
    }
  }

  /** With nothing queued, successive opportunities send successive buffer
      slots, starting at the cursor and wrapping around after `len`. */
  lemma {:induction false} BufferRoundRobin(o: Outbound, k: nat)
    requires OutboundValid(o) && o.queue == [] && o.len > 0
    ensures |Drain(o, k)| == k
    ensures forall j :: 0 <= j < k ==> Drain(o, k)[j] == o.buffer[(o.rotate + j) % o.len]
    ensures After(o, k) == o.(rotate := o.rotate + k)
    decreases k
  {
    if k > 0 {
      var next := NextTransmission(o).after;
      assert next == o.(rotate := o.rotate + 1);
      BufferRoundRobin(next, k - 1);
      var rest := Drain(next, k - 1);
      assert Drain(o, k) == [o.buffer[o.rotate % o.len]] + rest;
      forall j | 0 <= j < k
        ensures Drain(o, k)[j] == o.buffer[(o.rotate + j) % o.len]
      {
        if j > 0 {
          assert Drain(o, k)[j] == rest[j - 1];
          assert rest[j - 1] == o.buffer[(next.rotate + (j - 1)) % o.len];
        }
      }
    }
  }

  /** With nothing queued, `len` consecutive opportunities send every used
      buffer slot and bring the cursor back to the same slot. */
  lemma EveryBufferSlotSent(o: Outbound)
    requires OutboundValid(o) && o.queue == [] && o.len > 0
    ensures forall s :: 0 <= s < o.len ==> o.buffer[s] in Drain(o, o.len)
    ensures After(o, o.len).rotate % o.len == o.rotate % o.len
  {
    forall s | 0 <= s < o.len
      ensures o.buffer[s] in Drain(o, o.len)
    {
      SlotSentWithinCycle(o, s);
    }
    CursorAdvances(o, o.len);
    FullCycle(o.rotate, o.len);
  }

  /** With nothing queued, `k` opportunities advance the cursor by `k`. */
  lemma CursorAdvances(o: Outbound, k: nat)
    requires OutboundValid(o) && o.queue == [] && o.len > 0
    ensures After(o, k).rotate == o.rotate + k
  {
    BufferRoundRobin(o, k);
  }

  /** With nothing queued, slot `s` goes out within `len` opportunities. */
  lemma SlotSentWithinCycle(o: Outbound, s: nat)
    requires OutboundValid(o) && o.queue == [] && s < o.len
    ensures o.buffer[s] in Drain(o, o.len)
  {
    var j := StepsToSlot(o.rotate, o.len, s);
    RoundRobinAt(o, o.len, j);
    var d := Drain(o, o.len);
    assert j < |d| && d[j] == o.buffer[s];
  }

  /** Opportunity `j` of `k` sends slot (rotate + j) % len. */
  lemma RoundRobinAt(o: Outbound, k: nat, j: nat)
    requires OutboundValid(o) && o.queue == [] && o.len > 0 && j < k
    ensures |Drain(o, k)| == k && Drain(o, k)[j] == o.buffer[(o.rotate + j) % o.len]
  {
    BufferRoundRobin(o, k);
  }

  /** Going once around a cycle of length `n` returns to the same slot. */
  lemma FullCycle(r: nat, n: nat)
    requires n > 0
    ensures (r + n) % n == r % n
  {
    var q := r / n;
    assert (q + 1) * n == q * n + n;
    DivModUnique(r + n, n, q + 1, r % n);
  }

  /** The number of steps from cursor `r` to slot `s` of a cycle of length `n`. */
  lemma StepsToSlot(r: nat, n: nat, s: nat) returns (j: nat)
    requires 0 <= s < n
    ensures j < n && (r + j) % n == s
  {
    var q, t := r / n, r % n;
    assert r == q * n + t;
    if t <= s {
      j := s - t;
      DivModUnique(r + j, n, q, s);
    } else {
      j := s - t + n;
      assert (q + 1) * n == q * n + n;
      DivModUnique(r + j, n, q + 1, s);
    }
  }

}
