/**
  The robot-side handling of a multi-config request, as a specification on
  values: which slots are answered, what is copied between the message and
  the registry of configuration variables, and which reply is produced.
  RadioRobot.Robot.HandleMultiConfigMessage performs the same steps in place
  and is proved equal to `Handle`.

  Width copies write the low bytes of a uint32_t through a narrower pointer;
  on the little-endian targets of the firmware that is `x % 2^width`, and the
  bytes above the width are the zeroes written just before.
*/
module ConfigSync {
  import opened Wrappers
  import opened RadioProtocol

  /** Radio::Access of a configuration variable. */
  datatype Access = NoAccess | ReadOnly | WriteOnly | ReadWrite

  /** WIDTH: the native size of a configuration variable. */
  datatype Width = B8 | B16 | B32

  /** Number of distinct values of a cell of width `w`. */
  function Modulus(w: Width): (m: nat)
    ensures 0 < m <= U32
  {
    match w
    case B8 => 0x100
    case B16 => 0x1_0000
    case B32 => 0x1_0000_0000
  }

  /** The low `w` bits of `x`, zero-extended. */
  function Truncate(x: nat, w: Width): (r: nat)
    ensures r < Modulus(w)
    ensures x < Modulus(w) ==> r == x
  {
    x % Modulus(w)
  }

  predicate Readable(a: Access) { a == ReadOnly || a == ReadWrite }

  predicate Writable(a: Access) { a == WriteOnly || a == ReadWrite }

  /** One registered variable: its access mode and width (config_access_width),
      its default (config_variables_defaults, a uint32_t) and the current
      contents of its storage cell (*config_variables[id]). */
  datatype ConfigVariable = ConfigVariable(access: Access, width: Width, default: nat, value: nat)

  /** The registry, by variable index. An index without an entry is a null
      storage pointer: the variable is not available on this robot. */
  type Registry = map<nat, ConfigVariable>

  /** A storage cell holds a value of its width, and a default is a uint32_t. */
  predicate RegistryValid(reg: Registry)
  {
    forall id :: id in reg ==> reg[id].value < Modulus(reg[id].width) && reg[id].default < U32
  }

  /** The registry entry of `id` with everything but the cell's contents. */
  predicate SameDescriptor(a: ConfigVariable, b: ConfigVariable)
  {
    a.access == b.access && a.width == b.width && a.default == b.default
  }

  /** The operations the robot answers; every other one is dropped. */
  predicate IsRequest(op: ConfigOperation)
  {
    op == Read || op == Write || op == SetDefault
  }

  /** The operation a request is answered with. */
  function ReturnOf(op: ConfigOperation): (r: ConfigOperation)
    requires IsRequest(op)
    ensures !IsRequest(r) && r != OpNone
  {
    match op
    case Read => ReadReturn
    case Write => WriteReturn
    case SetDefault => SetDefaultReturn
  }

  /** What one slot becomes: its variable, its value and the registry after it. */
  datatype SlotOutcome = SlotOutcome(variable: Variable, value: nat, registry: Registry)

  /** One iteration of the per-slot loop for request `op`. */
  function HandleSlot(op: ConfigOperation, reg: Registry, v: Variable, x: nat): (o: SlotOutcome)
    requires IsRequest(op)
    ensures o.variable == NONE || o.variable == v
    ensures o.registry.Keys == reg.Keys
    ensures forall id :: id in reg ==> SameDescriptor(o.registry[id], reg[id])
    ensures forall id :: id in reg && v != Var(id) ==> o.registry[id] == reg[id]
    ensures op == Read ==> o.registry == reg
    ensures x < U32 ==> o.value < U32
    ensures RegistryValid(reg) ==> RegistryValid(o.registry)
  {
    match v
    case NONE => SlotOutcome(NONE, x, reg)
    case Var(id) =>
      if id !in reg then SlotOutcome(NONE, x, reg)
      else
        var cv := reg[id];
        if op == Read then
          if !Readable(cv.access) then SlotOutcome(NONE, x, reg)
          else SlotOutcome(v, Truncate(cv.value, cv.width), reg)
        else if !Writable(cv.access) then SlotOutcome(NONE, x, reg)
        else
          var stored := if op == Write then Truncate(x, cv.width) else Truncate(cv.default, cv.width);
          SlotOutcome(v, stored, reg[id := cv.(value := stored)])
  }

  /** The message slots and the registry part-way through the loop. */
  datatype SweepState = SweepState(vars: seq<Variable>, values: seq<nat>, registry: Registry)

  /** The state after the first `k` slots have been handled, in slot order. */
  function Sweep(op: ConfigOperation, reg: Registry, vars: seq<Variable>, values: seq<nat>, k: nat): (s: SweepState)
    requires IsRequest(op) && |vars| == |values| && k <= |vars|
    ensures |s.vars| == |vars| && |s.values| == |values|
    ensures s.vars[k..] == vars[k..] && s.values[k..] == values[k..]
    ensures s.registry.Keys == reg.Keys
    ensures forall id :: id in reg ==> SameDescriptor(s.registry[id], reg[id])
    ensures RegistryValid(reg) ==> RegistryValid(s.registry)
    decreases k
  {
    if k == 0 then SweepState(vars, values, reg)
    else
      var s := Sweep(op, reg, vars, values, k - 1);
      var o := HandleSlot(op, s.registry, vars[k - 1], values[k - 1]);
      SweepState(s.vars[k - 1 := o.variable], s.values[k - 1 := o.value], o.registry)
  }

  /** The loop's step: handling slot `k` after the first `k`. */
  lemma SweepStep(op: ConfigOperation, reg: Registry, vars: seq<Variable>, values: seq<nat>, k: nat)
    requires IsRequest(op) && |vars| == |values| && k < |vars|
    ensures var s := Sweep(op, reg, vars, values, k);
            var o := HandleSlot(op, s.registry, vars[k], values[k]);
            && vars[k] == s.vars[k] && values[k] == s.values[k]
            && Sweep(op, reg, vars, values, k + 1) == SweepState(s.vars[k := o.variable], s.values[k := o.value], o.registry)
  {
    var s := Sweep(op, reg, vars, values, k);
    assert s.vars[k..][0] == vars[k..][0] && s.values[k..][0] == values[k..][0];
  }

  /** The reply pushed on the transmit queue (if any) and the registry afterwards. */
  datatype Outcome = Outcome(reply: Option<MultiConfig>, registry: Registry)

  /** handleMultiConfigMessage on values. */
  function Handle(reg: Registry, m: MultiConfig): (r: Outcome)
    requires WellFormed(m)
    ensures r.reply.Some? <==> IsRequest(m.operation)
    ensures r.reply.Some? ==> r.reply.value.operation == ReturnOf(m.operation) && WellFormed(r.reply.value)
    ensures !IsRequest(m.operation) ==> r.registry == reg
  {
    if IsRequest(m.operation) then
      var s := Sweep(m.operation, reg, m.vars, m.values, Slots);
      Outcome(Some(MultiConfig(ReturnOf(m.operation), s.vars, s.values)), s.registry)
    else Outcome(None, reg)
  }

  // ---------------------------------------------------------------------------
  // Lemmas about the sweep

  /** Slot `j` is decided once, by the registry as it stood when the loop reached it. */
  lemma {:induction false} SweepSlotAt(op: ConfigOperation, reg: Registry, vars: seq<Variable>, values: seq<nat>, k: nat, j: nat)
    requires IsRequest(op) && |vars| == |values| && j < k <= |vars|
    ensures var o := HandleSlot(op, Sweep(op, reg, vars, values, j).registry, vars[j], values[j]);
            Sweep(op, reg, vars, values, k).vars[j] == o.variable &&
            Sweep(op, reg, vars, values, k).values[j] == o.value
  {
    var s := Sweep(op, reg, vars, values, k - 1);
    var last := HandleSlot(op, s.registry, vars[k - 1], values[k - 1]);
    var after := Sweep(op, reg, vars, values, k);
    assert after.vars == s.vars[k - 1 := last.variable] && after.values == s.values[k - 1 := last.value];
    if j < k - 1 {
      SweepSlotAt(op, reg, vars, values, k - 1, j);
      assert after.vars[j] == s.vars[j] && after.values[j] == s.values[j];
    } else {
      assert after.vars[j] == last.variable && after.values[j] == last.value;
    }
  }

  /** A read request never changes a storage cell. */
  lemma {:induction false} SweepReadIsPure(reg: Registry, vars: seq<Variable>, values: seq<nat>, k: nat)
    requires |vars| == |values| && k <= |vars|
    ensures Sweep(Read, reg, vars, values, k).registry == reg
  {
    if k > 0 {
      SweepReadIsPure(reg, vars, values, k - 1);
    }
  }

  /** Slots that do not name variable `id` leave its cell alone. */
  lemma {:induction false} SweepUntouched(op: ConfigOperation, reg: Registry, vars: seq<Variable>, values: seq<nat>, a: nat, k: nat, id: nat)
    requires IsRequest(op) && |vars| == |values| && a <= k <= |vars| && id in reg
    requires forall j :: a <= j < k ==> vars[j] != Var(id)
    ensures Sweep(op, reg, vars, values, k).registry[id] == Sweep(op, reg, vars, values, a).registry[id]
  {
    if a < k {
      SweepUntouched(op, reg, vars, values, a, k - 1, id);
    }
  }

  /** A variable that is not writable keeps its cell through a write or a reset. */
  lemma {:induction false} SweepKeepsReadOnly(op: ConfigOperation, reg: Registry, vars: seq<Variable>, values: seq<nat>, k: nat, id: nat)
    requires IsRequest(op) && |vars| == |values| && k <= |vars|
    requires id in reg && !Writable(reg[id].access)
    ensures Sweep(op, reg, vars, values, k).registry[id] == reg[id]
  {
    if k > 0 {
      SweepKeepsReadOnly(op, reg, vars, values, k - 1, id);
      var s := Sweep(op, reg, vars, values, k - 1);
      assert SameDescriptor(s.registry[id], reg[id]);
      var o := HandleSlot(op, s.registry, vars[k - 1], values[k - 1]);
      assert Sweep(op, reg, vars, values, k).registry == o.registry;
      if vars[k - 1] == Var(id) {
        assert !Writable(s.registry[id].access);
        assert o.registry == s.registry;
      }
    }
  }

  /** Once a reset has reached a writable variable, its cell holds the truncated default. */
  lemma {:induction false} SweepDefaultSticks(reg: Registry, vars: seq<Variable>, values: seq<nat>, k: nat, i: nat, id: nat)
    requires |vars| == |values| && i < k <= |vars|
    requires vars[i] == Var(id) && id in reg && Writable(reg[id].access)
    ensures Sweep(SetDefault, reg, vars, values, k).registry[id].value == Truncate(reg[id].default, reg[id].width)
  {
    var s := Sweep(SetDefault, reg, vars, values, k - 1);
    assert SameDescriptor(s.registry[id], reg[id]);
    if i < k - 1 {
      SweepDefaultSticks(reg, vars, values, k - 1, i, id);
    }
    var o := HandleSlot(SetDefault, s.registry, vars[k - 1], values[k - 1]);
    assert Sweep(SetDefault, reg, vars, values, k).registry == o.registry;
  }

  // ---------------------------------------------------------------------------
  // Properties of one request, slot by slot

  /** The reply the robot queues: present exactly for READ, WRITE and SET_DEFAULT,
      with the operation advanced to its *_RETURN form, five slots of uint32_t
      values, and every variable either kept or nulled to NONE. Any other
      operation changes nothing. */
  lemma ReplyShape(reg: Registry, m: MultiConfig)
    requires WellFormed(m)
    ensures Handle(reg, m).reply.Some? <==> IsRequest(m.operation)
    ensures !IsRequest(m.operation) ==> Handle(reg, m).registry == reg
    ensures IsRequest(m.operation) ==>
              var r := Handle(reg, m).reply.value;
              && r.operation == ReturnOf(m.operation)
              && WellFormed(r)
              && forall i :: 0 <= i < Slots ==> r.vars[i] == NONE || r.vars[i] == m.vars[i]
  {
    if IsRequest(m.operation) {
      var r := Handle(reg, m).reply.value;
      forall i | 0 <= i < Slots
        ensures r.values[i] < U32
        ensures r.vars[i] == NONE || r.vars[i] == m.vars[i]
      {
        SweepSlotAt(m.operation, reg, m.vars, m.values, Slots, i);
      }
    }
  }

  /** A NONE slot is skipped: it stays NONE and its value is untouched. */
  lemma NoneSlotSkipped(reg: Registry, m: MultiConfig, i: nat)
    requires WellFormed(m) && IsRequest(m.operation) && i < Slots
    requires m.vars[i] == NONE
    ensures Handle(reg, m).reply.Some?
    ensures Handle(reg, m).reply.value.vars[i] == NONE
    ensures Handle(reg, m).reply.value.values[i] == m.values[i]
  {
    SweepSlotAt(m.operation, reg, m.vars, m.values, Slots, i);
  }

  /** A slot naming an unregistered variable is nulled, its value untouched,
      and no storage cell is created for it. */
  lemma UnregisteredSlotNulled(reg: Registry, m: MultiConfig, i: nat, id: nat)
    requires WellFormed(m) && IsRequest(m.operation) && i < Slots
    requires m.vars[i] == Var(id) && id !in reg
    ensures Handle(reg, m).reply.Some?
    ensures Handle(reg, m).reply.value.vars[i] == NONE
    ensures Handle(reg, m).reply.value.values[i] == m.values[i]
    ensures id !in Handle(reg, m).registry
  {
    SweepSlotAt(m.operation, reg, m.vars, m.values, Slots, i);
  }

  /** READ of a variable that is not readable nulls the slot and leaks nothing:
      the value stays what the requester sent. */
  lemma ReadDeniedSlotNulled(reg: Registry, m: MultiConfig, i: nat, id: nat)
    requires WellFormed(m) && m.operation == Read && i < Slots
    requires m.vars[i] == Var(id) && id in reg && !Readable(reg[id].access)
    ensures Handle(reg, m).reply.Some?
    ensures Handle(reg, m).reply.value.vars[i] == NONE
    ensures Handle(reg, m).reply.value.values[i] == m.values[i]
  {
    SweepSlotAt(Read, reg, m.vars, m.values, Slots, i);
    SweepReadIsPure(reg, m.vars, m.values, i);
  }

  /** WRITE or SET_DEFAULT of a variable that is not writable nulls the slot,
      leaves its value as sent and leaves the variable's cell unchanged. */
  lemma WriteDeniedSlotNulled(reg: Registry, m: MultiConfig, i: nat, id: nat)
    requires WellFormed(m) && (m.operation == Write || m.operation == SetDefault) && i < Slots
    requires m.vars[i] == Var(id) && id in reg && !Writable(reg[id].access)
    ensures Handle(reg, m).reply.Some?
    ensures Handle(reg, m).reply.value.vars[i] == NONE
    ensures Handle(reg, m).reply.value.values[i] == m.values[i]
    ensures Handle(reg, m).registry[id] == reg[id]
  {
    var op := m.operation;
    SweepSlotAt(op, reg, m.vars, m.values, Slots, i);
    SweepKeepsReadOnly(op, reg, m.vars, m.values, i, id);
    var before := Sweep(op, reg, m.vars, m.values, i).registry;
    assert HandleSlot(op, before, Var(id), m.values[i]) == SlotOutcome(NONE, m.values[i], before);
    SweepKeepsReadOnly(op, reg, m.vars, m.values, Slots, id);
  }

  /** READ never changes the registry. */
  lemma ReadChangesNoStorage(reg: Registry, m: MultiConfig)
    requires WellFormed(m) && m.operation == Read
    ensures Handle(reg, m).registry == reg
  {
    SweepReadIsPure(reg, m.vars, m.values, Slots);
  }

  /** READ of a readable variable answers with the stored value. */
  lemma ReadReturnsStoredValue(reg: Registry, m: MultiConfig, i: nat, id: nat)
    requires WellFormed(m) && m.operation == Read && i < Slots && RegistryValid(reg)
    requires m.vars[i] == Var(id) && id in reg && Readable(reg[id].access)
    ensures Handle(reg, m).reply.Some?
    ensures Handle(reg, m).reply.value.vars[i] == Var(id)
    ensures Handle(reg, m).reply.value.values[i] == reg[id].value
  {
    SweepSlotAt(Read, reg, m.vars, m.values, Slots, i);
    SweepReadIsPure(reg, m.vars, m.values, i);
  }

  /** WRITE of a writable variable echoes the low `width` bits that were stored;
      the slot that names the variable last decides what its cell holds. */
  lemma WriteStoresLowBits(reg: Registry, m: MultiConfig, i: nat, id: nat)
    requires WellFormed(m) && m.operation == Write && i < Slots
    requires m.vars[i] == Var(id) && id in reg && Writable(reg[id].access)
    ensures Handle(reg, m).reply.Some?
    ensures Handle(reg, m).reply.value.vars[i] == Var(id)
    ensures Handle(reg, m).reply.value.values[i] == Truncate(m.values[i], reg[id].width)
    ensures (forall j :: i < j < Slots ==> m.vars[j] != Var(id)) ==>
              Handle(reg, m).registry[id] == reg[id].(value := Truncate(m.values[i], reg[id].width))
  {
    var before := Sweep(Write, reg, m.vars, m.values, i);
    assert id in before.registry && SameDescriptor(before.registry[id], reg[id]);
    var cv := before.registry[id];
    var stored := Truncate(m.values[i], cv.width);
    var o := HandleSlot(Write, before.registry, m.vars[i], m.values[i]);
    assert o == SlotOutcome(Var(id), stored, before.registry[id := cv.(value := stored)]);
    SweepSlotAt(Write, reg, m.vars, m.values, Slots, i);
    var final := Sweep(Write, reg, m.vars, m.values, Slots);
    assert Handle(reg, m) == Outcome(Some(MultiConfig(WriteReturn, final.vars, final.values)), final.registry);
    if forall j :: i < j < Slots ==> m.vars[j] != Var(id) {
      SweepStep(Write, reg, m.vars, m.values, i);
      SweepUntouched(Write, reg, m.vars, m.values, i + 1, Slots, id);
    }
  }

  /** SET_DEFAULT of a writable variable stores its truncated default and
      answers with exactly what was stored. */
  lemma SetDefaultStoresDefault(reg: Registry, m: MultiConfig, i: nat, id: nat)
    requires WellFormed(m) && m.operation == SetDefault && i < Slots
    requires m.vars[i] == Var(id) && id in reg && Writable(reg[id].access)
    ensures Handle(reg, m).reply.Some?
    ensures Handle(reg, m).reply.value.vars[i] == Var(id)
    ensures Handle(reg, m).reply.value.values[i] == Truncate(reg[id].default, reg[id].width)
    ensures Handle(reg, m).registry[id] == reg[id].(value := Truncate(reg[id].default, reg[id].width))
  {
    SweepSlotAt(SetDefault, reg, m.vars, m.values, Slots, i);
    SweepDefaultSticks(reg, m.vars, m.values, Slots, i, id);
  }

  /** A variable that no slot names keeps its cell. */
  lemma UnnamedVariableUntouched(reg: Registry, m: MultiConfig, id: nat)
    requires WellFormed(m) && id in reg
    requires forall j :: 0 <= j < Slots ==> m.vars[j] != Var(id)
    ensures id in Handle(reg, m).registry && Handle(reg, m).registry[id] == reg[id]
  {
    if IsRequest(m.operation) {
      SweepUntouched(m.operation, reg, m.vars, m.values, 0, Slots, id);
    }
  }

  /** Handling a request keeps every cell within its width. */
  lemma HandlePreservesValid(reg: Registry, m: MultiConfig)
    requires WellFormed(m) && RegistryValid(reg)
    ensures RegistryValid(Handle(reg, m).registry)
    ensures Handle(reg, m).registry.Keys == reg.Keys
  {
  }

  /** A READ that follows a SET_DEFAULT of a read-write variable answers
      with exactly the variable's (truncated) default. */
  lemma SetDefaultThenRead(reg: Registry, reset: MultiConfig, read: MultiConfig, i: nat, j: nat, id: nat)
    requires WellFormed(reset) && WellFormed(read)
    requires reset.operation == SetDefault && read.operation == Read
    requires i < Slots && j < Slots && reset.vars[i] == Var(id) && read.vars[j] == Var(id)
    requires id in reg && reg[id].access == ReadWrite
    ensures var after := Handle(reg, reset).registry;
            Handle(after, read).reply.Some? &&
            Handle(after, read).reply.value.values[j] == Truncate(reg[id].default, reg[id].width)
  {
    SetDefaultStoresDefault(reg, reset, i, id);
    var after := Handle(reg, reset).registry;
    SweepSlotAt(Read, after, read.vars, read.values, Slots, j);
    SweepReadIsPure(after, read.vars, read.values, j);
  }

}
