/**
  The CAN identifiers of the robot's internal bus: the device and message
  enumerations and the macros that pack a (device, message) pair into one
  identifier and split it again. Enumeration values and macro results are
  C integers; they are modelled as 32-bit bit-vectors, and every cast the
  macros make is written out.
*/
module CanProtocol {
  import opened Wrappers

  /** CAN_DEVICE_ID. */
  datatype DeviceId =
    | PRIMARY | ALL | ANY
    | DRIVER_A1 | DRIVER_A2 | DRIVER_A3 | DRIVER_A4 | DRIVER_A5
    | DRIVER_B1 | DRIVER_B2 | DRIVER_B3 | DRIVER_B4 | DRIVER_B5
    | DRIVER_C1 | DRIVER_C2 | DRIVER_C3 | DRIVER_C4 | DRIVER_C5

  function DeviceCode(d: DeviceId): (c: bv32)
    ensures c < 0x100
  {
    match d
    case PRIMARY => 0xF0
    case ALL => 0xFF
    case ANY => 0x00
    case DRIVER_A1 => 0x01
    case DRIVER_A2 => 0x02
    case DRIVER_A3 => 0x03
    case DRIVER_A4 => 0x04
    case DRIVER_A5 => 0x05
    case DRIVER_B1 => 0x06
    case DRIVER_B2 => 0x07
    case DRIVER_B3 => 0x08
    case DRIVER_B4 => 0x09
    case DRIVER_B5 => 0x0A
    case DRIVER_C1 => 0x0B
    case DRIVER_C2 => 0x0C
    case DRIVER_C3 => 0x0D
    case DRIVER_C4 => 0x0E
    case DRIVER_C5 => 0x0F
  }

  /** The named device with code `c`, if there is one. */
  function DeviceOfCode(c: bv32): Option<DeviceId>
  {
    if c == 0xF0 then Some(PRIMARY)
    else if c == 0xFF then Some(ALL)
    else if c == 0x00 then Some(ANY)
    else if c == 0x01 then Some(DRIVER_A1)
    else if c == 0x02 then Some(DRIVER_A2)
    else if c == 0x03 then Some(DRIVER_A3)
    else if c == 0x04 then Some(DRIVER_A4)
    else if c == 0x05 then Some(DRIVER_A5)
    else if c == 0x06 then Some(DRIVER_B1)
    else if c == 0x07 then Some(DRIVER_B2)
    else if c == 0x08 then Some(DRIVER_B3)
    else if c == 0x09 then Some(DRIVER_B4)
    else if c == 0x0A then Some(DRIVER_B5)
    else if c == 0x0B then Some(DRIVER_C1)
    else if c == 0x0C then Some(DRIVER_C2)
    else if c == 0x0D then Some(DRIVER_C3)
    else if c == 0x0E then Some(DRIVER_C4)
    else if c == 0x0F then Some(DRIVER_C5)
    else None
  }

  /** CAN_VARIABLE (without its MASK member). */
  datatype CanVariable = POSITION | SPEED | TORQUE

  function VariableCode(v: CanVariable): (c: bv32)
    ensures c & VariableMask == c
  {
    match v
    case POSITION => 0x00
    case SPEED => 0x01
    case TORQUE => 0x02
  }

  /** CAN_VARIABLE::MASK. */
  const VariableMask: bv32 := 0x0F

  /** CAN_ACCESS (without its MASK member). */
  datatype CanAccess = READ | WRITE

  function AccessCode(a: CanAccess): (c: bv32)
    ensures c & AccessMask == c
  {
    match a
    case READ => 0xB0
    case WRITE => 0xA0
  }

  /** CAN_ACCESS::MASK. */
  const AccessMask: bv32 := 0xF0

  /** GENERATE_MESSAGE_ID_: a variable code ORed with an access code. */
  function GenerateMessageId(variable: bv32, access: bv32): (id: bv32)
    ensures variable & AccessMask == 0 && access & VariableMask == 0 ==>
              id & VariableMask == variable & VariableMask && id & AccessMask == access & AccessMask
  {
    variable | access
  }

  /** CAN_MESSAGE_ID. */
  datatype MessageId =
    | ANNOUNCE | REQ_ANNOUNCE | ACK | LED_SET_DUTY
    | SET_POSITION | SET_SPEED | SET_TORQUE
    | SYNC | ESTOP | STOP

  function MessageCode(m: MessageId): (c: bv32)
    ensures c < 0x100
  {
    match m
    case ANNOUNCE => 0x00
    case REQ_ANNOUNCE => 0x01
    case ACK => 0x05
    case LED_SET_DUTY => 0x11
    case SET_POSITION => GenerateMessageId(VariableCode(POSITION), AccessCode(WRITE))
    case SET_SPEED => GenerateMessageId(VariableCode(SPEED), AccessCode(WRITE))
    case SET_TORQUE => GenerateMessageId(VariableCode(TORQUE), AccessCode(WRITE))
    case SYNC => 0xF6
    case ESTOP => 0xFF
    case STOP => 0xF0
  }

  /** The named message with code `c`, if there is one. */
  function MessageOfCode(c: bv32): Option<MessageId>
  {
    if c == 0x00 then Some(ANNOUNCE)
    else if c == 0x01 then Some(REQ_ANNOUNCE)
    else if c == 0x05 then Some(ACK)
    else if c == 0x11 then Some(LED_SET_DUTY)
    else if c == 0xA0 then Some(SET_POSITION)
    else if c == 0xA1 then Some(SET_SPEED)
    else if c == 0xA2 then Some(SET_TORQUE)
    else if c == 0xF6 then Some(SYNC)
    else if c == 0xFF then Some(ESTOP)
    else if c == 0xF0 then Some(STOP)
    else None
  }

  /** The `(uint16_t)` cast: keep the low 16 bits. */
  function U16(x: bv32): bv16
  {
    (x & 0xFFFF) as bv16
  }

  /** PP_MAKE_CAN_ID: the device in the high byte, the message in the low byte. */
  function MakeCanId(device: bv32, message: bv32): (canId: bv32)
    ensures canId < 0x100_0000
    ensures device < 0x100 && message < 0x100 ==> canId < 0x1_0000
  {
    ((U16(device) as bv32) << 8) | (U16(message) as bv32)
  }

  /** PP_GET_MESSAGE_ID. */
  function GetMessageId(canId: bv32): (message: bv32)
    ensures message < 0x100
  {
    canId & 0xFF
  }

  /** PP_GET_DEVICE_ID. */
  function GetDeviceId(canId: bv32): (device: bv32)
    ensures device < 0x100_0000
    ensures canId < 0x1_0000 ==> device < 0x100
  {
    canId >> 8
  }

  // ---------------------------------------------------------------------------

  /** The message byte comes back out of an identifier, whatever the device. */
  lemma MessageRoundTrip(device: bv32, message: bv32)
    requires message < 0x100
    ensures GetMessageId(MakeCanId(device, message)) == message
  {
  }

  /** The device byte comes back out of an identifier. */
  lemma DeviceRoundTrip(device: bv32, message: bv32)
    requires device < 0x100 && message < 0x100
    ensures GetDeviceId(MakeCanId(device, message)) == device
  {
  }

  /** A 16-bit identifier is the packing of its own device and message bytes. */
  lemma CanIdRoundTrip(canId: bv32)
    requires canId < 0x1_0000
    ensures MakeCanId(GetDeviceId(canId), GetMessageId(canId)) == canId
  {
  }

  /** On byte-sized pairs the identifier fits in 16 bits and determines the pair. */
  lemma MakeCanIdInjective(d: bv32, m: bv32, d': bv32, m': bv32)
    requires d < 0x100 && m < 0x100 && d' < 0x100 && m' < 0x100
    ensures MakeCanId(d, m) < 0x1_0000
    ensures MakeCanId(d, m) == MakeCanId(d', m') ==> d == d' && m == m'
  {
    MessageRoundTrip(d, m);
    MessageRoundTrip(d', m');
    DeviceRoundTrip(d, m);
    DeviceRoundTrip(d', m');
  }

  /** A message code wider than a byte spills into the device field. */
  lemma WideMessageSpills()
    ensures GetDeviceId(MakeCanId(0, 0x100)) == 1
    ensures GetMessageId(MakeCanId(0, 0x100)) == 0
  {
  }

  /** A variable below 0x10 and an access code split back exactly under the masks. */
  lemma GenerateMessageIdSplits(variable: bv32, access: CanAccess)
    requires variable < 0x10
    ensures GenerateMessageId(variable, AccessCode(access)) & VariableMask == variable
    ensures GenerateMessageId(variable, AccessCode(access)) & AccessMask == AccessCode(access)
  {
  }

  /** The setpoint messages are the write accesses of the three variables. */
  lemma SetpointCodes()
    ensures MessageCode(SET_POSITION) == 0xA0
    ensures MessageCode(SET_SPEED) == 0xA1
    ensures MessageCode(SET_TORQUE) == 0xA2
  {
  }

  /** Every message code is one byte and names exactly one message. */
  lemma MessageCodesDecode(m: MessageId, c: bv32)
    ensures MessageCode(m) < 0x100
    ensures MessageOfCode(MessageCode(m)) == Some(m)
    ensures MessageOfCode(c) == Some(m) ==> MessageCode(m) == c
  {
  }

  /** Every device code is one byte and names exactly one device. */
  lemma DeviceCodesDecode(d: DeviceId, c: bv32)
    ensures DeviceOfCode(DeviceCode(d)) == Some(d)
    ensures DeviceOfCode(c) == Some(d) ==> DeviceCode(d) == c
  {
  }

  /** No two messages share a code, and no two devices share a code. */
  lemma CodesDistinct(m: MessageId, m': MessageId, d: DeviceId, d': DeviceId)
    ensures MessageCode(m) == MessageCode(m') ==> m == m'
    ensures DeviceCode(d) == DeviceCode(d') ==> d == d'
  {
    MessageCodesDecode(m, 0);
    MessageCodesDecode(m', 0);
    DeviceCodesDecode(d, 0);
    DeviceCodesDecode(d', 0);
  }

}
