/**
  Types of the radio wire protocol shared by the robot and the base station:
  the tagged message envelope and the multi-variable configuration message.
  Only the parts the protocol logic looks at are modelled; the float payloads
  of telemetry and command messages are not.
*/
module RadioProtocol {

  /** Radio::MessageType. `NoMessage` is the tag `None` (nothing received);
      `Other` is any tag value without a handler on the robot. */
  datatype MessageType =
    | NoMessage
    | Command
    | PrimaryStatusHF
    | PrimaryStatusLF
    | ImuReadings
    | OdometryReading
    | OverrideOdometry
    | MultiConfigMessage
    | Other(tag: nat)

  /** HG::ConfigOperation: a request and the reply it is answered with. */
  datatype ConfigOperation =
    | OpNone
    | Read
    | ReadReturn
    | Write
    | WriteReturn
    | SetDefault
    | SetDefaultReturn

  /** HG::Variable: `NONE` or the index of a configuration variable. */
  datatype Variable = NONE | Var(index: nat)

  /** Number of (variable, value) slots in one multi-config message. */
  const Slots: nat := 5

  /** Every value slot is a uint32_t. */
  const U32: nat := 0x1_0000_0000

  /** Radio::MultiConfigMessage. */
  datatype MultiConfig = MultiConfig(operation: ConfigOperation, vars: seq<Variable>, values: seq<nat>)

  /** The shape the C struct guarantees: five slots, each value a uint32_t. */
  predicate WellFormed(m: MultiConfig)
  {
    && |m.vars| == Slots
    && |m.values| == Slots
    && forall i :: 0 <= i < |m.values| ==> m.values[i] < U32
  }

  /** Radio::Message: the tag and, for the MultiConfigMessage tag, the
      configuration payload read from the union. */
  datatype Message = Message(mt: MessageType, mcm: MultiConfig)

  /** A message that carries nothing (used to fill fresh buffers). */
  const EmptyMessage: Message := Message(NoMessage, MultiConfig(OpNone, [], []))

}
