# Firmware protocols of a multi-robot control link, in Dafny

This project models the protocol layer of the DelftMercurians robot firmware. It covers four pieces:

- **The robot end of the radio link** (`CustomRF24_Robot`). This has three parts.
  - The configuration-variable responder answers READ, WRITE and SET_DEFAULT requests of five slots each. It works against a registry of variables, each with an access mode, a width and a default.
  - The outbound path hands out the next acknowledgement payload. That is the front of a priority queue of replies, or else the next slot of a cyclic "last known" buffer.
  - The dispatcher routes a received message to its callbacks by tag.
  - Modules `ConfigSync` and `OutboundQueue` hold the specifications on values. `RadioRobot.Robot` is the stateful class, with its transmit buffer as an `array`. Its methods are proved equal to those specifications.
- **The base-station end** (`CustomRF24_Base`). This covers the range-checked conversions between a pipe of one radio and a robot identity, the writing-pipe switches, the opening of reading pipes and the receive path. It is modelled in `RadioBase`, with the identity arithmetic in `AddressSpace`.
- **CAN identifiers** (`can/protocols_can.h`). These are the device and message enumerations and the macros that pack and split a (device, message) identifier, modelled on 32-bit bit-vectors in `CanProtocol`.
- **The serial command line** (`SerialInterface`). A 50-character line buffer is filled from a stream. It is dispatched on a terminator and discarded when it overflows. A line is routed on its first character through a map of registered handlers. This is modelled in `SerialCommands`.

Radio and serial driver calls become parameters or logs:
- "a message is available" and the message received are method parameters;
- payloads handed to `writeAckPayload`, addresses passed to `openWritingPipe`, callback invocations and serial dispatch decisions are appended to sequence fields.

Callbacks and serial handlers are recorded as *which* handler was selected, not as what it does.

Two points where the model follows the code:
- `txQueue` is an unbounded `std::queue`: nothing drops replies on overflow, and the model's queue is an unbounded sequence.
- `serial/serial_interface.h:41-45` declares four `FunctionType` kinds. `serial/serial_interface.cpp` also uses `SetFloat` and `SetInt`, and the model has all six.

## Model

| member | source | states |
|---|---|---|
| `ConfigSync.Truncate` | radio/radio_robot.cpp:51-60 | A width copy yields a value below 2^width, and a value that already fits is unchanged. |
| `ConfigSync.ReturnOf` | radio/radio_robot.cpp:63-64 | Each request is answered with a *_RETURN operation, which is itself no request and never NONE. |
| `ConfigSync.HandleSlot` | radio/radio_robot.cpp:35-62 | One slot can only keep its variable or become NONE. It touches no other variable's cell and no descriptor. READ changes nothing. Cells stay within their widths. |
| `ConfigSync.Sweep` | radio/radio_robot.cpp:70-101 | After k slots, slots k.. are untouched, the registry keeps its keys and descriptors, and cells stay within their widths. |
| `ConfigSync.SweepSlotAt` | radio/radio_robot.cpp:35-62 | Slot j of the reply is decided once, by the registry as it stood when the loop reached slot j. |
| `ConfigSync.SweepReadIsPure` | radio/radio_robot.cpp:32-66 | A READ sweep never changes a storage cell. |
| `ConfigSync.SweepUntouched` | radio/radio_robot.cpp:70-101 | Slots that do not name a variable leave its cell alone. |
| `ConfigSync.SweepKeepsReadOnly` | radio/radio_robot.cpp:76-80 | A variable that is not writable keeps its cell through WRITE and SET_DEFAULT. |
| `ConfigSync.SweepDefaultSticks` | radio/radio_robot.cpp:125-138 | Once SET_DEFAULT reaches a writable variable, its cell holds the truncated default from then on. |
| `ConfigSync.Handle` | radio/radio_robot.cpp:30-147 | handleMultiConfigMessage on values. A reply exists exactly for a request and carries its *_RETURN operation and five slots of 32-bit values. Any other operation leaves the registry as it was. The lemmas below give each slot's answer and each cell's new value. |
| `ConfigSync.ReplyShape` | radio/radio_robot.cpp:30-147 | A reply exists exactly for READ, WRITE and SET_DEFAULT, with the matching *_RETURN operation and five slots. Any other operation changes nothing. Every reply slot keeps its variable or is NONE, and its value fits 32 bits. |
| `ConfigSync.NoneSlotSkipped` | radio/radio_robot.cpp:36 | A NONE slot stays NONE and keeps its value, for every request. |
| `ConfigSync.UnregisteredSlotNulled` | radio/radio_robot.cpp:37-40 | A slot naming a variable with no storage is nulled and keeps its value. No storage appears for it. |
| `ConfigSync.ReadDeniedSlotNulled` | radio/radio_robot.cpp:41-45 | READ of a variable with access NONE or WRITE nulls the slot and returns the value as sent, not the storage. |
| `ConfigSync.WriteDeniedSlotNulled` | radio/radio_robot.cpp:76-80 | WRITE or SET_DEFAULT of a variable with access NONE or READ nulls the slot, keeps its value and leaves the cell unchanged. |
| `ConfigSync.ReadChangesNoStorage` | radio/radio_robot.cpp:32-66 | A READ request leaves the whole registry unchanged. |
| `ConfigSync.ReadReturnsStoredValue` | radio/radio_robot.cpp:50-61 | READ of a readable variable answers with its stored value, zero-extended. |
| `ConfigSync.WriteStoresLowBits` | radio/radio_robot.cpp:85-100 | WRITE of a writable variable stores the low width bits of the value sent and echoes them. The last slot naming the variable decides its cell. |
| `ConfigSync.SetDefaultStoresDefault` | radio/radio_robot.cpp:125-138 | SET_DEFAULT stores the truncated default and answers with exactly what was stored. |
| `ConfigSync.UnnamedVariableUntouched` | radio/radio_robot.cpp:70-101 | A variable that no slot names keeps its cell. |
| `ConfigSync.HandlePreservesValid` | radio/radio_robot.cpp:84-100 | Handling a message keeps every cell within its width and keeps the set of variables. |
| `ConfigSync.SetDefaultThenRead` | radio/radio_robot.cpp:107-144 | A READ after a SET_DEFAULT of a read-write variable answers with the variable's truncated default. |
| `OutboundQueue.NextTransmissionAsWritten` | radio/radio_robot.cpp:173-187 | writeTx as written is undefined exactly when the queue is empty and tx_buffer_len is 0. |
| `OutboundQueue.NextTransmission` | radio/radio_robot.cpp:177-183 | The front of a non-empty queue is sent and popped, with the cursor unchanged. Otherwise buffer slot tx_rotate % tx_buffer_len is sent and the cursor advances. Nothing is sent only when both are empty. The buffer and its length never change. |
| `OutboundQueue.After` | radio/radio_robot.cpp:173-187 | Any number of transmit opportunities keeps the buffer and its used length. |
| `OutboundQueue.AsWrittenAgreesWhenDefined` | radio/radio_robot.cpp:176-183 | The guarded writeTx agrees with the code as written wherever the latter is defined. |
| `OutboundQueue.FreshRobotDividesByZero` | radio/radio_robot.cpp:176-179 | On a freshly constructed robot, writeTx as written reaches tx_rotate % 0. |
| `OutboundQueue.QueueDrainsInOrder` | radio/radio_robot.cpp:181-183 | k opportunities send the first k queued replies in push order and leave the cursor alone. |
| `OutboundQueue.BufferRoundRobin` | radio/radio_robot.cpp:177-179 | With nothing queued, opportunity j sends buffer slot (tx_rotate + j) % tx_buffer_len, and the cursor advances by one each time. |
| `OutboundQueue.EveryBufferSlotSent` | radio/radio_robot.cpp:177-179 | With nothing queued, tx_buffer_len opportunities send every used slot and bring the cursor back to the same slot. |
| `RadioRobot.CallbackFor` | radio/radio_robot.cpp:198-232 | A message tag is routed to at most one typed callback, never the generic one. |
| `RadioRobot.RoutingIsExact` | radio/radio_robot.cpp:198-247 | No two tags share a typed callback. |
| `RadioRobot.InvocationsExact` | radio/radio_robot.cpp:194-232 | The generic callback is invoked exactly when registered, and always first. The tag's typed callback is invoked exactly when it is registered. No other callback is invoked, and each is invoked at most once. |
| `RadioRobot.Known` | radio/radio_robot.cpp:198-247 | receiveAndCallback returns true exactly for a config message or a tag with a typed callback, which are exactly the tags other than None and the unknown ones. |
| `RadioRobot.Robot.constructor` | radio/radio_robot.cpp:6-8 | A new robot has an empty queue, tx_buffer_len 0, no callbacks and a buffer of MAX_TX_BUFFER slots. tx_rotate, which the constructor leaves uninitialised, keeps the value given. |
| `RadioRobot.Robot.RegisterCallback` | radio/radio_robot.cpp:252-285 | Registering a function sets exactly that kind of callback. Registering nullptr clears it. |
| `RadioRobot.Robot.HandleMultiConfigMessage` | radio/radio_robot.cpp:30-148 | The in-place slot loop leaves the registry that `ConfigSync.Handle` computes and pushes exactly its reply, if any. |
| `RadioRobot.Robot.AnswerSlot` | radio/radio_robot.cpp:35-62 | One iteration of the slot loop rewrites slot i and the registry exactly as `ConfigSync.HandleSlot` says. The WRITE and SET_DEFAULT loops (lines 70-101 and 110-139) follow the same steps. |
| `RadioRobot.Robot.WriteTx` | radio/radio_robot.cpp:173-187 | One step of `OutboundQueue.NextTransmission` on the fields, with the payload sent appended to the acknowledgement log. |
| `RadioRobot.Robot.WriteTxBuffer` | radio/radio_robot.cpp:150-155 | An index of MAX_TX_BUFFER or more changes nothing. Otherwise the message is stored, tx_buffer_len is raised to cover the slot and never lowered, and one transmit step follows. |
| `RadioRobot.Robot.ReceiveAndCallback` | radio/radio_robot.cpp:189-248 | Returns true exactly for known tags, whether or not a callback is registered. The generic callback is invoked first. A config message runs the responder, and no other tag touches the registry or the queue. |
| `RadioRobot.Robot.Run` | radio/radio_robot.cpp:157-170 | With nothing available it returns false and changes nothing. Otherwise it returns whether the tag is known and invokes the callbacks. The registry becomes `Handle`'s for a config message and is unchanged otherwise. Then one `NextTransmission` step runs on the queue with any reply appended, and its payload is logged. |
| `AddressSpace.RobotId` | radio/radio_base.cpp:84 | The identity built from pipe p and radio r < n lies in the p-th block of n identities. |
| `AddressSpace.RadioOf` | radio/radio_base.cpp:88 | The radio serving an identity is below the number of radios online. |
| `AddressSpace.PipeOf` | radio/radio_base.cpp:89 | The pipe of an identity is at least 1 and names the block of n identities that holds it. |
| `AddressSpace.SplitRobotId` | radio/radio_base.cpp:84 | The radio and the pipe of the identity built from them are those two. |
| `AddressSpace.JoinRobotId` | radio/radio_base.cpp:88-89 | Every identity is rebuilt from its own radio and pipe, with the pipe at least 1. |
| `AddressSpace.ExampleRobot12` | radio/radio_base.cpp:87-89 | With four radios online, robot 12 is on radio 0, pipe 4, and back. |
| `RadioBase.BaseRadio.constructor` | radio/radio_base.cpp:5-8 | The radio takes its group as its identity. No pipes are open and no callback is set. |
| `RadioBase.BaseRadio.SetRadioID` | radio/radio_base.cpp:17-19 | Sets the identity. |
| `RadioBase.BaseRadio.RegisterCallback` | radio/radio_base.cpp:41-43 | Sets the message callback, or clears it when given nullptr. |
| `RadioBase.BaseRadio.GetID` | radio/radio_base.cpp:81-85 | Returns 255 for a pipe outside 1..5 or an identity not below num_radios_online. Otherwise it returns the robot whose radio is this one and whose pipe is the one given. |
| `RadioBase.BaseRadio.GetPipe` | radio/radio_base.cpp:87-90 | Returns a byte: 0 for a robot served by another radio. Otherwise the robot's pipe modulo 256, which for a pipe below 256 is at least 1 and rebuilds the robot's identity. |
| `RadioBase.GetPipeOfInvalidIdWraps` | radio/radio_base.cpp:81-90 | With one radio online, the invalid identity 255 lies on pipe 256, which the byte result wraps to 0. |
| `RadioBase.BaseRadio.SetRxRobot` | radio/radio_base.cpp:66-71 | rx_robot becomes the id. The writing pipe is reopened, on BaseAddress_BtR + id, only when the id changes, so a repeated call is a no-op. |
| `RadioBase.BaseRadio.SetRxBroadcast` | radio/radio_base.cpp:73-78 | rx_robot becomes 0xEE. The writing pipe is reopened on the broadcast address only when rx_robot was not 0xEE already. |
| `RadioBase.BaseRadio.OpenPipes` | radio/radio_base.cpp:45-52 | Records num_radios_online and opens reading pipes 0..5, pipe p on BaseAddress_BtR + p + 1. |
| `RadioBase.PipeAddresses` | radio/radio_base.cpp:49-51 | The first k pipes are opened, each p on base + p + 1, and no other pipe. |
| `RadioBase.BaseRadio.ReceiveAndCallback` | radio/radio_base.cpp:54-63 | Always reports true, and passes the message and id to the callback exactly when one is set. |
| `RadioBase.BaseRadio.Run` | radio/radio_base.cpp:28-39 | Returns false with nothing available. Otherwise it returns true and delivers the message with id pipe + 1. |
| `RadioBase.GetPipeOfGetID` | radio/radio_base.cpp:81-90 | For pipes 1..5 of an online radio, getPipe(getID(pipe)) == pipe. |
| `RadioBase.GetIDOfGetPipe` | radio/radio_base.cpp:81-90 | For a robot this radio serves on pipes 1..5, getID(getPipe(id)) == id. |
| `CanProtocol.GenerateMessageId` | can/protocols_can.h:9 | A variable code and an access code in disjoint masks come back out under their masks. |
| `CanProtocol.MessageCode` | can/protocols_can.h:55-71 | Every message code fits in one byte. |
| `CanProtocol.MakeCanId` | can/protocols_can.h:82 | An identifier fits in 24 bits, and in 16 bits when the device and the message are bytes. |
| `CanProtocol.GetMessageId` | can/protocols_can.h:83 | The message part is one byte. |
| `CanProtocol.GetDeviceId` | can/protocols_can.h:84 | The device part of a 16-bit identifier is one byte. |
| `CanProtocol.CanIdRoundTrip` | can/protocols_can.h:82-84 | Packing the device and message parts of a 16-bit identifier gives the identifier back. |
| `CanProtocol.DeviceCode` | can/protocols_can.h:15-38 | Every device code fits in one byte. |
| `CanProtocol.VariableCode` | can/protocols_can.h:40-45 | Every variable code lies inside CAN_VARIABLE::MASK. |
| `CanProtocol.AccessCode` | can/protocols_can.h:49-53 | Every access code lies inside CAN_ACCESS::MASK. |
| `CanProtocol.MessageRoundTrip` | can/protocols_can.h:82-83 | For a message below 256, PP_GET_MESSAGE_ID(PP_MAKE_CAN_ID(d, m)) == m, for any device. |
| `CanProtocol.DeviceRoundTrip` | can/protocols_can.h:82-84 | For a device and a message below 256, PP_GET_DEVICE_ID(PP_MAKE_CAN_ID(d, m)) == d. |
| `CanProtocol.MakeCanIdInjective` | can/protocols_can.h:82-84 | On byte-sized pairs the identifier fits in 16 bits and determines the pair. |
| `CanProtocol.WideMessageSpills` | can/protocols_can.h:82-84 | A message code of 0x100 lands in the device field, so the byte bound on messages is needed. |
| `CanProtocol.GenerateMessageIdSplits` | can/protocols_can.h:9-10 | For a variable below 0x10 and an access of READ or WRITE, masking with 0x0F and 0xF0 returns the two parts. |
| `CanProtocol.SetpointCodes` | can/protocols_can.h:63-65 | SET_POSITION, SET_SPEED and SET_TORQUE are 0xA0, 0xA1 and 0xA2. |
| `CanProtocol.MessageCodesDecode` | can/protocols_can.h:55-71 | Every message code fits in one byte and names exactly one message. |
| `CanProtocol.DeviceCodesDecode` | can/protocols_can.h:15-38 | Every device code names exactly one device. |
| `CanProtocol.CodesDistinct` | can/protocols_can.h:15-71 | No two messages share a code, and no two devices share a code. |
| `SerialCommands.IsTerminator` | serial/serial_interface.cpp:211-213 | A terminator is ';' or a control character, so no printable command key ends a line. |
| `SerialCommands.Dispatch` | serial/serial_interface.cpp:154-193 | A line starting with a terminator is ignored; so is an empty line, which starts with NUL. A first character with no entry is reported unknown. Otherwise that character's entry runs on the rest of the line. |
| `SerialCommands.DispatchAfterAdd` | serial/serial_interface.cpp:19-27 | After an add, a line starting with that key selects the new entry, and lines starting with other keys are dispatched as before. |
| `SerialCommands.Feed` | serial/serial_interface.cpp:197-204 | The framing loop keeps the buffer at 50 characters and takes no more characters than are available. |
| `SerialCommands.FeedIndexInRange` | serial/serial_interface.cpp:197-207 | Starting in range, bufi stays at most 50. The loop stops before the input is exhausted only with a full buffer. |
| `SerialCommands.FeedLinePerTerminator` | serial/serial_interface.cpp:197-203 | Exactly one line is dispatched per terminator consumed. |
| `SerialCommands.FeedFramesLine` | serial/serial_interface.cpp:197-203 | A command of fewer than 50 characters and its terminator land in the buffer from bufi on, and that buffer is the next line dispatched. |
| `SerialCommands.CommandLineSelectsEntry` | serial/serial_interface.cpp:195-204 | A short command typed into an empty buffer selects its first character's entry, with the rest of the command as argument, or is reported unknown. |
| `SerialCommands.FeedOverflow` | serial/serial_interface.cpp:197-207 | Characters without a terminator that fill the buffer are never dispatched, and the loop stops at bufi 50. |
| `SerialCommands.SerialInterface.constructor` | serial/serial_interface.cpp:3-6 | Sets the stream and the name, with an empty map. |
| `SerialCommands.SerialInterface.AddCharPointer` | serial/serial_interface.cpp:19-27 | Overwrites the key's entry with a char* handler that is not a subcommand. Other keys are unchanged. |
| `SerialCommands.SerialInterface.AddFloat` | serial/serial_interface.cpp:30-38 | The same, for a float handler. |
| `SerialCommands.SerialInterface.AddInt` | serial/serial_interface.cpp:49-57 | The same, for an int handler. |
| `SerialCommands.SerialInterface.AddSetFloat` | serial/serial_interface.cpp:68-76 | The same, for a float variable to set. |
| `SerialCommands.SerialInterface.AddSetInt` | serial/serial_interface.cpp:78-86 | The same, for an int variable to set. |
| `SerialCommands.SerialInterface.AddMember` | serial/serial_interface.cpp:118-126 | The same, for a member function of the interface given. |
| `SerialCommands.SerialInterface.AddSubcommand` | serial/serial_interface.cpp:128-131 | Registers the nested interface's run as a member entry with subcommand set to true. |
| `SerialCommands.SerialInterface.InitFuns` | serial/serial_interface.cpp:8-17 | The new map is the old one with '?' (member printHelp, "Print commands") and 'e' (echo, "Echo") set. 'v' ("Version") is set only when VERSION_SHORT is defined and '#' ("Protocol version") only when PROTOCOL_VERSION is; otherwise they keep their old entries. Every entry has si = this and is not a subcommand. |
| `SerialCommands.SerialInterface.Accept` | serial/serial_interface.cpp:198-203 | One character is stored at bufi. On a terminator the buffer is dispatched and bufi returns to 0. Otherwise bufi advances by one. |
| `SerialCommands.SerialInterface.Pump` | serial/serial_interface.cpp:197-204 | The in-place loop leaves the buffer, bufi, the characters taken and the decisions made as `Feed` and `Dispatch` compute them. |
| `SerialCommands.SerialInterface.Run` | serial/serial_interface.cpp:195-208 | Without a stream nothing changes. Otherwise the buffer, the characters taken and the decisions made are those of `Feed` and `Dispatch`, and a full buffer is discarded, so bufi ends below 50 when it starts in range. |

## Left out

- Radio driver calls (`preInit`, `openReadingPipe`, `openWritingPipe`, `setChannel`, `setAutoAck`, `available`, `getDynamicPayloadSize`, `receiveMessage`, `writeAckPayload`, `isChipConnected`) are I/O. They become parameters or the logs `acked`, `readingPipes`, `writingPipes` and `delivered`.
- `CustomRF24_Base::init` consists only of driver calls. `CustomRF24_Robot::init` also stores `identity` (radio/radio_robot.cpp:19), but nothing else in the robot reads it except driver calls. Neither `init` is modelled. The SPI and pin selection in the constructors is hardware configuration and is not modelled either.
- `MAX_TX_BUFFER`, `BaseAddress_BtR`, `BaseAddress_RtB`, `BroadcastAddress` and the initial `rx_robot` and `num_radios_online` are defined in files that are not part of this model. They are constructor parameters.
- `Radio::getRobotID`, `Radio::getRadioID` and `Radio::getPipe` are not part of this model's sources. `AddressSpace` takes them to be `(pipe-1)*n + radio`, `id % n` and `id / n + 1`, and its lemmas are statements about those formulas.
- RadioBase.BaseRadio.GetID: the width of `SSL_ID` is not in the modelled files. Identities are unbounded, so a wrap-around of a large identity is not modelled.
- RadioRobot.Robot.WriteTx: the type of `tx_rotate` is not in the modelled files. It is unbounded here, so if it is a narrow unsigned integer, the order after it wraps is not modelled.
- RadioBase.BaseRadio.GetPipe: the round trip with getID is promised only for pipes below 256. The `uint8_t` result wraps for identities of at least 255 times the number of radios online. For example, identity 255 with one radio gives 0, and `GetPipeOfInvalidIdWraps` states this.
- RadioBase.BaseRadio.GetPipe: requires at least one radio online. The source does not check this, and `Radio::getRadioID` would reduce modulo 0 there. The helpers are not part of this model's sources, so that case is not modelled.
- Width copies through narrower pointers assume a little-endian target. They are modelled as `value % 2^width`.
- Two variable ids that share one storage cell are not modelled: each registered id has its own cell.
- The contents of messages other than multi-config (commands, status, IMU and odometry payloads, all with float fields) are not modelled. The byte layout of `Radio::Message` is also not modelled.
- Callbacks are modelled as the kind of handler invoked, not as what it does.
- Serial handlers are recorded as the entry selected and the rest of the buffer. The model leaves out `atof`/`atoi` parsing, `readFloatAndRun`, `readIntAndRun`, `setFloat`, `setInt`, `echo`, `printHelp`, version printing and `help_map`.
- SerialCommands.Dispatch: the argument is the whole rest of the 50-character buffer. That a C handler reads it only up to a NUL or a terminator is not modelled.
- The constructor of `CustomRF24_Robot` does not initialise `tx_rotate` (radio/radio_robot.cpp:6-8). The model takes its starting value as a constructor parameter.
- The constructor of `SerialInterface` does not initialise `bufi`. The model takes its starting value as a parameter. With a value above 50, `run()` never reads again (`Feed` stops at once), and the bound on `bufi` after `Run` is stated only for a start within range.
- `can/can_id.h` (a table of hardware UIDs), `DEVICE_ID_MAP`, `radio/radio.cpp`, `radio/radio.h`, `radio/radio_station.*` and `radio/pins_radio.h` are not part of this model. They are configuration tables or older wrappers.
- `UPPER_LIMIT`, `LOWER_LIMIT` and the kicker scale constants are floating point and are not modelled.

## Findings

| source | as written | input that shows it | evidently intended | confidence | as-written member | corrected member |
|---|---|---|---|---|---|---|
| radio/radio_robot.cpp:176-179 | With an empty queue, `writeTx` reads `txBuffer[tx_rotate % tx_buffer_len]`. The guard `tx_buffer_len >= 1` is commented out. | A freshly constructed robot has `tx_buffer_len{0}` (line 8). If it receives a message that queues no reply, for instance a Command, before any `writeTxBuffer`, `run()` calls `writeTx` with `tx_rotate % 0`, which is undefined behaviour. | With nothing queued and nothing buffered, no payload is attached. The model guards only the buffer branch, so queued replies still go out. The commented-out `tx_buffer_len >= 1` guard (lines 176-186) would enclose both branches and also hold back queued replies. | medium, not executed | `OutboundQueue.NextTransmissionAsWritten` | `OutboundQueue.NextTransmission` |
