# SmartMist serial parameters, JSSC serial driver and X4SM session

A Dafny model of the communication core of the SmartMist library. It has three parts.

- **`SerialParameters`**: the bag of serial-port settings.
  - The constants.
  - The three constructors, including the one that reads a `Properties` set under a key prefix.
  - `parseXMLFile` over an already parsed document.
  - The numeric and text setters and the getters.
  - The text tables `stringToFlow`/`flowToString` and the data-bits, stop-bits and parity texts.
- **`SerialJSSC`**: the serial driver over the jssc library.
  - `Open`, with its close-on-failure rollback, and `setConnectionParameters`.
  - `Flush`, `Close` and the two `Write` calls.
  - The three `Read` calls, with their timeout and buffer rules.
  - `serialEvent` and `IoControl`.
- **`X4smComm`**: the X4SM session over a TCP client.
  - `Start`/`Stop` around the running flag, with rollback of the client.
  - The listener list.
  - `sendMessage` and the command senders, with `X4smGetProgramMessage`'s encoding.
  - `Process`, which splits one read chunk on CR LF and hands each piece to the parser.
  - The reader loop `run`.

The native libraries are not part of this model: jssc's `SerialPort`, the `TCPClient`, the XML parser and the message parser. Each answer they give is a parameter of the operation that calls them:

- a `Status` (done, or an exception with its message);
- a read reply;
- a parsed document;
- a `parse` function.

The port and the client are small classes. Each keeps its open flag and the log of calls the driver made on it, and the contracts state that log exactly. Java `int` is the newtype `int32`. Octets are `uint8`. `Integer.parseInt`/`toString`, `toLowerCase`, `getBytes`/`new String(bytes)` and `split("\r\n")` are modelled in `JavaInt` and `JavaText`, with their properties proved.

Files:
- `wrappers.dfy`: Option.
- `java_int.dfy`: int32, parseInt/toString, `|`.
- `java_text.dfy`: lower case, octets and text, split on CR LF.
- `cal_driver.dfy`: driver outcomes.
- `serial_parameters.dfy`, `serial_jssc.dfy`, `x4sm_messages.dfy`, `x4sm_comm.dfy`.

In these points the model follows the code as written:
- **No carry-over.** `Process` keeps no partial frame between reads. Each chunk is split on its own, so a frame cut by a read boundary becomes two frames (`ChunkBoundarySplitsFrame`).
- **Data bits from `Properties`.** The constructor can leave the data bits at 0 when the text is not one of "5".."8", and its default timeout is 500, not 2000.
- **Untimed reads.** With no receive timeout, `Read` asks for everything buffered whenever the byte count does not exceed Length, even when nothing is buffered.
- **Duplicate listeners.** The listener list accepts duplicates, and `removeEventListener` removes only the first registration.
- **Event mask.** A failing `setEventsMask` in `Open` throws but does not close the port.
- **`Stop`.** It makes its three client calls in one try block, so the first failure skips the rest, including the close.
- **The `#` start marker.** The comment on `Process` mentions it, but the code does not look for it, and neither does the model.

## Model

| member | source | states |
|---|---|---|
| CalDriver.Outcome | src/com/radicales/cal/serial/SerialJSSC.java:152-159 | a driver call returns its value exactly when the library call succeeded, and otherwise raises CalDriverException with the library's message, never an unchecked exception |
| JavaInt.NatDigits | src/com/radicales/cal/serial/SerialParameters.java:288-290 | `Integer.toString` of a non-negative value is a non-empty digit string with no leading zero whose decimal value is the number |
| JavaInt.ParseIntToString | src/com/radicales/cal/serial/SerialParameters.java:269-290 | `setBaudRate(getBaudRateString())` restores every int baud rate: parseInt undoes toString |
| JavaInt.IntToStringInjective | src/com/radicales/cal/serial/SerialParameters.java:288-290 | two baud rates render the same text exactly when they are equal |
| JavaInt.SignedByte | src/com/radicales/cal/serial/SerialJSSC.java:320-322 | the byte `Read()` returns is the signed Java value of the octet: in -128..127 and equal to it modulo 256 |
| JavaText.Lower | src/com/radicales/cal/serial/SerialParameters.java:494-495 | `toLowerCase` keeps the length |
| JavaText.LowerKeepsLower | src/com/radicales/cal/serial/SerialParameters.java:587-605 | lower-casing leaves text without capitals unchanged, so the lower-case names compare equal to themselves |
| JavaText.DecodeEncode | src/com/radicales/sm100/protocol/X4smComm.java:230-244 | text of 8-bit characters sent with `getBytes` reads back unchanged through `new String(bytes)` |
| JavaText.FindCrlf | src/com/radicales/sm100/protocol/X4smComm.java:245 | the result is the first CR LF at or after the start, and None exactly when there is none |
| JavaText.DropTrailingEmpty | src/com/radicales/sm100/protocol/X4smComm.java:245 | the result is a prefix of the pieces whose last element, if any, is non-empty |
| JavaText.PiecesJoin | src/com/radicales/sm100/protocol/X4smComm.java:245 | joining the pieces with CR LF gives back the text |
| JavaText.PiecesHaveNoCrlf | src/com/radicales/sm100/protocol/X4smComm.java:245 | no piece contains CR LF |
| JavaText.PiecesAppendCrlf | src/com/radicales/sm100/protocol/X4smComm.java:245 | one more terminator adds exactly one empty piece at the end |
| JavaText.LastPieceEmpty | src/com/radicales/sm100/protocol/X4smComm.java:245 | the last piece is empty exactly when the text is empty or ends with CR LF |
| JavaText.StripDecompose | src/com/radicales/sm100/protocol/X4smComm.java:245 | every text is its stripped form followed by its trailing terminators, and the stripped form does not end with one |
| JavaText.SplitAsPieces | src/com/radicales/sm100/protocol/X4smComm.java:245 | the split of a non-empty text is the pieces of the text without its trailing terminators, or nothing when none is left |
| JavaText.SplitJoin | src/com/radicales/sm100/protocol/X4smComm.java:245 | rejoining the segments of `split("\r\n")` gives the chunk without its trailing terminators |
| JavaText.SplitHasNoCrlf | src/com/radicales/sm100/protocol/X4smComm.java:245 | no segment contains CR LF |
| JavaText.SplitWithoutTerminator | src/com/radicales/sm100/protocol/X4smComm.java:245 | a chunk without CR LF is one segment, itself, the empty chunk included |
| JavaText.SplitOfTerminators | src/com/radicales/sm100/protocol/X4smComm.java:245 | a chunk made only of CR LF pairs gives no segment, so nothing is parsed |
| SerialParams.DatabitsOf | src/com/radicales/cal/serial/SerialParameters.java:382-395 | `setDatabits(String)` recognises exactly "5".."8", giving a value in 5..8 |
| SerialParams.DatabitsString | src/com/radicales/cal/serial/SerialParameters.java:411-424 | the text parses back to the value exactly for 5..8; any other value renders "8" |
| SerialParams.StopbitsOf | src/com/radicales/cal/serial/SerialParameters.java:440-450 | `setStopbits(String)` recognises exactly "1", "1.5" and "2", giving one of the three codes |
| SerialParams.StopbitsString | src/com/radicales/cal/serial/SerialParameters.java:466-477 | the text parses back exactly for the three codes; anything else renders "1" |
| SerialParams.ParityOf | src/com/radicales/cal/serial/SerialParameters.java:494-505 | `setParity(String)` recognises exactly none, even and odd, ignoring case; MARK and SPACE have no text |
| SerialParams.ParityString | src/com/radicales/cal/serial/SerialParameters.java:521-532 | the text parses back exactly for NONE, ODD and EVEN; everything else renders "none" |
| SerialParams.StringToFlow | src/com/radicales/cal/serial/SerialParameters.java:587-605 | the result is always one of the five codes, and NONE for any name not in the table |
| SerialParams.FlowToString | src/com/radicales/cal/serial/SerialParameters.java:615-630 | the result is always a table name; each of the five codes renders a name that parses back to it, and every other code, such as the combined mask 3, renders "none" |
| SerialParams.DatabitsTextRoundTrip | src/com/radicales/cal/serial/SerialParameters.java:382-424 | a recognised data-bits text set and read back is the same text |
| SerialParams.StopbitsTextRoundTrip | src/com/radicales/cal/serial/SerialParameters.java:440-477 | a recognised stop-bits text set and read back is the same text |
| SerialParams.ParityTextRoundTrip | src/com/radicales/cal/serial/SerialParameters.java:494-532 | a recognised parity name set and read back is the name in lower case |
| SerialParams.FlowNameRoundTrip | src/com/radicales/cal/serial/SerialParameters.java:587-630 | a recognised flow-control name set and read back is the name in lower case |
| SerialParams.PropertiesNullPrefix | src/com/radicales/cal/serial/SerialParameters.java:146-149 | a null prefix builds the same bag as the empty prefix |
| SerialParams.PropertiesDefaults | src/com/radicales/cal/serial/SerialParameters.java:146-159 | an empty property set gives port "", 9600 baud, 8 data bits, 1 stop bit, no parity, no flow control, no echo, timeout 500 and a null name |
| SerialParams.PropertiesEcho | src/com/radicales/cal/serial/SerialParameters.java:157 | echo is on exactly when the prefixed echo key holds "true" |
| SerialParams.PropertiesTimeoutDefault | src/com/radicales/cal/serial/SerialParameters.java:158 | a missing timeout key gives 500, and does not make construction fail |
| SerialParams.PropertiesUnknownDatabits | src/com/radicales/cal/serial/SerialParameters.java:155 | an unrecognised data-bits text leaves the data bits at 0 |
| SerialParams.ApplyElement | src/com/radicales/cal/serial/SerialParameters.java:182-206 | non-elements and unknown names change nothing; the node fails exactly when it is a Baudrate element that does not parse; an element changes no field but its own, and stop bits, timeout and echo are never touched |
| SerialParams.ApplyElementsStops | src/com/radicales/cal/serial/SerialParameters.java:179-184 | once a Baudrate exception has escaped, the later children change nothing |
| SerialParams.XmlKeepsOtherFields | src/com/radicales/cal/serial/SerialParameters.java:179-206 | whatever the document holds, the stop bits, timeout and echo are unchanged |
| SerialParams.XmlLastElementWins | src/com/radicales/cal/serial/SerialParameters.java:183-188 | after a complete pass, the name and the port are those of the last Name and Port elements, or unchanged when there is none |
| SerialParams.XmlLastBaudRateWins | src/com/radicales/cal/serial/SerialParameters.java:183-186 | after a complete pass, every Baudrate text parsed, and the baud rate is the value of the last one, or unchanged when there is none |
| SerialParams.XmlLastFlowControlWins | src/com/radicales/cal/serial/SerialParameters.java:183-202 | after a complete pass, each flow-control direction is `stringToFlow` of the text of its last element, or unchanged when there is none |
| SerialParams.XmlLastRecognisedWins | src/com/radicales/cal/serial/SerialParameters.java:183-198 | after a complete pass, the data bits and the parity are the values of the last element whose text the table recognises; unrecognised texts leave the earlier value |
| SerialParams.SerialParameters.constructor | src/com/radicales/cal/serial/SerialParameters.java:90-101 | the name-only constructor gives port "", 9600 baud, no flow control, 8 data bits, 1 stop bit, no parity, timeout 2000 and no echo |
| SerialParams.SerialParameters.Full | src/com/radicales/cal/serial/SerialParameters.java:116-136 | the ten-argument constructor stores each argument unchecked |
| SerialParams.SerialParameters.JavaDefaults | src/com/radicales/cal/serial/SerialParameters.java:146-147 | the object the `Properties` constructor starts from holds Java's zero values: no name, all numbers 0, no echo; the port name, null in Java, is "" in the model |
| SerialParams.SerialParameters.FromPropertyMap | src/com/radicales/cal/serial/SerialParameters.java:146-159 | the setters run in the constructor's order; the result is null exactly when the baud rate or timeout text does not parse, and otherwise holds the bag `FromProperties` describes |
| SerialParams.SerialParameters.ParseXmlFile | src/com/radicales/cal/serial/SerialParameters.java:162-215 | with no SerialParameters root it returns false and changes nothing; otherwise the children are applied in order, and it returns true, or throws with the earlier children already applied |
| SerialParams.SerialParameters.SetName | src/com/radicales/cal/serial/SerialParameters.java:223-225 | only the name changes |
| SerialParams.SerialParameters.SetPortName | src/com/radicales/cal/serial/SerialParameters.java:242-244 | only the port name changes |
| SerialParams.SerialParameters.SetBaudRate | src/com/radicales/cal/serial/SerialParameters.java:260-262 | only the baud rate changes, to the value given, unchecked |
| SerialParams.SerialParameters.SetBaudRateText | src/com/radicales/cal/serial/SerialParameters.java:269-272 | succeeds exactly when the text parses as an int and then sets only the baud rate; a failure changes nothing |
| SerialParams.SerialParameters.SetFlowControlIn | src/com/radicales/cal/serial/SerialParameters.java:298-300 | only the input flow control changes, unchecked |
| SerialParams.SerialParameters.SetFlowControlInText | src/com/radicales/cal/serial/SerialParameters.java:308-310 | only the input flow control changes, to the table's code for the name |
| SerialParams.SerialParameters.SetFlowControlOut | src/com/radicales/cal/serial/SerialParameters.java:336-338 | only the output flow control changes, unchecked |
| SerialParams.SerialParameters.SetFlowControlOutText | src/com/radicales/cal/serial/SerialParameters.java:346-348 | only the output flow control changes, to the table's code for the name |
| SerialParams.SerialParameters.SetDatabits | src/com/radicales/cal/serial/SerialParameters.java:373-375 | only the data bits change, unchecked |
| SerialParams.SerialParameters.SetDatabitsText | src/com/radicales/cal/serial/SerialParameters.java:382-395 | a recognised text sets the data bits; anything else changes nothing |
| SerialParams.SerialParameters.SetStopbits | src/com/radicales/cal/serial/SerialParameters.java:431-433 | only the stop bits change, unchecked |
| SerialParams.SerialParameters.SetStopbitsText | src/com/radicales/cal/serial/SerialParameters.java:440-450 | a recognised text sets the stop bits; anything else changes nothing |
| SerialParams.SerialParameters.SetParity | src/com/radicales/cal/serial/SerialParameters.java:484-486 | only the parity changes, unchecked |
| SerialParams.SerialParameters.SetParityText | src/com/radicales/cal/serial/SerialParameters.java:494-505 | a recognised name, in any case, sets the parity; anything else changes nothing |
| SerialParams.SerialParameters.SetEcho | src/com/radicales/cal/serial/SerialParameters.java:548-550 | only the echo flag changes |
| SerialParams.SerialParameters.SetReceiveTimeout | src/com/radicales/cal/serial/SerialParameters.java:566-568 | only the timeout changes, unchecked |
| SerialParams.SerialParameters.SetReceiveTimeoutText | src/com/radicales/cal/serial/SerialParameters.java:576-578 | succeeds exactly when the text parses as an int and then sets only the timeout; a failure changes nothing |
| SerialDriver.OpenSucceeds | src/com/radicales/cal/serial/SerialJSSC.java:97-149 | `Open` succeeds exactly when open, setParams, the flow control, addEventListener and setEventsMask all succeed; the port is then open and the calls were made in exactly that order |
| SerialDriver.OpenRollsBack | src/com/radicales/cal/serial/SerialJSSC.java:108-139 | when the parameters, the flow control or the listener fail on an opened port, `Open` throws and its last call is its only close; the port stays open only if that close fails |
| SerialDriver.OpenDoesNotCloseOtherwise | src/com/radicales/cal/serial/SerialJSSC.java:97-148 | a port that could not be opened, or whose event mask failed, is not closed by `Open` |
| SerialDriver.FlowModeCombines | src/com/radicales/cal/serial/SerialJSSC.java:206 | for the five named codes, the flow-control mode `in \| out` is the code when both agree and their sum otherwise |
| SerialDriver.ChooseRead | src/com/radicales/cal/serial/SerialJSSC.java:245-256 | a positive receive timeout gives a timed read of Length; the byte-count probe fails only when there is no timeout |
| SerialDriver.UntimedReadTakesAtMostLength | src/com/radicales/cal/serial/SerialJSSC.java:248-256 | with no timeout, the read asks for the buffered count, and never more than Length |
| SerialDriver.ReadOutcome | src/com/radicales/cal/serial/SerialJSSC.java:257-270 | the value is -1 exactly on a timeout; errors are exactly the port exceptions; a positive value is the length of the chunk; a chunk that fits returns its length; a null chunk or one longer than the buffer returns 0; no other runtime exception escapes; a value that is not -1 is at most the buffer size |
| SerialDriver.ByteOutcome | src/com/radicales/cal/serial/SerialJSSC.java:310-330 | `Read()` gives the first byte, signed, or 0 for an empty chunk, -1 on a timeout, and raises on a port exception and never otherwise |
| SerialDriver.ByteFFLooksLikeTimeout | src/com/radicales/cal/serial/SerialJSSC.java:320-326 | the byte 0xFF reads as -1, like a timeout |
| SerialDriver.OnlyByteFFReadsMinusOne | src/com/radicales/cal/serial/SerialJSSC.java:320-322 | a one-byte chunk reads as -1 exactly when the byte is 0xFF |
| SerialDriver.Forwarded | src/com/radicales/cal/serial/SerialJSSC.java:333-342 | an event is forwarded exactly when it is a CTS or DSR change, with its mask and value |
| SerialDriver.Port.constructor | src/com/radicales/cal/serial/SerialJSSC.java:98 | a new port on the given name is closed, RTS low, with no call made |
| SerialDriver.Port.Invoke | src/com/radicales/cal/serial/SerialJSSC.java:97-100 | each port call is logged; the open flag moves only on a successful open or close, and RTS only on a successful set |
| SerialDriver.SerialJssc.constructor | src/com/radicales/cal/serial/SerialJSSC.java:45-48 | a fresh parameter bag with the name-only defaults, and no port |
| SerialDriver.SerialJssc.WithPortName | src/com/radicales/cal/serial/SerialJSSC.java:50-54 | the same defaults, on the given port name |
| SerialDriver.SerialJssc.FromParameters | src/com/radicales/cal/serial/SerialJSSC.java:56-59 | the driver keeps the caller's parameter object itself |
| SerialDriver.SerialJssc.Open | src/com/radicales/cal/serial/SerialJSSC.java:75-149 | when the configured name is an invalid regular expression and some port is listed, the PatternSyntaxException escapes and no port is created; otherwise a new port on the configured name, whose calls, result and final open state are `OpenTrace`, `OpenResult` and `OpenLeavesOpen` |
| SerialDriver.SerialJssc.SetConnectionParameters | src/com/radicales/cal/serial/SerialJSSC.java:185-215 | setParams first, then the flow control only if setParams succeeded; the failures become "Unsupported parameter" and "Unsupported flow control" |
| SerialDriver.SerialJssc.Flush | src/com/radicales/cal/serial/SerialJSSC.java:152-159 | one purge of both directions, with the flags RXCLEAR \| TXCLEAR |
| SerialDriver.SerialJssc.Close | src/com/radicales/cal/serial/SerialJSSC.java:165-174 | one close call; the port stays open exactly when it was open and the close failed |
| SerialDriver.SerialJssc.WritePrefix | src/com/radicales/cal/serial/SerialJSSC.java:219-228 | writes exactly the first Length bytes, and returns Length or raises |
| SerialDriver.SerialJssc.Write | src/com/radicales/cal/serial/SerialJSSC.java:231-238 | writes the whole buffer, and returns its length or raises |
| SerialDriver.SerialJssc.ReadPrefix | src/com/radicales/cal/serial/SerialJSSC.java:241-273 | the calls and the result follow the read rules; copied bytes land at the front of the buffer and the rest of the buffer is untouched, all of it when nothing is copied |
| SerialDriver.SerialJssc.Read | src/com/radicales/cal/serial/SerialJSSC.java:276-307 | the same as a read of the buffer's own length, so any count it returns fits the buffer |
| SerialDriver.SerialJssc.ReadByte | src/com/radicales/cal/serial/SerialJSSC.java:310-330 | one read of a single byte, timed when there is a timeout; the result is `ByteOutcome` |
| SerialDriver.SerialJssc.SerialEvent | src/com/radicales/cal/serial/SerialJSSC.java:333-342 | only CTS and DSR changes reach the driver's listener, in arrival order |
| SerialDriver.SerialJssc.IoControl | src/com/radicales/cal/serial/SerialJSSC.java:345-364 | SERIAL_SET_RTS drives RTS to `Arg > 0` and returns 0 or raises; any other code makes no call and returns -1 |
| SerialDriver.CopyChunk | src/com/radicales/cal/serial/SerialJSSC.java:259 | after the copy, the buffer starts with the chunk and its remaining bytes are unchanged |
| X4smMessages.EncodeGetProgram | src/com/radicales/sm100/protocol/X4smGetProgramMessage.java:21-25 | the request is the 18-character prefix, the name verbatim, then the 4-character suffix |
| X4smMessages.GetProgramMessage | src/com/radicales/sm100/protocol/X4smGetProgramMessage.java:15-19 | the message has type GET_PROGRAM, and its text gives back the name |
| X4smMessages.GetProgramName | src/com/radicales/sm100/protocol/X4smGetProgramMessage.java:21-25 | a name is recovered exactly from texts that have the request's frame |
| X4smMessages.DecodeEncodeGetProgram | src/com/radicales/sm100/protocol/X4smGetProgramMessage.java:21-25 | stripping the frame recovers any name |
| X4smMessages.EncodeDecodeGetProgram | src/com/radicales/sm100/protocol/X4smGetProgramMessage.java:21-25 | every framed text is the encoding of the name inside it |
| X4smMessages.EncodeGetProgramInjective | src/com/radicales/sm100/protocol/X4smGetProgramMessage.java:21-25 | two names give the same request exactly when they are equal |
| X4smComm.IndexOf | src/com/radicales/sm100/protocol/X4smComm.java:117-119 | the first position of the listener, or -1 exactly when it is absent |
| X4smComm.RemoveFirst | src/com/radicales/sm100/protocol/X4smComm.java:117-119 | removing an absent listener changes nothing; otherwise the list is one shorter |
| X4smComm.RemoveFirstAt | src/com/radicales/sm100/protocol/X4smComm.java:117-119 | removal keeps everything before and after the first registration |
| X4smComm.RemoveFirstMultiset | src/com/radicales/sm100/protocol/X4smComm.java:117-119 | removal takes away exactly one registration of the listener, when there is one |
| X4smComm.RemoveUndoesRegister | src/com/radicales/sm100/protocol/X4smComm.java:113-119 | removing a listener just registered for the first time restores the list |
| X4smComm.RegisterKeepsDuplicates | src/com/radicales/sm100/protocol/X4smComm.java:113-119 | registering a present listener again and removing it once leaves the earlier registration in place |
| X4smComm.Dispatches | src/com/radicales/sm100/protocol/X4smComm.java:247-259 | there are no more events than frames, and every event carries the current listener list |
| X4smComm.DispatchesAppend | src/com/radicales/sm100/protocol/X4smComm.java:247-259 | frames are handled independently, in order |
| X4smComm.DispatchesStep | src/com/radicales/sm100/protocol/X4smComm.java:247-259 | one more frame handled adds its own events at the end |
| X4smComm.FailedFrameIsSkipped | src/com/radicales/sm100/protocol/X4smComm.java:251-258 | a frame that fails to parse, or parses to null, gives no event and does not stop the frames after it |
| X4smComm.TerminatedFrame | src/com/radicales/sm100/protocol/X4smComm.java:244-247 | a frame followed by CR LF is handled as exactly that frame |
| X4smComm.ChunkBoundarySplitsFrame | src/com/radicales/sm100/protocol/X4smComm.java:240-247 | a frame that arrives in two reads is handled as two frames, where one read gives one frame |
| X4smComm.RunEventsAppend | src/com/radicales/sm100/protocol/X4smComm.java:269-281 | the events of successive loop passes are those of each pass, in order |
| X4smComm.RunEventsStep | src/com/radicales/sm100/protocol/X4smComm.java:269-281 | one more loop pass adds its own events at the end |
| X4smComm.FailedReadIsSkipped | src/com/radicales/sm100/protocol/X4smComm.java:270-276 | a read that throws is swallowed, and the passes after it deliver their events as if it had not happened |
| X4smComm.StartRollsBack | src/com/radicales/sm100/protocol/X4smComm.java:71-83 | when open, start or addEventListener throws with the client open, the close is the last call and the only one; the client stays open only if that close fails |
| X4smComm.StartClosesOnlyWhatIsOpen | src/com/radicales/sm100/protocol/X4smComm.java:71-89 | a client that is not open is not closed; a successful start makes exactly open, start and addEventListener |
| X4smComm.StopClosesOnlyWhenAllSucceed | src/com/radicales/sm100/protocol/X4smComm.java:105-110 | the client is closed exactly when removeEventListener and Stop both succeed; it stays open when any of the three calls fails |
| X4smComm.TcpClient.constructor | src/com/radicales/sm100/protocol/X4smComm.java:57 | a new client holds the address and port, is closed, and has had no call |
| X4smComm.TcpClient.SetIpAddress | src/com/radicales/sm100/protocol/X4smComm.java:63 | only the address changes; the open state and the call log are kept |
| X4smComm.TcpClient.Invoke | src/com/radicales/sm100/protocol/X4smComm.java:72-78 | each client call is logged; the open flag moves only on a successful open or close |
| X4smComm.TcpClient.ReadInto | src/com/radicales/sm100/protocol/X4smComm.java:271 | a read puts the received bytes at the front of the buffer and returns their count, or raises |
| X4smComm.Session.constructor | src/com/radicales/sm100/protocol/X4smComm.java:52-59 | a stopped session with a fresh, closed client on that address, and no listeners |
| X4smComm.Session.SetIpAddress | src/com/radicales/sm100/protocol/X4smComm.java:61-64 | the session and its client both take the new address, and nothing else changes |
| X4smComm.Session.Start | src/com/radicales/sm100/protocol/X4smComm.java:66-90 | refused while running, with no call made; otherwise it succeeds exactly when the setup calls succeed, and the session then runs; the client calls and open state are `StartTrace` and `StartLeavesOpen` |
| X4smComm.Session.Stop | src/com/radicales/sm100/protocol/X4smComm.java:92-111 | nothing when stopped; otherwise the session stops, and the client calls and open state are `StopTrace` and its outcome |
| X4smComm.Session.RegisterEventListener | src/com/radicales/sm100/protocol/X4smComm.java:113-115 | the listener is appended, even when already present |
| X4smComm.Session.RemoveEventListener | src/com/radicales/sm100/protocol/X4smComm.java:117-119 | the first registration of the listener is removed |
| X4smComm.Session.SendMessage | src/com/radicales/sm100/protocol/X4smComm.java:230-233 | exactly one write, of the bytes of the message's text |
| X4smComm.Session.Ping | src/com/radicales/sm100/protocol/X4smComm.java:129-138 | writes the ping text, and returns false exactly when the write throws |
| X4smComm.Session.SetZone | src/com/radicales/sm100/protocol/X4smComm.java:140-149 | writes the zone text, and returns false exactly when the write throws |
| X4smComm.Session.GetProgram | src/com/radicales/sm100/protocol/X4smComm.java:172-181 | writes the GetProgram request for the name, and returns false exactly when the write throws |
| X4smComm.Session.GetConfig | src/com/radicales/sm100/protocol/X4smComm.java:183-192 | writes the config request, and returns false exactly when the write throws |
| X4smComm.Session.GetInformation | src/com/radicales/sm100/protocol/X4smComm.java:194-203 | writes the information request, and returns false exactly when the write throws |
| X4smComm.Session.Process | src/com/radicales/sm100/protocol/X4smComm.java:240-260 | the events fired are exactly those of the chunk's CR LF segments, parsed in order, each with the current listener list; nothing else changes |
| X4smComm.Session.ProcessFrames | src/com/radicales/sm100/protocol/X4smComm.java:247-259 | a recognised message goes to the listeners and a failed parse only skips its piece, in frame order |
| X4smComm.Session.RunStep | src/com/radicales/sm100/protocol/X4smComm.java:270-276 | one read; a positive count is processed; a read exception is dropped |
| X4smComm.Session.Run | src/com/radicales/sm100/protocol/X4smComm.java:263-284 | a stopped session reads nothing; a running one makes one read per answer, into one 1000-byte buffer, and fires exactly the events of those passes in order |

## Left out

- **I/O and the native libraries.** These are not part of this model: jssc's `SerialPort` and `SerialPortList`, the `TCPClient`, the DOM parser `DocumentBuilder`, `X4smMessage.parseData`/`fireEvent`, and `Properties.load`. Their answers are parameters: `Status`, the read replies, a parsed `Document`, the `parse` function and a finite map.
- **`System.out` diagnostics.** The `debug` flag's printing and the `System.out` lines in `setBaudRate(String)`, `Process` and `run` have no effect on state.
- **Threads in `X4smComm`.** These are concurrency and are not modelled: the `Thread` that `Start` creates and starts, `interrupt`, `join(2000)`, `Thread.sleep(100)` and `synchronized`.
  - `Session.Run` is the `run` loop over a given finite sequence of read answers.
  - A `Stop` from another thread cannot happen inside it, so a running session takes every answer.
  - The `running` flag is set by `Start`/`Stop` only.
- **Other message encoders.** `setDateTime` and the ping, zone, config and information encoders are not part of this model. Those sends take the already built `Message` as a parameter. `setDateTime` builds its message from a `Calendar`, which is outside the model.
- **Stub callbacks.** The `DriverEvent*` callbacks of `X4smComm` only throw `UnsupportedOperationException`, and are not modelled.
- **`SerialJSSC(Id, Start, Parameters)`.** This constructor differs from `SerialJSSC(Parameters)` only in the `CalDriver` base-class fields, which are not part of this model.
- **The rest of `CalDriver`.** Not part of this model:
  - `super.Open()` and `super.Close()`;
  - `DriverEventNotify`'s listener, whose notifications are logged in `notifications`;
  - the `Serial.SERIAL_SET_RTS` value, which is a symbolic constant.
- **jssc constants.** `MASK_RXCHAR`, `MASK_CTS`, `MASK_DSR`, `PURGE_TXCLEAR` and `PURGE_RXCLEAR` take jssc's values.
- **The port-name check in `SerialJssc.Open`.** The check's verdict is overwritten with `true`, so no name is refused. What can still escape from it is the PatternSyntaxException of an invalid name; `Open` models that escape. The regular-expression compiler is not part of this model: whether the name compiles, and the exception's message, are the `PortScan` parameter.
- **`gBuffer` and the `loadFrom` body.** The 1001-byte `gBuffer` of `X4smComm` is never used. The `loadFrom` body of `SerialParameters` sits inside a comment.
- **Charset.** `getBytes()` and `new String(bytes)` use the platform charset. The model reads each octet as the character with that code and keeps the low 8 bits when encoding.
- **Regular expressions.** `matches()` with a plain element name is modelled as string equality.
- **Case conversion.** `toLowerCase` is modelled on ASCII letters only.
- **Unicode digits.** `JavaInt.ParseInt` accepts only the ASCII digits 0-9. `Integer.parseInt` also accepts the other Unicode decimal digits, for example "٩٦٠٠" as 9600. So `setBaudRate(String)`, `setReceiveTimeout(String)` and the `Properties` constructor accept texts the model rejects.
- **Null strings.** Names and texts are strings, never Java's `null`, except the parameter bag's name.
  - `getProgram(null)` sends `<GetProgram Name="null" />`, because string concatenation renders `null` as "null"; `EncodeGetProgram` has no such input.
  - A null port name from `setPortName(null)` makes `Open` throw a NullPointerException in the port-name check when a port is listed. `SetPortName` and `SetName` take non-null strings, so the model has no such case.
- **Null-pointer preconditions.**
  - The `SerialJssc` I/O methods require an opened `port` (`port != null`). Before `Open`, Java's `gSerialPort` is null and those calls throw a `NullPointerException`.
  - `SerialJssc.ReadByte` requires a non-null chunk, because `Read()` dereferences `b` without a check.
- **`arraycopy` preconditions.** These exceptions escape the method, so they are requirements rather than modelled error paths.
  - `SerialJssc.WritePrefix` and `Session.Process` require `0 <= Length <= buffer.Length`.
  - `Session.Run` requires each answer to fit in the 1000-byte buffer.
- **`TcpClient.isOpen`.** `TCPClient.isOpen()` is not part of this model. It is modelled as "opened by a successful Open, closed by a successful Close".
- **Non-positive read counts.** A non-positive count from the TCP client is modelled as an empty answer, which `run` also skips.
