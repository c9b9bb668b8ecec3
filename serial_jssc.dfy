/**
 * The serial driver over jssc. The jssc `SerialPort` is not part of this
 * model: `Port` below stands for it, keeps only its open flag, its RTS line
 * and the log of calls the driver made, and every answer it gives (success,
 * an exception, the bytes read) is a parameter of the driver operation.
 */
module SerialDriver {
  import opened Wrappers
  import opened JavaInt
  import opened CalDriver
  import opened SerialParams

  /** jssc's event masks this driver uses. */
  const MASK_RXCHAR: int32 := 1
  const MASK_CTS: int32 := 8
  const MASK_DSR: int32 := 16

  /** jssc's purge flags. */
  const PURGE_TXCLEAR: int32 := 4
  const PURGE_RXCLEAR: int32 := 8

  /** The `Serial.SERIAL_SET_RTS` control code; its value is defined outside this model. */
  const SERIAL_SET_RTS: int32

  /** The three reads the driver can ask jssc for. */
  datatype ReadRequest =
    | TimedRead(count: int32, timeout: int32)   // readBytes(count, timeout)
    | ReadCount(count: int32)                   // readBytes(count)
    | ReadAvailable                             // readBytes(): whatever is buffered

  /** A call the driver makes on the jssc port. */
  datatype PortCall =
    | OpenPort
    | SetParams(baudRate: int32, databits: int32, stopbits: int32, parity: int32)
    | SetFlowControlMode(mask: int32)
    | AddEventListener
    | SetEventsMask(mask: int32)
    | PurgePort(flags: int32)
    | ClosePort
    | WriteBytes(data: seq<uint8>)
    | GetInputBufferBytesCount
    | ReadBytes(request: ReadRequest)
    | SetRts(level: bool)

  /** Whether the port is open after a call that ended with `s`. */
  function OpenAfter(wasOpen: bool, c: PortCall, s: Status): bool {
    if s.Failed? then wasOpen
    else if c.OpenPort? then true
    else if c.ClosePort? then false
    else wasOpen
  }

  /** The jssc port: its open flag, its RTS line and the calls made on it. */
  class Port {
    const name: string
    var isOpen: bool
    var rts: bool
    var calls: seq<PortCall>

    /** `new SerialPort(name)`: not yet open. */
    constructor (name: string)
      ensures this.name == name && !isOpen && !rts && calls == []
    {
      this.name := name;
      isOpen := false;
      rts := false;
      calls := [];
    }

    /** One call on the port, answered with `s`. */
    method Invoke(c: PortCall, s: Status)
      modifies this
      ensures calls == old(calls) + [c]
      ensures isOpen == OpenAfter(old(isOpen), c, s)
      ensures rts == if c.SetRts? && s.Done? then c.level else old(rts)
    {
      calls := calls + [c];
      isOpen := OpenAfter(isOpen, c, s);
      if c.SetRts? && s.Done? {
        rts := c.level;
      }
    }
  }

  // ---------------------------------------------------------------------
  // Open
  // ---------------------------------------------------------------------

  /**
   * The port-name check `Open` starts with: the names `SerialPortList`
   * reports, and the PatternSyntaxException message the configured name
   * gives when `String.matches` compiles it as a regular expression (None
   * when it is a valid one). The regular-expression compiler is not part of
   * this model.
   */
  datatype PortScan = PortScan(listed: seq<string>, patternError: Option<string>)

  /**
   * Whether the check throws: `matches` is first called on the first listed
   * name, and an invalid pattern throws there. A match, or no match, is then
   * overwritten, so the check refuses no name.
   */
  function ScanFailure(scan: PortScan): Option<string> {
    if |scan.listed| > 0 && scan.patternError.Some? then scan.patternError else None
  }

  /** How each jssc call made by `Open` ends, in call order; `close` answers the rollback close. */
  datatype OpenEnv = OpenEnv(
    open: Status,
    setParams: Status,
    setFlow: Status,
    addListener: Status,
    setMask: Status,
    close: Status)

  /** The exception `setConnectionParameters` raises, if any; jssc's own message is replaced. */
  function ConnectionFailure(env: OpenEnv): Option<string> {
    if env.setParams.Failed? then Some("Unsupported parameter")
    else if env.setFlow.Failed? then Some("Unsupported flow control")
    else None
  }

  /** The flow-control mode `setConnectionParameters` asks for: in | out. */
  function FlowMode(p: Params): int32 {
    BitOr(p.flowControlIn, p.flowControlOut)
  }

  /** The port calls `Open` makes with the parameters `p`. */
  function OpenTrace(p: Params, env: OpenEnv): seq<PortCall> {
    var params := [SetParams(p.baudRate, p.databits, p.stopbits, p.parity)];
    var flow := [SetFlowControlMode(FlowMode(p))];
    if env.open.Failed? then [OpenPort]
    else if env.setParams.Failed? then [OpenPort] + params + [ClosePort]
    else if env.setFlow.Failed? then [OpenPort] + params + flow + [ClosePort]
    else if env.addListener.Failed? then [OpenPort] + params + flow + [AddEventListener, ClosePort]
    else [OpenPort] + params + flow + [AddEventListener, SetEventsMask(MASK_CTS)]
  }

  /** What `Open` returns or throws. */
  function OpenResult(env: OpenEnv): DriverResult<()> {
    if env.open.Failed? then Raised(env.open.message)
    else if ConnectionFailure(env).Some? then Raised(ConnectionFailure(env).value)
    else if env.addListener.Failed? then Raised(env.addListener.message)
    else Outcome(env.setMask, ())
  }

  /** Whether the port is left open when `Open` ends. */
  function OpenLeavesOpen(env: OpenEnv): bool {
    env.open.Done?
    && (ConnectionFailure(env).Some? || env.addListener.Failed? ==> env.close.Failed?)
  }

  /**
   * `Open` succeeds exactly when every call succeeds, and then the port is
   * open with the parameters and the flow-control mode set, the driver
   * listening and the CTS event mask set, in that order.
   */
  lemma OpenSucceeds(p: Params, env: OpenEnv)
    ensures OpenResult(env).Ok? <==>
              env.open.Done? && env.setParams.Done? && env.setFlow.Done?
              && env.addListener.Done? && env.setMask.Done?
    ensures OpenResult(env).Ok? ==>
              OpenLeavesOpen(env)
              && OpenTrace(p, env) == [OpenPort, SetParams(p.baudRate, p.databits, p.stopbits, p.parity),
                                       SetFlowControlMode(FlowMode(p)), AddEventListener,
                                       SetEventsMask(MASK_CTS)]
  {
  }

  /**
   * When the parameters, the flow control or the listener cannot be set on
   * an opened port, `Open` closes the port as its last call and throws; the
   * port stays open only if that close fails too.
   */
  lemma OpenRollsBack(p: Params, env: OpenEnv)
    requires env.open.Done?
    requires env.setParams.Failed? || env.setFlow.Failed? || env.addListener.Failed?
    ensures OpenResult(env).Raised?
    ensures var t := OpenTrace(p, env); t[|t| - 1] == ClosePort && ClosePort !in t[..|t| - 1]
    ensures OpenLeavesOpen(env) <==> env.close.Failed?
  {
  }

  /** A port that cannot be opened, or whose event mask cannot be set, is not closed by `Open`. */
  lemma OpenDoesNotCloseOtherwise(p: Params, env: OpenEnv)
    requires env.open.Failed? || (ConnectionFailure(env).None? && env.addListener.Done?)
    ensures ClosePort !in OpenTrace(p, env)
    ensures OpenLeavesOpen(env) <==> env.open.Done?
  {
  }

  /** The mode passed for two flow-control codes: one of them when they agree, their sum otherwise. */
  lemma FlowModeCombines(p: Params)
    requires p.flowControlIn in FlowCodes && p.flowControlOut in FlowCodes
    ensures FlowMode(p) as int ==
              if p.flowControlIn == p.flowControlOut then p.flowControlIn as int
              else p.flowControlIn as int + p.flowControlOut as int
  {
    // Each of the 25 pairs, evaluated on its literals.
    var a := p.flowControlIn;
    var b := p.flowControlOut;
    if a == 0 {
      if b == 0 {
        assert BitOr(0, 0) == 0;
      } else if b == 1 {
        assert BitOr(0, 1) == 1;
      } else if b == 2 {
        assert BitOr(0, 2) == 2;
      } else if b == 4 {
        assert BitOr(0, 4) == 4;
      } else if b == 8 {
        assert BitOr(0, 8) == 8;
      }
    } else if a == 1 {
      if b == 0 {
        assert BitOr(1, 0) == 1;
      } else if b == 1 {
        assert BitOr(1, 1) == 1;
      } else if b == 2 {
        assert BitOr(1, 2) == 3;
      } else if b == 4 {
        assert BitOr(1, 4) == 5;
      } else if b == 8 {
        assert BitOr(1, 8) == 9;
      }
    } else if a == 2 {
      if b == 0 {
        assert BitOr(2, 0) == 2;
      } else if b == 1 {
        assert BitOr(2, 1) == 3;
      } else if b == 2 {
        assert BitOr(2, 2) == 2;
      } else if b == 4 {
        assert BitOr(2, 4) == 6;
      } else if b == 8 {
        assert BitOr(2, 8) == 10;
      }
    } else if a == 4 {
      if b == 0 {
        assert BitOr(4, 0) == 4;
      } else if b == 1 {
        assert BitOr(4, 1) == 5;
      } else if b == 2 {
        assert BitOr(4, 2) == 6;
      } else if b == 4 {
        assert BitOr(4, 4) == 4;
      } else if b == 8 {
        assert BitOr(4, 8) == 12;
      }
    } else if a == 8 {
      if b == 0 {
        assert BitOr(8, 0) == 8;
      } else if b == 1 {
        assert BitOr(8, 1) == 9;
      } else if b == 2 {
        assert BitOr(8, 2) == 10;
      } else if b == 4 {
        assert BitOr(8, 4) == 12;
      } else if b == 8 {
        assert BitOr(8, 8) == 8;
      }
    }
  }

  // ---------------------------------------------------------------------
  // Reads
  // ---------------------------------------------------------------------

  /** The answer of `getInputBufferBytesCount()`. */
  datatype CountReply = Count(available: int32) | CountFault(message: string)

  /** The answer of the jssc read. */
  datatype ReadReply =
    | Chunk(data: seq<uint8>)
    | NullChunk
    | TimedOut                     // SerialPortTimeoutException
    | ReadFault(message: string)   // SerialPortException

  /** What the driver does before any byte is read: issue a read, or fail on the byte count. */
  datatype ReadStep = Issue(request: ReadRequest) | CountFailed(message: string)

  /** The read a Length-byte `Read` issues under the receive timeout `timeout`. */
  function ChooseRead(timeout: int32, length: int32, count: CountReply): (r: ReadStep)
    ensures timeout > 0 ==> r == Issue(TimedRead(length, timeout))
    ensures r.CountFailed? <==> timeout <= 0 && count.CountFault?
  {
    if timeout > 0 then Issue(TimedRead(length, timeout))
    else
      match count
      case CountFault(m) => CountFailed(m)
      case Count(available) =>
        if available > length then Issue(ReadCount(length)) else Issue(ReadAvailable)
  }

  /** How many bytes a request asks for when `available` bytes are buffered. */
  function Requested(req: ReadRequest, available: int): int {
    match req
    case TimedRead(count, _) => count as int
    case ReadCount(count) => count as int
    case ReadAvailable => available
  }

  /** Without a timeout, a read asks for as many bytes as are buffered, but never more than Length. */
  lemma UntimedReadTakesAtMostLength(timeout: int32, length: int32, available: int32)
    requires timeout <= 0
    ensures var step := ChooseRead(timeout, length, Count(available));
            step.Issue? && !step.request.TimedRead?
            && Requested(step.request, available as int) == if available > length then length as int else available as int
  {
  }

  /** The port calls a Length-byte `Read` makes. */
  function ReadTrace(timeout: int32, length: int32, count: CountReply): seq<PortCall> {
    var probe := if timeout > 0 then [] else [GetInputBufferBytesCount];
    match ChooseRead(timeout, length, count)
    case CountFailed(_) => probe
    case Issue(req) => probe + [ReadBytes(req)]
  }

  /**
   * What a read into a buffer of `capacity` bytes returns: the number of
   * bytes copied, 0 for a null chunk or one that does not fit, -1 on a
   * timeout; a port error becomes a driver exception.
   */
  function ReadOutcome(capacity: nat, reply: ReadReply): (r: DriverResult<int32>)
    requires capacity <= INT_MAX
    ensures r.Ok? ==> -1 <= r.value as int <= capacity
    ensures r == Ok(-1) <==> reply.TimedOut?
    ensures r.Raised? <==> reply.ReadFault?
    ensures r.Ok? && r.value > 0 ==> reply.Chunk? && |reply.data| == r.value as int
    ensures reply.Chunk? && |reply.data| <= capacity ==> r == Ok(|reply.data| as int32)
    ensures reply.NullChunk? || (reply.Chunk? && |reply.data| > capacity) ==> r == Ok(0)
    ensures !r.Unchecked?
  {
    match reply
    case Chunk(data) => if |data| <= capacity then Ok(|data| as int32) else Ok(0)
    case NullChunk => Ok(0)
    case TimedOut => Ok(-1)
    case ReadFault(m) => Raised(m)
  }

  /** What a Length-byte `Read` into a buffer of `capacity` bytes returns. */
  function ReadResult(timeout: int32, length: int32, count: CountReply, reply: ReadReply, capacity: nat)
    : DriverResult<int32>
    requires capacity <= INT_MAX
  {
    match ChooseRead(timeout, length, count)
    case CountFailed(m) => Raised(m)
    case Issue(_) => ReadOutcome(capacity, reply)
  }

  /** `Read()`'s value for one reply: the first byte, signed, 0 for an empty chunk, -1 on a timeout. */
  function ByteOutcome(reply: ReadReply): (r: DriverResult<int32>)
    requires !reply.NullChunk?
    ensures r.Ok? ==> -128 <= r.value < 128
    ensures r.Raised? <==> reply.ReadFault?
    ensures reply.Chunk? && |reply.data| > 0 ==> r == Ok(SignedByte(reply.data[0]) as int32)
    ensures reply.Chunk? && |reply.data| == 0 ==> r == Ok(0)
    ensures reply.TimedOut? ==> r == Ok(-1)
    ensures !r.Unchecked?
  {
    match reply
    case Chunk(data) => if |data| > 0 then Ok(SignedByte(data[0]) as int32) else Ok(0)
    case TimedOut => Ok(-1)
    case ReadFault(m) => Raised(m)
  }

  /** The byte 0xFF reads as -1, the value that also means a timeout. */
  lemma ByteFFLooksLikeTimeout()
    ensures ByteOutcome(Chunk([255])) == ByteOutcome(TimedOut)
  {
  }

  /** Apart from 0xFF, no byte reads as -1. */
  lemma OnlyByteFFReadsMinusOne(b: uint8)
    ensures ByteOutcome(Chunk([b])) == Ok(-1) <==> b == 255
  {
  }

  /** Everything that is not a CTS or DSR change is dropped; RXCHAR is checked first. */
  datatype Notification = Notification(mask: int32, value: int32)

  /** The notification `serialEvent` passes to the driver's listener for an event. */
  function Forwarded(eventType: int32, value: int32): (r: Option<Notification>)
    ensures r.Some? <==> eventType in {MASK_CTS, MASK_DSR}
    ensures r.Some? ==> r.value == Notification(eventType, value)
  {
    if eventType == MASK_RXCHAR then None
    else if eventType == MASK_CTS then Some(Notification(MASK_CTS, value))
    else if eventType == MASK_DSR then Some(Notification(MASK_DSR, value))
    else None
  }

  // ---------------------------------------------------------------------
  // The driver
  // ---------------------------------------------------------------------

  class SerialJssc {
    /** The parameter object; shared with whoever passed it in. */
    const params: SerialParameters
    /** The jssc port, created by `Open`. */
    var port: Port?
    /** The notifications passed to the driver's listener, oldest first. */
    var notifications: seq<Notification>

    /** `new SerialJSSC(name)`: default parameters under that name. */
    constructor (name: string)
      ensures fresh(params) && port == null && notifications == []
      ensures params.Values() == Params(Some(name), "", BAUDRATE_9600, FLOWCONTROL_NONE, FLOWCONTROL_NONE,
                                        DATABITS_8, STOPBITS_1, PARITY_NONE, false, DEFAULT_RECEIVE_TIMEOUT)
    {
      params := new SerialParameters(name);
      port := null;
      notifications := [];
    }

    /** `new SerialJSSC(name, portName)`: default parameters on that port. */
    constructor WithPortName(name: string, portName: string)
      ensures fresh(params) && port == null && notifications == []
      ensures params.Values() == Params(Some(name), portName, BAUDRATE_9600, FLOWCONTROL_NONE, FLOWCONTROL_NONE,
                                        DATABITS_8, STOPBITS_1, PARITY_NONE, false, DEFAULT_RECEIVE_TIMEOUT)
    {
      var p := new SerialParameters(name);
      p.SetPortName(portName);
      params := p;
      port := null;
      notifications := [];
    }

    /** `new SerialJSSC(parameters)`: the driver uses the caller's object, not a copy. */
    constructor FromParameters(parameters: SerialParameters)
      ensures params == parameters && port == null && notifications == []
    {
      params := parameters;
      port := null;
      notifications := [];
    }

    function GetPortName(): string
      reads params
    {
      params.portName
    }

    /**
     * `Open()`: first the port-name check, whose PatternSyntaxException
     * escapes before any port exists; then a new port on the configured
     * name, opened and configured, rolled back by a close when configuration
     * or listener setup fails.
     */
    method Open(scan: PortScan, env: OpenEnv) returns (r: DriverResult<()>)
      modifies this
      ensures ScanFailure(scan).Some? ==> r == Unchecked(ScanFailure(scan).value) && port == old(port)
      ensures ScanFailure(scan).None? ==>
                && r == OpenResult(env)
                && port != null && fresh(port) && port.name == params.portName
                && port.calls == OpenTrace(params.Values(), env)
                && port.isOpen == OpenLeavesOpen(env) && !port.rts
      ensures notifications == old(notifications)
    {
      var escaped := ScanFailure(scan);
      if escaped.Some? {
        return Unchecked(escaped.value);
      }
      var p := new Port(params.portName);
      port := p;
      p.Invoke(OpenPort, env.open);
      if env.open.Failed? {
        return Raised(env.open.message);
      }
      var failure := SetConnectionParameters(p, env.setParams, env.setFlow);
      if failure.Some? {
        p.Invoke(ClosePort, env.close);
        return Raised(failure.value);
      }
      p.Invoke(AddEventListener, env.addListener);
      if env.addListener.Failed? {
        p.Invoke(ClosePort, env.close);
        return Raised(env.addListener.message);
      }
      p.Invoke(SetEventsMask(MASK_CTS), env.setMask);
      if env.setMask.Failed? {
        return Raised(env.setMask.message);
      }
      return Ok(());
    }

    /** `setConnectionParameters()`: line settings, then the combined flow-control mode; the exception, if any. */
    method SetConnectionParameters(p: Port, setParams: Status, setFlow: Status) returns (failure: Option<string>)
      modifies p
      ensures failure == ConnectionFailure(OpenEnv(Done, setParams, setFlow, Done, Done, Done))
      ensures p.calls == old(p.calls) + [SetParams(params.baudRate, params.databits, params.stopbits, params.parity)]
                         + (if setParams.Done? then [SetFlowControlMode(FlowMode(params.Values()))] else [])
      ensures p.isOpen == old(p.isOpen) && p.rts == old(p.rts)
    {
      p.Invoke(SetParams(params.baudRate, params.databits, params.stopbits, params.parity), setParams);
      if setParams.Failed? {
        return Some("Unsupported parameter");
      }
      p.Invoke(SetFlowControlMode(BitOr(params.flowControlIn, params.flowControlOut)), setFlow);
      if setFlow.Failed? {
        return Some("Unsupported flow control");
      }
      return None;
    }

    /** `Flush()`: purge both directions. */
    method Flush(s: Status) returns (r: DriverResult<()>)
      requires port != null
      modifies port
      ensures port.calls == old(port.calls) + [PurgePort(BitOr(PURGE_RXCLEAR, PURGE_TXCLEAR))]
      ensures port.isOpen == old(port.isOpen) && port.rts == old(port.rts)
      ensures r == Outcome(s, ())
    {
      port.Invoke(PurgePort(BitOr(PURGE_RXCLEAR, PURGE_TXCLEAR)), s);
      return Outcome(s, ());
    }

    /** `Close()`: close the port; it stays open only when the close fails. */
    method Close(s: Status) returns (r: DriverResult<()>)
      requires port != null
      modifies port
      ensures port.calls == old(port.calls) + [ClosePort]
      ensures port.isOpen == (old(port.isOpen) && s.Failed?) && port.rts == old(port.rts)
      ensures r == Outcome(s, ())
    {
      port.Invoke(ClosePort, s);
      return Outcome(s, ());
    }

    /** `Write(Buffer, Length)`: sends exactly the first Length bytes and returns Length. */
    method WritePrefix(buffer: array<uint8>, length: int32, s: Status) returns (r: DriverResult<int32>)
      requires port != null
      requires 0 <= length as int <= buffer.Length
      modifies port
      ensures port.calls == old(port.calls) + [WriteBytes(buffer[..length])]
      ensures port.isOpen == old(port.isOpen) && port.rts == old(port.rts)
      ensures r == Outcome(s, length)
    {
      var b := buffer[..length];
      port.Invoke(WriteBytes(b), s);
      return Outcome(s, length);
    }

    /** `Write(Buffer)`: sends the whole buffer and returns its length. */
    method Write(buffer: array<uint8>, s: Status) returns (r: DriverResult<int32>)
      requires port != null
      requires buffer.Length <= INT_MAX
      modifies port
      ensures port.calls == old(port.calls) + [WriteBytes(buffer[..])]
      ensures port.isOpen == old(port.isOpen) && port.rts == old(port.rts)
      ensures r == Outcome(s, buffer.Length as int32)
    {
      port.Invoke(WriteBytes(buffer[..]), s);
      return Outcome(s, buffer.Length as int32);
    }

    /**
     * `Read(Buffer, Length)`: choose the read, then copy the chunk to the
     * front of the buffer when it fits. The rest of the buffer, and all of it
     * when nothing is copied, keeps its old contents.
     */
    method ReadPrefix(buffer: array<uint8>, length: int32, count: CountReply, reply: ReadReply)
      returns (r: DriverResult<int32>)
      requires port != null
      requires buffer.Length <= INT_MAX
      modifies port, buffer
      ensures port.calls == old(port.calls) + ReadTrace(params.receiveTimeout, length, count)
      ensures port.isOpen == old(port.isOpen) && port.rts == old(port.rts)
      ensures r == ReadResult(params.receiveTimeout, length, count, reply, buffer.Length)
      ensures r.Ok? && r.value > 0 ==>
                buffer[..r.value] == reply.data && buffer[r.value..] == old(buffer[r.value..])
      ensures !(r.Ok? && r.value > 0) ==> buffer[..] == old(buffer[..])
    {
      var timeout := params.receiveTimeout;
      var req: ReadRequest;
      if timeout > 0 {
        req := TimedRead(length, timeout);
      } else {
        port.Invoke(GetInputBufferBytesCount, if count.CountFault? then Failed(count.message) else Done);
        if count.CountFault? {
          return Raised(count.message);
        }
        if count.available > length {
          req := ReadCount(length);
        } else {
          req := ReadAvailable;
        }
      }
      port.Invoke(ReadBytes(req), if reply.ReadFault? then Failed(reply.message) else Done);
      r := ReadOutcome(buffer.Length, reply);
      if reply.Chunk? && |reply.data| <= buffer.Length {
        CopyChunk(buffer, reply.data);
      }
    }

    /** `Read(Buffer)`: a `Read` of the buffer's own length, so what it returns fits the buffer. */
    method Read(buffer: array<uint8>, count: CountReply, reply: ReadReply) returns (r: DriverResult<int32>)
      requires port != null
      requires buffer.Length <= INT_MAX
      modifies port, buffer
      ensures port.calls == old(port.calls) + ReadTrace(params.receiveTimeout, buffer.Length as int32, count)
      ensures port.isOpen == old(port.isOpen) && port.rts == old(port.rts)
      ensures r == ReadResult(params.receiveTimeout, buffer.Length as int32, count, reply, buffer.Length)
      ensures r.Ok? && r.value != -1 ==> 0 <= r.value as int <= buffer.Length
      ensures r.Ok? && r.value > 0 ==>
                buffer[..r.value] == reply.data && buffer[r.value..] == old(buffer[r.value..])
      ensures !(r.Ok? && r.value > 0) ==> buffer[..] == old(buffer[..])
    {
      r := ReadPrefix(buffer, buffer.Length as int32, count, reply);
    }

    /** `Read()`: one byte, as a signed value, or -1 on a timeout. */
    method ReadByte(reply: ReadReply) returns (r: DriverResult<int32>)
      requires port != null
      requires !reply.NullChunk?
      modifies port
      ensures port.calls == old(port.calls) +
                [ReadBytes(if params.receiveTimeout > 0 then TimedRead(1, params.receiveTimeout) else ReadCount(1))]
      ensures port.isOpen == old(port.isOpen) && port.rts == old(port.rts)
      ensures r == ByteOutcome(reply)
    {
      var req := if params.receiveTimeout > 0 then TimedRead(1, params.receiveTimeout) else ReadCount(1);
      port.Invoke(ReadBytes(req), if reply.ReadFault? then Failed(reply.message) else Done);
      r := ByteOutcome(reply);
    }

    /** `serialEvent`: CTS and DSR changes go to the driver's listener; everything else is dropped. */
    method SerialEvent(eventType: int32, value: int32)
      modifies this
      ensures port == old(port)
      ensures notifications == old(notifications) +
                (if Forwarded(eventType, value).Some? then [Forwarded(eventType, value).value] else [])
    {
      if eventType == MASK_RXCHAR {
      } else if eventType == MASK_CTS {
        notifications := notifications + [Notification(MASK_CTS, value)];
      } else if eventType == MASK_DSR {
        notifications := notifications + [Notification(MASK_DSR, value)];
      }
    }

    /** `IoControl(Code, Arg)`: SERIAL_SET_RTS drives RTS high for a positive Arg and low otherwise, returning 0; any other code returns -1 untouched. */
    method IoControl(code: int32, arg: int32, s: Status) returns (r: DriverResult<int32>)
      requires port != null
      modifies port
      ensures code == SERIAL_SET_RTS ==>
                port.calls == old(port.calls) + [SetRts(arg > 0)]
                && port.rts == (if s.Done? then arg > 0 else old(port.rts))
                && r == Outcome(s, 0)
      ensures code != SERIAL_SET_RTS ==>
                port.calls == old(port.calls) && port.rts == old(port.rts) && r == Ok(-1)
      ensures port.isOpen == old(port.isOpen)
    {
      if code == SERIAL_SET_RTS {
        port.Invoke(SetRts(arg > 0), s);
        return Outcome(s, 0);
      }
      return Ok(-1);
    }
  }

  /** Copies `data` to the front of `buffer`, as `System.arraycopy(b, 0, Buffer, 0, b.length)`. */
  method CopyChunk(buffer: array<uint8>, data: seq<uint8>)
    requires |data| <= buffer.Length
    modifies buffer
    ensures buffer[..|data|] == data
    ensures buffer[|data|..] == old(buffer[|data|..])
  {
    var i := 0;
    while i < |data|
      invariant 0 <= i <= |data|
      invariant buffer[..i] == data[..i]
      invariant buffer[i..] == old(buffer[i..])
    {
      buffer[i] := data[i];
      i := i + 1;
    }
  }
}
