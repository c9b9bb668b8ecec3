/**
 * The X4SM session: a TCP driver, a running flag, the listener list, the
 * per-chunk framer that splits what one read returns on CR LF and hands
 * each piece to the message parser, and the command senders.
 *
 * The TCP client and the message parser are not part of this model: the
 * client's answers are parameters, the parser is a function parameter, and
 * the reader thread's loop runs over a given sequence of read answers.
 */
module X4smComm {
  import opened JavaInt
  import opened JavaText
  import opened CalDriver
  import opened X4smMessages

  /** A registered listener, by identity. */
  type ListenerId = nat

  // ---------------------------------------------------------------------
  // The listener list
  // ---------------------------------------------------------------------

  /** Where `x` first occurs in `s`, or -1, as `ArrayList.indexOf`. */
  function IndexOf(s: seq<ListenerId>, x: ListenerId): (i: int)
    ensures -1 <= i < |s|
    ensures i < 0 <==> x !in s
    ensures i >= 0 ==> s[i] == x && x !in s[..i]
    decreases |s|
  {
    if s == [] then -1
    else if s[0] == x then 0
    else
      var j := IndexOf(s[1..], x);
      if j < 0 then -1
      else
        assert s[..j + 1] == [s[0]] + s[1..][..j];
        j + 1
  }

  /** `ArrayList.remove(Object)`: drops the first occurrence of `x`, and nothing when there is none. */
  function RemoveFirst(s: seq<ListenerId>, x: ListenerId): (r: seq<ListenerId>)
    ensures x !in s ==> r == s
    ensures |r| == if x in s then |s| - 1 else |s|
    decreases |s|
  {
    if s == [] then []
    else if s[0] == x then s[1..]
    else
      assert s == [s[0]] + s[1..];
      [s[0]] + RemoveFirst(s[1..], x)
  }

  /** What removal leaves: the elements before the first `x` and those after it. */
  lemma {:induction false} RemoveFirstAt(s: seq<ListenerId>, x: ListenerId)
    requires x in s
    ensures RemoveFirst(s, x) == s[..IndexOf(s, x)] + s[IndexOf(s, x) + 1..]
    decreases |s|
  {
    if s[0] != x {
      assert x in s[1..] by {
        var k :| 0 <= k < |s| && s[k] == x;
        assert s[1..][k - 1] == x;
      }
      RemoveFirstAt(s[1..], x);
      var j := IndexOf(s[1..], x);
      assert s[..j + 1] == [s[0]] + s[1..][..j];
      assert s[j + 2..] == s[1..][j + 1..];
    }
  }

  /** Removal takes away exactly one registration of `x`, when there is one, and keeps every other. */
  lemma {:induction false} RemoveFirstMultiset(s: seq<ListenerId>, x: ListenerId)
    ensures multiset(RemoveFirst(s, x)) == multiset(s) - multiset{x}
    decreases |s|
  {
    if s != [] {
      assert s == [s[0]] + s[1..];
      if s[0] != x {
        RemoveFirstMultiset(s[1..], x);
        assert multiset(s) == multiset{s[0]} + multiset(s[1..]);
        assert RemoveFirst(s, x) == [s[0]] + RemoveFirst(s[1..], x);
      }
    }
  }

  /** Removing a listener just registered for the first time restores the list. */
  lemma RemoveUndoesRegister(s: seq<ListenerId>, x: ListenerId)
    requires x !in s
    ensures RemoveFirst(s + [x], x) == s
  {
    assert (s + [x])[..|s|] == s;
    assert IndexOf(s + [x], x) == |s|;
    RemoveFirstAt(s + [x], x);
  }

  /** The list keeps duplicates: after registering `x` again, one removal leaves the earlier registrations in place. */
  lemma RegisterKeepsDuplicates(s: seq<ListenerId>, x: ListenerId)
    ensures multiset(RemoveFirst(s + [x], x))[x] == multiset(s)[x]
    ensures x in s ==> x in RemoveFirst(s + [x], x)
  {
    RemoveFirstMultiset(s + [x], x);
    assert multiset(s + [x]) == multiset(s) + multiset{x};
    if x in s {
      assert multiset(RemoveFirst(s + [x], x))[x] > 0;
    }
  }

  // ---------------------------------------------------------------------
  // The TCP client
  // ---------------------------------------------------------------------

  /** A call the session makes on its TCP client. */
  datatype DriverCall = Open | DriverStart | AddListener | RemoveListener | DriverStop | Close
                      | Write(data: seq<uint8>) | Read

  /** The client counts as open from a successful Open to a successful Close. */
  function OpenAfter(wasOpen: bool, c: DriverCall, s: Status): bool {
    if s.Failed? then wasOpen
    else if c.Open? then true
    else if c.Close? then false
    else wasOpen
  }

  /** The client's answer to `Read(buffer)`: the bytes it put at the front of the buffer, or an exception. An empty answer stands for any count that is not positive. */
  datatype TcpRead = Received(data: seq<uint8>) | ReadFailed(message: string)

  /** The TCP client: its address, whether it is open, and the calls made on it. */
  class TcpClient {
    var address: string
    const port: int32
    var isOpen: bool
    var calls: seq<DriverCall>

    constructor (address: string, port: int32)
      ensures this.address == address && this.port == port && !isOpen && calls == []
    {
      this.address := address;
      this.port := port;
      isOpen := false;
      calls := [];
    }

    method SetIpAddress(value: string)
      modifies this
      ensures address == value && isOpen == old(isOpen) && calls == old(calls)
    {
      address := value;
    }

    /** One call, answered with `s`. */
    method Invoke(c: DriverCall, s: Status)
      modifies this
      ensures calls == old(calls) + [c]
      ensures isOpen == OpenAfter(old(isOpen), c, s)
      ensures address == old(address)
    {
      calls := calls + [c];
      isOpen := OpenAfter(isOpen, c, s);
    }

    /** `Read(buffer)`: the received bytes go to the front of the buffer and their count is returned. */
    method ReadInto(buffer: array<uint8>, answer: TcpRead) returns (r: DriverResult<int32>)
      requires buffer.Length <= INT_MAX
      requires answer.Received? ==> |answer.data| <= buffer.Length
      modifies this, buffer
      ensures calls == old(calls) + [Read] && isOpen == old(isOpen) && address == old(address)
      ensures answer.Received? ==> r == Ok(|answer.data| as int32) && buffer[..|answer.data|] == answer.data
      ensures answer.ReadFailed? ==> r == Raised(answer.message)
    {
      calls := calls + [Read];
      match answer
      case ReadFailed(m) =>
        return Raised(m);
      case Received(data) =>
        forall i | 0 <= i < |data| {
          buffer[i] := data[i];
        }
        return Ok(|data| as int32);
    }
  }

  // ---------------------------------------------------------------------
  // The framer
  // ---------------------------------------------------------------------

  /** What `parseData()` does with one frame: a message, null, or an X4smException. */
  datatype ParseOutcome = Recognised(message: Message) | NotRecognised | ParseFailed(reason: string)

  /** A message handed to `fireEvent` with the listener list of that moment. */
  datatype Fired = Fired(message: Message, listeners: seq<ListenerId>)

  /** The events one frame gives: one for a recognised message, none otherwise. */
  function Dispatch(frame: string, parse: string -> ParseOutcome, listeners: seq<ListenerId>): seq<Fired> {
    match parse(frame)
    case Recognised(m) => [Fired(m, listeners)]
    case _ => []
  }

  /** The events of a run of frames, in frame order. */
  function Dispatches(frames: seq<string>, parse: string -> ParseOutcome, listeners: seq<ListenerId>)
    : (r: seq<Fired>)
    ensures |r| <= |frames|
    ensures forall k | 0 <= k < |r| :: r[k].listeners == listeners
    decreases |frames|
  {
    if frames == [] then []
    else Dispatches(frames[..|frames| - 1], parse, listeners) + Dispatch(frames[|frames| - 1], parse, listeners)
  }

  /** One more frame handled: a log holding the events of the first `i` frames, extended by frame `i`'s events, holds those of the first `i + 1`. */
  lemma DispatchesStep(frames: seq<string>, i: nat, parse: string -> ParseOutcome, listeners: seq<ListenerId>,
                       base: seq<Fired>, before: seq<Fired>, after: seq<Fired>)
    requires i < |frames|
    requires before == base + Dispatches(frames[..i], parse, listeners)
    requires after == before + Dispatch(frames[i], parse, listeners)
    ensures after == base + Dispatches(frames[..i + 1], parse, listeners)
  {
    assert frames[..i + 1][..i] == frames[..i];
  }

  /** The events one read chunk gives: its frames are the pieces between CR LF pairs, as `String.split("\r\n")` cuts them. */
  function ChunkEvents(chunk: seq<uint8>, parse: string -> ParseOutcome, listeners: seq<ListenerId>): seq<Fired> {
    Dispatches(Split(Decode(chunk)), parse, listeners)
  }

  /** Frames are handled independently: the events of two runs are the events of each. */
  lemma {:induction false} DispatchesAppend(a: seq<string>, b: seq<string>, parse: string -> ParseOutcome,
                                             listeners: seq<ListenerId>)
    ensures Dispatches(a + b, parse, listeners) == Dispatches(a, parse, listeners) + Dispatches(b, parse, listeners)
    decreases |b|
  {
    if b == [] {
      assert a + b == a;
    } else {
      var front := b[..|b| - 1];
      assert (a + b)[..|a + b| - 1] == a + front;
      assert (a + b)[|a + b| - 1] == b[|b| - 1];
      DispatchesAppend(a, front, parse, listeners);
    }
  }

  /** A frame the parser rejects, or does not recognise, is skipped and the frames after it are still handled. */
  lemma FailedFrameIsSkipped(a: seq<string>, frame: string, b: seq<string>, parse: string -> ParseOutcome,
                             listeners: seq<ListenerId>)
    requires !parse(frame).Recognised?
    ensures Dispatches(a + [frame] + b, parse, listeners) == Dispatches(a + b, parse, listeners)
  {
    var f := [frame];
    assert Dispatches(f, parse, listeners) == [] by {
      assert f[..0] == [];
    }
    calc {
      Dispatches(a + f + b, parse, listeners);
      { DispatchesAppend(a + f, b, parse, listeners); }
      Dispatches(a + f, parse, listeners) + Dispatches(b, parse, listeners);
      { DispatchesAppend(a, f, parse, listeners); }
      Dispatches(a, parse, listeners) + Dispatches(b, parse, listeners);
      { DispatchesAppend(a, b, parse, listeners); }
      Dispatches(a + b, parse, listeners);
    }
  }

  /** A frame followed by its CR LF is one piece. */
  lemma TerminatedFrame(f: string)
    requires f != "" && !ContainsCrlf(f)
    ensures Split(f + CRLF) == [f]
  {
    PiecesAppendCrlf(f);
    SplitWithoutTerminator(f);
    assert Pieces(f) == [f];
    assert Empties(1) == [""];
    DropEmpties([f], 1);
  }

  /**
   * No partial frame is carried from one read to the next: a frame whose
   * bytes arrive in two reads is handled as two frames, where one read of
   * the same bytes gives one.
   */
  lemma ChunkBoundarySplitsFrame(a: string, b: string)
    requires a != "" && b != "" && !ContainsCrlf(a + b)
    ensures Split(a) + Split(b + CRLF) == [a, b]
    ensures Split(a + b + CRLF) == [a + b]
  {
    assert !ContainsCrlf(a) by {
      forall i | 0 <= i < |a| ensures !CrlfAt(a, i) {
        assert !CrlfAt(a + b, i);
      }
    }
    assert !ContainsCrlf(b) by {
      forall i | 0 <= i < |b| ensures !CrlfAt(b, i) {
        assert !CrlfAt(a + b, |a| + i);
      }
    }
    SplitWithoutTerminator(a);
    TerminatedFrame(b);
    TerminatedFrame(a + b);
  }

  /** The events one reader-loop step gives: those of the chunk, when the read returned a positive count. */
  function StepEvents(answer: TcpRead, parse: string -> ParseOutcome, listeners: seq<ListenerId>): seq<Fired> {
    match answer
    case Received(data) => if |data| > 0 then ChunkEvents(data, parse, listeners) else []
    case ReadFailed(_) => []
  }

  /** What each reader-loop step delivers, for a parser and a listener list. */
  function Steps(parse: string -> ParseOutcome, listeners: seq<ListenerId>): TcpRead -> seq<Fired> {
    answer => StepEvents(answer, parse, listeners)
  }

  /** The events of successive reader-loop steps, in order, each step's events given by `step`. */
  function RunEvents(answers: seq<TcpRead>, step: TcpRead -> seq<Fired>): seq<Fired>
    decreases |answers|
  {
    if answers == [] then []
    else RunEvents(answers[..|answers| - 1], step) + step(answers[|answers| - 1])
  }

  /** Reader-loop steps are independent: the events of two runs of steps are the events of each. */
  lemma {:induction false} RunEventsAppend(a: seq<TcpRead>, b: seq<TcpRead>, step: TcpRead -> seq<Fired>)
    ensures RunEvents(a + b, step) == RunEvents(a, step) + RunEvents(b, step)
    decreases |b|
  {
    if b == [] {
      assert a + b == a;
    } else {
      var front := b[..|b| - 1];
      assert (a + b)[..|a + b| - 1] == a + front;
      assert (a + b)[|a + b| - 1] == b[|b| - 1];
      RunEventsAppend(a, front, step);
    }
  }

  /** One more pass of the loop: a log holding the events of the first `i` steps, extended by step `i`'s events, holds those of the first `i + 1`. */
  lemma RunEventsStep(answers: seq<TcpRead>, i: nat, step: TcpRead -> seq<Fired>,
                      base: seq<Fired>, before: seq<Fired>, after: seq<Fired>)
    requires i < |answers|
    requires before == base + RunEvents(answers[..i], step)
    requires after == before + step(answers[i])
    ensures after == base + RunEvents(answers[..i + 1], step)
  {
    assert answers[..i + 1][..i] == answers[..i];
  }

  /** A failed read is swallowed: the steps after it deliver their events as if it had not happened. */
  lemma FailedReadIsSkipped(a: seq<TcpRead>, message: string, b: seq<TcpRead>,
                            parse: string -> ParseOutcome, listeners: seq<ListenerId>)
    ensures RunEvents(a + [ReadFailed(message)] + b, Steps(parse, listeners))
            == RunEvents(a + b, Steps(parse, listeners))
  {
    var step := Steps(parse, listeners);
    var f := [ReadFailed(message)];
    assert RunEvents(f, step) == [] by {
      assert f[..0] == [];
      assert step(f[0]) == [];
    }
    calc {
      RunEvents(a + f + b, step);
      { RunEventsAppend(a + f, b, step); }
      RunEvents(a + f, step) + RunEvents(b, step);
      { RunEventsAppend(a, f, step); }
      RunEvents(a, step) + RunEvents(b, step);
      { RunEventsAppend(a, b, step); }
      RunEvents(a + b, step);
    }
  }

  // ---------------------------------------------------------------------
  // Start and Stop
  // ---------------------------------------------------------------------

  /** How the client answers Open, Start and addEventListener in `Start`, and the rollback Close. */
  datatype StartEnv = StartEnv(open: Status, start: Status, addListener: Status, close: Status)

  function StartFails(env: StartEnv): bool {
    env.open.Failed? || env.start.Failed? || env.addListener.Failed?
  }

  /** The calls of the setup block, up to the first that throws. */
  function SetupCalls(env: StartEnv): seq<DriverCall> {
    if env.open.Failed? then [Open]
    else if env.start.Failed? then [Open, DriverStart]
    else [Open, DriverStart, AddListener]
  }

  /** Whether the client reports itself open when the setup block ends. */
  function OpenAfterSetup(env: StartEnv, wasOpen: bool): bool {
    wasOpen || env.open.Done?
  }

  /** The calls a `Start` on a stopped session makes: the setup, then a Close when it failed with the client open. */
  function StartTrace(env: StartEnv, wasOpen: bool): seq<DriverCall> {
    SetupCalls(env) + (if StartFails(env) && OpenAfterSetup(env, wasOpen) then [Close] else [])
  }

  /** Whether the client is open when that `Start` returns. */
  function StartLeavesOpen(env: StartEnv, wasOpen: bool): bool {
    OpenAfterSetup(env, wasOpen) && (StartFails(env) ==> env.close.Failed?)
  }

  /** A failed start closes an open client as its last call; the client stays open only if that close fails. */
  lemma StartRollsBack(env: StartEnv, wasOpen: bool)
    requires StartFails(env) && OpenAfterSetup(env, wasOpen)
    ensures var t := StartTrace(env, wasOpen); t[|t| - 1] == Close && Close !in t[..|t| - 1]
    ensures StartLeavesOpen(env, wasOpen) <==> env.close.Failed?
  {
  }

  /** A client that was closed and could not be opened is not closed again; a successful start closes nothing and leaves it open. */
  lemma StartClosesOnlyWhatIsOpen(env: StartEnv, wasOpen: bool)
    requires !StartFails(env) || !OpenAfterSetup(env, wasOpen)
    ensures Close !in StartTrace(env, wasOpen)
    ensures StartLeavesOpen(env, wasOpen) <==> OpenAfterSetup(env, wasOpen)
    ensures !StartFails(env) ==> StartTrace(env, wasOpen) == [Open, DriverStart, AddListener]
  {
  }

  /** How the client answers removeEventListener, Stop and Close in `Stop`. */
  datatype StopEnv = StopEnv(removeListener: Status, stop: Status, close: Status)

  /** The calls of `Stop`'s single try block: the first that throws ends it. */
  function StopTrace(env: StopEnv): seq<DriverCall> {
    if env.removeListener.Failed? then [RemoveListener]
    else if env.stop.Failed? then [RemoveListener, DriverStop]
    else [RemoveListener, DriverStop, Close]
  }

  /** The client is closed by `Stop` only when all three calls succeed. */
  lemma StopClosesOnlyWhenAllSucceed(env: StopEnv, wasOpen: bool)
    ensures Close in StopTrace(env) <==> env.removeListener.Done? && env.stop.Done?
    ensures var t := StopTrace(env);
            (OpenAfter(wasOpen, t[|t| - 1], if t[|t| - 1] == Close then env.close else Done)
             <==> wasOpen && !(env.removeListener.Done? && env.stop.Done? && env.close.Done?))
  {
  }

  // ---------------------------------------------------------------------
  // The session
  // ---------------------------------------------------------------------

  class Session {
    const name: string
    var ipAddress: string
    const port: int32
    const driver: TcpClient
    var running: bool
    var listeners: seq<ListenerId>
    /** The events handed to `fireEvent`, oldest first. */
    var fired: seq<Fired>

    /** `new X4smComm(ip, port)`: a stopped session with a fresh client on that address and no listeners. */
    constructor (ipAddress: string, port: int32)
      ensures name == "X4smComm" && this.ipAddress == ipAddress && this.port == port
      ensures fresh(driver) && driver.address == ipAddress && driver.port == port
      ensures !driver.isOpen && driver.calls == []
      ensures !running && listeners == [] && fired == []
    {
      name := "X4smComm";
      this.ipAddress := ipAddress;
      this.port := port;
      driver := new TcpClient(ipAddress, port);
      running := false;
      listeners := [];
      fired := [];
    }

    /** `setIpAddress`: the session and its client both take the new address. */
    method SetIpAddress(value: string)
      modifies this, driver
      ensures ipAddress == value && driver.address == value
      ensures driver.isOpen == old(driver.isOpen) && driver.calls == old(driver.calls)
      ensures running == old(running) && listeners == old(listeners) && fired == old(fired)
    {
      ipAddress := value;
      driver.SetIpAddress(value);
    }

    function GetIpAddress(): string
      reads this
    {
      ipAddress
    }

    function GetPort(): int32 {
      port
    }

    /**
     * `Start()`: refused while running. Otherwise the client is opened,
     * started and given this session as listener; if any of those throws,
     * an open client is closed (a failing close is ignored) and the session
     * stays stopped.
     */
    method Start(env: StartEnv) returns (ok: bool)
      modifies this, driver
      ensures old(running) ==>
                !ok && running && driver.calls == old(driver.calls) && driver.isOpen == old(driver.isOpen)
      ensures !old(running) ==>
                ok == !StartFails(env) && running == ok
                && driver.calls == old(driver.calls) + StartTrace(env, old(driver.isOpen))
                && driver.isOpen == StartLeavesOpen(env, old(driver.isOpen))
      ensures listeners == old(listeners) && fired == old(fired) && ipAddress == old(ipAddress)
      ensures driver.address == old(driver.address)
    {
      if running {
        return false;
      }
      ghost var calls0 := driver.calls;
      driver.Invoke(Open, env.open);
      if env.open.Done? {
        driver.Invoke(DriverStart, env.start);
        if env.start.Done? {
          driver.Invoke(AddListener, env.addListener);
        }
      }
      assert driver.calls == calls0 + SetupCalls(env);
      if StartFails(env) {
        if driver.isOpen {
          driver.Invoke(Close, env.close);
        }
        return false;
      }
      running := true;
      return true;
    }

    /**
     * `Stop()`: nothing when stopped. Otherwise the session stops running,
     * then removes itself from the client, stops and closes it; the first
     * call that throws ends that sequence and the exception is dropped.
     */
    method Stop(env: StopEnv)
      modifies this, driver
      ensures !old(running) ==> !running && driver.calls == old(driver.calls) && driver.isOpen == old(driver.isOpen)
      ensures old(running) ==>
                !running && driver.calls == old(driver.calls) + StopTrace(env)
                && driver.isOpen == (old(driver.isOpen) && !(env.removeListener.Done? && env.stop.Done? && env.close.Done?))
      ensures listeners == old(listeners) && fired == old(fired) && ipAddress == old(ipAddress)
      ensures driver.address == old(driver.address)
    {
      if !running {
        return;
      }
      running := false;
      driver.Invoke(RemoveListener, env.removeListener);
      if env.removeListener.Failed? {
        return;
      }
      driver.Invoke(DriverStop, env.stop);
      if env.stop.Failed? {
        return;
      }
      driver.Invoke(Close, env.close);
    }

    /** `registerEventListener`: appended, even when already present. */
    method RegisterEventListener(listener: ListenerId)
      modifies this
      ensures listeners == old(listeners) + [listener]
      ensures running == old(running) && fired == old(fired) && ipAddress == old(ipAddress)
    {
      listeners := listeners + [listener];
    }

    /** `removeEventListener`: the first registration of the listener goes, if there is one. */
    method RemoveEventListener(listener: ListenerId)
      modifies this
      ensures listeners == RemoveFirst(old(listeners), listener)
      ensures running == old(running) && fired == old(fired) && ipAddress == old(ipAddress)
    {
      listeners := RemoveFirst(listeners, listener);
    }

    /** `sendMessage`: writes the bytes of the message's text, and nothing else. */
    method SendMessage(message: Message, s: Status) returns (r: DriverResult<()>)
      modifies driver
      ensures driver.calls == old(driver.calls) + [Write(Encode(message.data))]
      ensures driver.isOpen == old(driver.isOpen) && driver.address == old(driver.address)
      ensures r == Outcome(s, ())
    {
      driver.Invoke(Write(Encode(message.data)), s);
      return Outcome(s, ());
    }

    /** `ping()`, given the text of the ping message; false exactly when the write throws. */
    method Ping(message: Message, s: Status) returns (ok: bool)
      requires message.msgType == PingType
      modifies driver
      ensures driver.calls == old(driver.calls) + [Write(Encode(message.data))]
      ensures driver.isOpen == old(driver.isOpen) && driver.address == old(driver.address)
      ensures ok <==> s.Done?
    {
      var r := SendMessage(message, s);
      ok := r.Ok?;
    }

    /** `setZone(channel, status)`, given the text of the zone message built from them; false exactly when the write throws. */
    method SetZone(message: Message, s: Status) returns (ok: bool)
      requires message.msgType == SetZoneType
      modifies driver
      ensures driver.calls == old(driver.calls) + [Write(Encode(message.data))]
      ensures driver.isOpen == old(driver.isOpen) && driver.address == old(driver.address)
      ensures ok <==> s.Done?
    {
      var r := SendMessage(message, s);
      ok := r.Ok?;
    }

    /** `getProgram(name)`: sends the GetProgram request for that name; false exactly when the write throws. */
    method GetProgram(programName: string, s: Status) returns (ok: bool)
      modifies driver
      ensures driver.calls == old(driver.calls) + [Write(Encode(EncodeGetProgram(programName)))]
      ensures driver.isOpen == old(driver.isOpen) && driver.address == old(driver.address)
      ensures ok <==> s.Done?
    {
      var r := SendMessage(GetProgramMessage(programName), s);
      ok := r.Ok?;
    }

    /** `getConfig()`, given the text of the config request; false exactly when the write throws. */
    method GetConfig(message: Message, s: Status) returns (ok: bool)
      requires message.msgType == GetConfigType
      modifies driver
      ensures driver.calls == old(driver.calls) + [Write(Encode(message.data))]
      ensures driver.isOpen == old(driver.isOpen) && driver.address == old(driver.address)
      ensures ok <==> s.Done?
    {
      var r := SendMessage(message, s);
      ok := r.Ok?;
    }

    /** `getInformation()`, given the text of the information request; false exactly when the write throws. */
    method GetInformation(message: Message, s: Status) returns (ok: bool)
      requires message.msgType == GetInfoType
      modifies driver
      ensures driver.calls == old(driver.calls) + [Write(Encode(message.data))]
      ensures driver.isOpen == old(driver.isOpen) && driver.address == old(driver.address)
      ensures ok <==> s.Done?
    {
      var r := SendMessage(message, s);
      ok := r.Ok?;
    }

    /**
     * `Process(Buffer, Length)`: the first Length bytes as text, split on
     * CR LF, each piece parsed in order.
     */
    method Process(buffer: array<uint8>, length: int32, parse: string -> ParseOutcome)
      requires 0 <= length as int <= buffer.Length
      modifies this
      ensures fired == old(fired) + ChunkEvents(buffer[..length], parse, listeners)
      ensures running == old(running) && listeners == old(listeners) && ipAddress == old(ipAddress)
    {
      var b := buffer[..length];
      var st := Decode(b);
      var stp := Split(st);
      ProcessFrames(stp, parse);
    }

    /** The loop of `Process` over the pieces: a recognised message goes to the current listeners and a parse error only skips its piece. */
    method ProcessFrames(stp: seq<string>, parse: string -> ParseOutcome)
      modifies this
      ensures fired == old(fired) + Dispatches(stp, parse, listeners)
      ensures running == old(running) && listeners == old(listeners) && ipAddress == old(ipAddress)
    {
      var i := 0;
      while i < |stp|
        invariant 0 <= i <= |stp|
        invariant fired == old(fired) + Dispatches(stp[..i], parse, listeners)
        invariant running == old(running) && listeners == old(listeners) && ipAddress == old(ipAddress)
      {
        ghost var before := fired;
        var pm := parse(stp[i]);
        if pm.Recognised? {
          fired := fired + [Fired(pm.message, listeners)];
        }
        DispatchesStep(stp, i, parse, listeners, old(fired), before, fired);
        i := i + 1;
      }
      assert stp[..i] == stp;
    }

    /** One pass of the reader loop: read into the buffer and process what came, when the count is positive; a driver exception is dropped. */
    method RunStep(buffer: array<uint8>, answer: TcpRead, parse: string -> ParseOutcome)
      requires buffer.Length <= INT_MAX
      requires answer.Received? ==> |answer.data| <= buffer.Length
      modifies this, driver, buffer
      ensures driver.calls == old(driver.calls) + [Read]
      ensures driver.isOpen == old(driver.isOpen) && driver.address == old(driver.address)
      ensures fired == old(fired) + StepEvents(answer, parse, listeners)
      ensures running == old(running) && listeners == old(listeners) && ipAddress == old(ipAddress)
    {
      var len := driver.ReadInto(buffer, answer);
      if len.Ok? && len.value > 0 {
        Process(buffer, len.value, parse);
      }
    }
    /** `run()` */
    method Run(answers: seq<TcpRead>, parse: string -> ParseOutcome)
      requires forall k | 0 <= k < |answers| :: answers[k].Received? ==> |answers[k].data| <= 1000
      modifies this, driver
      ensures !old(running) ==> fired == old(fired) && driver.calls == old(driver.calls)
      ensures old(running) ==>
                fired == old(fired) + RunEvents(answers, Steps(parse, listeners))
                && driver.calls == old(driver.calls) + seq(|answers|, _ => Read)
      ensures driver.isOpen == old(driver.isOpen) && driver.address == old(driver.address)
      ensures running == old(running) && listeners == old(listeners) && ipAddress == old(ipAddress)
    {
      var buffer := new uint8[1000];
      var i := 0;
      while i < |answers| && running
        invariant 0 <= i <= |answers|
        invariant !old(running) ==> i == 0
        invariant fired == old(fired) + RunEvents(answers[..i], Steps(parse, listeners))
        invariant driver.calls == old(driver.calls) + seq(i, _ => Read)
        invariant driver.isOpen == old(driver.isOpen) && driver.address == old(driver.address)
        invariant running == old(running) && listeners == old(listeners) && ipAddress == old(ipAddress)
      {
        ghost var before := fired;
        RunStep(buffer, answers[i], parse);
        RunEventsStep(answers, i, Steps(parse, listeners), old(fired), before, fired);
        assert seq(i + 1, _ => Read) == seq(i, _ => Read) + [Read];
        i := i + 1;
      }
      if running {
        assert answers[..i] == answers;
      }
    }
  }
}
