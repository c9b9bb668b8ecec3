/**
 * The serial parameter bag: port name, baud rate, data bits, stop bits,
 * parity, flow control in each direction, RS485 echo and receive timeout,
 * with the tables that turn the numeric settings into text and back.
 *
 * The numeric setters store whatever they are given; the text setters only
 * recognise a fixed list of spellings and leave the setting alone otherwise;
 * the renderers fall back to "8", "1" and "none" for values they do not know.
 */
module SerialParams {
  import opened Wrappers
  import opened JavaInt
  import opened JavaText

  const BAUDRATE_110: int32 := 110
  const BAUDRATE_300: int32 := 300
  const BAUDRATE_600: int32 := 600
  const BAUDRATE_1200: int32 := 1200
  const BAUDRATE_4800: int32 := 4800
  const BAUDRATE_9600: int32 := 9600
  const BAUDRATE_14400: int32 := 14400
  const BAUDRATE_19200: int32 := 19200
  const BAUDRATE_38400: int32 := 38400
  const BAUDRATE_57600: int32 := 57600
  const BAUDRATE_115200: int32 := 115200
  const BAUDRATE_128000: int32 := 128000
  const BAUDRATE_256000: int32 := 256000

  const DATABITS_5: int32 := 5
  const DATABITS_6: int32 := 6
  const DATABITS_7: int32 := 7
  const DATABITS_8: int32 := 8

  const FLOWCONTROL_NONE: int32 := 0
  const FLOWCONTROL_RTSCTS_IN: int32 := 1
  const FLOWCONTROL_RTSCTS_OUT: int32 := 2
  const FLOWCONTROL_XONXOFF_IN: int32 := 4
  const FLOWCONTROL_XONXOFF_OUT: int32 := 8

  const STOPBITS_1: int32 := 1
  const STOPBITS_2: int32 := 2
  const STOPBITS_1_5: int32 := 3

  const PARITY_NONE: int32 := 0
  const PARITY_ODD: int32 := 1
  const PARITY_EVEN: int32 := 2
  const PARITY_MARK: int32 := 3
  const PARITY_SPACE: int32 := 4

  /** The receive timeout, in milliseconds, of a bag built from a name alone. */
  const DEFAULT_RECEIVE_TIMEOUT: int32 := 2000

  /** The flow-control codes that have a name of their own. */
  const FlowCodes: set<int32> := {0, 1, 2, 4, 8}

  /** The flow-control names, in the lower case `stringToFlow` compares against. */
  const FlowNames: set<string> := {"none", "xon/xoff out", "xon/xoff in", "rts/cts in", "rts/cts out"}

  /** The value of every field of a parameter bag; `name` is None where Java leaves it null. */
  datatype Params = Params(
    name: Option<string>,
    portName: string,
    baudRate: int32,
    flowControlIn: int32,
    flowControlOut: int32,
    databits: int32,
    stopbits: int32,
    parity: int32,
    echo: bool,
    receiveTimeout: int32)

  /** The fields as Java initialises them before a constructor body runs, with "" standing for the port name's null. */
  const JavaZero: Params := Params(None, "", 0, 0, 0, 0, 0, 0, false, 0)

  // ---------------------------------------------------------------------
  // Text <-> number tables
  // ---------------------------------------------------------------------

  /** The data-bits value `setDatabits(String)` recognises in `s`, if any. */
  function DatabitsOf(s: string): (r: Option<int32>)
    ensures r.Some? <==> s in {"5", "6", "7", "8"}
    ensures r.Some? ==> DATABITS_5 <= r.value <= DATABITS_8
  {
    if s == "5" then Some(DATABITS_5)
    else if s == "6" then Some(DATABITS_6)
    else if s == "7" then Some(DATABITS_7)
    else if s == "8" then Some(DATABITS_8)
    else None
  }

  /** `getDatabitsString()`: text that parses back for 5..8, and "8" for anything else. */
  function DatabitsString(d: int32): (s: string)
    ensures DatabitsOf(s) == Some(d) <==> DATABITS_5 <= d <= DATABITS_8
    ensures !(DATABITS_5 <= d <= DATABITS_8) ==> s == "8"
  {
    if d == DATABITS_5 then "5"
    else if d == DATABITS_6 then "6"
    else if d == DATABITS_7 then "7"
    else "8"
  }

  /** The stop-bits value `setStopbits(String)` recognises in `s`, if any; "1.5" is code 3. */
  function StopbitsOf(s: string): (r: Option<int32>)
    ensures r.Some? <==> s in {"1", "1.5", "2"}
    ensures r.Some? ==> r.value in {STOPBITS_1, STOPBITS_2, STOPBITS_1_5}
  {
    if s == "1" then Some(STOPBITS_1)
    else if s == "1.5" then Some(STOPBITS_1_5)
    else if s == "2" then Some(STOPBITS_2)
    else None
  }

  /** `getStopbitsString()`: text that parses back for the three codes, and "1" for anything else. */
  function StopbitsString(b: int32): (s: string)
    ensures StopbitsOf(s) == Some(b) <==> b in {STOPBITS_1, STOPBITS_2, STOPBITS_1_5}
    ensures b !in {STOPBITS_1, STOPBITS_2, STOPBITS_1_5} ==> s == "1"
  {
    if b == STOPBITS_1_5 then "1.5"
    else if b == STOPBITS_2 then "2"
    else "1"
  }

  /** The parity `setParity(String)` recognises in `s`, ignoring case: only none, even and odd. */
  function ParityOf(s: string): (r: Option<int32>)
    ensures r.Some? <==> Lower(s) in {"none", "even", "odd"}
    ensures r.Some? ==> r.value in {PARITY_NONE, PARITY_ODD, PARITY_EVEN}
  {
    var t := Lower(s);
    if t == "none" then Some(PARITY_NONE)
    else if t == "even" then Some(PARITY_EVEN)
    else if t == "odd" then Some(PARITY_ODD)
    else None
  }

  /** `getParityString()`: text that parses back for none, odd and even; MARK, SPACE and the rest render "none". */
  function ParityString(p: int32): (s: string)
    ensures ParityOf(s) == Some(p) <==> p in {PARITY_NONE, PARITY_ODD, PARITY_EVEN}
    ensures p !in {PARITY_NONE, PARITY_ODD, PARITY_EVEN} ==> s == "none"
  {
    LowerKeepsLower("none");
    LowerKeepsLower("even");
    LowerKeepsLower("odd");
    if p == PARITY_EVEN then "even"
    else if p == PARITY_ODD then "odd"
    else "none"
  }

  /** `stringToFlow(s)`: case-insensitive; a name it does not know means no flow control. */
  function StringToFlow(s: string): (f: int32)
    ensures f in FlowCodes
    ensures Lower(s) !in FlowNames ==> f == FLOWCONTROL_NONE
  {
    var t := Lower(s);
    if t == "none" then FLOWCONTROL_NONE
    else if t == "xon/xoff out" then FLOWCONTROL_XONXOFF_OUT
    else if t == "xon/xoff in" then FLOWCONTROL_XONXOFF_IN
    else if t == "rts/cts in" then FLOWCONTROL_RTSCTS_IN
    else if t == "rts/cts out" then FLOWCONTROL_RTSCTS_OUT
    else FLOWCONTROL_NONE
  }

  /** `flowToString(f)`: a name that parses back exactly for the five codes; a combined mask such as 3 renders "none". */
  function FlowToString(f: int32): (s: string)
    ensures s in FlowNames
    ensures f in FlowCodes ==> StringToFlow(s) == f
    ensures f !in FlowCodes ==> s == "none"
    ensures StringToFlow(s) == f <==> f in FlowCodes
  {
    LowerKeepsLower("none");
    LowerKeepsLower("xon/xoff out");
    LowerKeepsLower("xon/xoff in");
    LowerKeepsLower("rts/cts in");
    LowerKeepsLower("rts/cts out");
    if f == FLOWCONTROL_XONXOFF_OUT then "xon/xoff out"
    else if f == FLOWCONTROL_XONXOFF_IN then "xon/xoff in"
    else if f == FLOWCONTROL_RTSCTS_IN then "rts/cts in"
    else if f == FLOWCONTROL_RTSCTS_OUT then "rts/cts out"
    else "none"
  }

  /** Setting data bits from one of "5".."8" and reading the text back gives the same text. */
  lemma DatabitsTextRoundTrip(s: string)
    requires s in {"5", "6", "7", "8"}
    ensures DatabitsString(DatabitsOf(s).value) == s
  {
  }

  lemma StopbitsTextRoundTrip(s: string)
    requires s in {"1", "1.5", "2"}
    ensures StopbitsString(StopbitsOf(s).value) == s
  {
  }

  /** A recognised parity name comes back in lower case. */
  lemma ParityTextRoundTrip(s: string)
    requires Lower(s) in {"none", "even", "odd"}
    ensures ParityString(ParityOf(s).value) == Lower(s)
  {
  }

  /** A recognised flow-control name comes back in lower case. */
  lemma FlowNameRoundTrip(s: string)
    requires Lower(s) in FlowNames
    ensures FlowToString(StringToFlow(s)) == Lower(s)
  {
    LowerKeepsLower("none");
    LowerKeepsLower("xon/xoff out");
    LowerKeepsLower("xon/xoff in");
    LowerKeepsLower("rts/cts in");
    LowerKeepsLower("rts/cts out");
  }

  // ---------------------------------------------------------------------
  // What each text setter does to the bag
  // ---------------------------------------------------------------------

  function WithDatabitsText(p: Params, s: string): Params {
    match DatabitsOf(s)
    case Some(d) => p.(databits := d)
    case None => p
  }

  function WithStopbitsText(p: Params, s: string): Params {
    match StopbitsOf(s)
    case Some(b) => p.(stopbits := b)
    case None => p
  }

  function WithParityText(p: Params, s: string): Params {
    match ParityOf(s)
    case Some(v) => p.(parity := v)
    case None => p
  }

  // ---------------------------------------------------------------------
  // The Properties constructor
  // ---------------------------------------------------------------------

  /** `props.getProperty(key, default)`. */
  function Lookup(props: map<string, string>, key: string, default: string): string {
    if key in props then props[key] else default
  }

  /**
   * The bag `new SerialParameters(props, prefix)` builds, or None when
   * `Integer.parseInt` throws on the baud rate or the timeout. Every key is
   * looked up as prefix + key (a null prefix counts as ""), each missing key
   * takes the default the constructor passes, and the name stays null.
   */
  function FromProperties(props: map<string, string>, prefix: Option<string>): Option<Params> {
    var pre := prefix.GetOr("");
    var baud := ParseInt(Lookup(props, pre + "baudRate", "9600"));
    var timeout := ParseInt(Lookup(props, pre + "timeout", "500"));
    if baud.None? || timeout.None? then None
    else
      var p := JavaZero.(
        portName := Lookup(props, pre + "portName", ""),
        baudRate := baud.value,
        flowControlIn := StringToFlow(Lookup(props, pre + "flowControlIn", "0")),
        flowControlOut := StringToFlow(Lookup(props, pre + "flowControlOut", "0")));
      var p := WithParityText(p, Lookup(props, pre + "parity", "0"));
      var p := WithDatabitsText(p, Lookup(props, pre + "databits", "8"));
      var p := WithStopbitsText(p, Lookup(props, pre + "stopbits", "1"));
      Some(p.(echo := pre + "echo" in props && props[pre + "echo"] == "true",
              receiveTimeout := timeout.value))
  }

  /** A null prefix and the empty prefix build the same bag. */
  lemma PropertiesNullPrefix(props: map<string, string>)
    ensures FromProperties(props, None) == FromProperties(props, Some(""))
  {
  }

  /** From an empty property set: port "", 9600 baud, 8 data bits, 1 stop bit, no parity or flow control, timeout 500, no echo, null name. */
  lemma PropertiesDefaults(prefix: Option<string>)
    ensures FromProperties(map[], prefix) == Some(Params(None, "", 9600, 0, 0, 8, 1, 0, false, 500))
  {
    ParseIntToString(9600);
    ParseIntToString(500);
    assert IntToString(9600) == "9600";
    assert IntToString(500) == "500";
    LowerKeepsLower("0");
  }

  /** Echo is on only when the prefixed key holds exactly "true". */
  lemma PropertiesEcho(props: map<string, string>, prefix: Option<string>)
    requires FromProperties(props, prefix).Some?
    ensures var key := prefix.GetOr("") + "echo";
            FromProperties(props, prefix).value.echo <==> key in props && props[key] == "true"
  {
  }

  /** Without a timeout key, the timeout is 500, not the 2000 of the name-only constructor. */
  lemma PropertiesTimeoutDefault(props: map<string, string>, prefix: Option<string>)
    requires prefix.GetOr("") + "timeout" !in props
    requires ParseInt(Lookup(props, prefix.GetOr("") + "baudRate", "9600")).Some?
    ensures FromProperties(props, prefix).Some?
    ensures FromProperties(props, prefix).value.receiveTimeout == 500
  {
    ParseIntToString(500);
    assert IntToString(500) == "500";
  }

  /**
   * A data-bits text the table does not know leaves the field at the zero
   * Java gave it, so the Properties constructor can produce a data-bits
   * value of 0, unlike the name-only constructor's 8.
   */
  lemma PropertiesUnknownDatabits(props: map<string, string>, prefix: Option<string>)
    requires FromProperties(props, prefix).Some?
    requires var key := prefix.GetOr("") + "databits"; key in props && props[key] !in {"5", "6", "7", "8"}
    ensures FromProperties(props, prefix).value.databits == 0
  {
  }

  // ---------------------------------------------------------------------
  // parseXMLFile, over an already parsed document
  // ---------------------------------------------------------------------

  /** A DOM node: its name, whether it is an element, its text content and its child nodes. */
  datatype DomNode = DomNode(nodeName: string, isElement: bool, textContent: string, children: seq<DomNode>)

  /** A parsed document, through its first child node. */
  datatype Document = Document(firstChild: Option<DomNode>)

  /** `parseXMLFile` returns a boolean, or lets `Integer.parseInt`'s NumberFormatException escape. */
  datatype XmlOutcome = Returned(result: bool) | NumberFormatThrown

  /** The bag after a run of child nodes, and whether the run finished without an exception. */
  datatype Applied = Applied(params: Params, completed: bool)

  /** The seven element names the dispatch recognises. */
  const XmlFields: set<string> := {"Name", "Baudrate", "Port", "Databits", "Parity", "FlowcontrolIn", "FlowcontrolOut"}

  /**
   * Whether `q` agrees with `p` on every field except the one an element
   * named `tag` sets; stop bits, the timeout and echo have no element.
   */
  predicate SameExcept(p: Params, q: Params, tag: string) {
    && (tag != "Name" ==> q.name == p.name)
    && (tag != "Baudrate" ==> q.baudRate == p.baudRate)
    && (tag != "Port" ==> q.portName == p.portName)
    && (tag != "Databits" ==> q.databits == p.databits)
    && (tag != "Parity" ==> q.parity == p.parity)
    && (tag != "FlowcontrolIn" ==> q.flowControlIn == p.flowControlIn)
    && (tag != "FlowcontrolOut" ==> q.flowControlOut == p.flowControlOut)
    && q.stopbits == p.stopbits && q.receiveTimeout == p.receiveTimeout && q.echo == p.echo
  }

  /** What one child node does to the bag; None is the NumberFormatException of a bad Baudrate. */
  function ApplyElement(p: Params, n: DomNode): (r: Option<Params>)
    ensures !n.isElement || n.nodeName !in XmlFields ==> r == Some(p)
    ensures r.None? <==> n.isElement && n.nodeName == "Baudrate" && ParseInt(n.textContent).None?
    ensures r.Some? ==> SameExcept(p, r.value, if n.isElement then n.nodeName else "")
  {
    var text := n.textContent;
    if !n.isElement then Some(p)
    else if n.nodeName == "Name" then Some(p.(name := Some(text)))
    else if n.nodeName == "Baudrate" then
      match ParseInt(text)
      case Some(b) => Some(p.(baudRate := b))
      case None => None
    else if n.nodeName == "Port" then Some(p.(portName := text))
    else if n.nodeName == "Databits" then Some(WithDatabitsText(p, text))
    else if n.nodeName == "Parity" then Some(WithParityText(p, text))
    else if n.nodeName == "FlowcontrolIn" then Some(p.(flowControlIn := StringToFlow(text)))
    else if n.nodeName == "FlowcontrolOut" then Some(p.(flowControlOut := StringToFlow(text)))
    else Some(p)
  }

  /** The child nodes applied in document order, stopping at the first exception. */
  function ApplyElements(p: Params, nodes: seq<DomNode>): Applied
    decreases |nodes|
  {
    if nodes == [] then Applied(p, true)
    else
      var before := ApplyElements(p, nodes[..|nodes| - 1]);
      if !before.completed then before
      else
        match ApplyElement(before.params, nodes[|nodes| - 1])
        case Some(q) => Applied(q, true)
        case None => Applied(before.params, false)
  }

  /** The text of the last element named `tag`, if there is one. */
  function LastText(nodes: seq<DomNode>, tag: string): Option<string>
    decreases |nodes|
  {
    if nodes == [] then None
    else
      var n := nodes[|nodes| - 1];
      if n.isElement && n.nodeName == tag then Some(n.textContent)
      else LastText(nodes[..|nodes| - 1], tag)
  }

  /** What `recognise` makes of the last element named `tag` whose text it recognises, if there is one. */
  function LastRecognised(nodes: seq<DomNode>, tag: string, recognise: string -> Option<int32>): Option<int32>
    decreases |nodes|
  {
    if nodes == [] then None
    else
      var n := nodes[|nodes| - 1];
      if n.isElement && n.nodeName == tag && recognise(n.textContent).Some? then recognise(n.textContent)
      else LastRecognised(nodes[..|nodes| - 1], tag, recognise)
  }

  /** The root `parseXMLFile` accepts: a first child named SerialParameters. */
  function XmlRoot(doc: Option<Document>): Option<DomNode> {
    if doc.Some? && doc.value.firstChild.Some? && doc.value.firstChild.value.nodeName == "SerialParameters"
    then doc.value.firstChild
    else None
  }

  /** Once a run has stopped on an exception, the nodes after it change nothing. */
  lemma {:induction false} ApplyElementsStops(p: Params, nodes: seq<DomNode>, k: nat)
    requires k <= |nodes|
    requires !ApplyElements(p, nodes[..k]).completed
    ensures ApplyElements(p, nodes) == ApplyElements(p, nodes[..k])
    decreases |nodes| - k
  {
    if k < |nodes| {
      assert nodes[..k + 1][..k] == nodes[..k];
      ApplyElementsStops(p, nodes, k + 1);
    } else {
      assert nodes[..k] == nodes;
    }
  }

  /** The dispatch never touches stop bits, the timeout or echo. */
  lemma {:induction false} XmlKeepsOtherFields(p: Params, nodes: seq<DomNode>)
    ensures var q := ApplyElements(p, nodes).params;
            q.stopbits == p.stopbits && q.receiveTimeout == p.receiveTimeout && q.echo == p.echo
    decreases |nodes|
  {
    if nodes != [] {
      XmlKeepsOtherFields(p, nodes[..|nodes| - 1]);
    }
  }

  /** When every element applied, the name and the port are those of the last Name and Port elements, or unchanged when there is none. */
  lemma {:induction false} XmlLastElementWins(p: Params, nodes: seq<DomNode>)
    requires ApplyElements(p, nodes).completed
    ensures var q := ApplyElements(p, nodes).params;
            && q.portName == LastText(nodes, "Port").GetOr(p.portName)
            && (LastText(nodes, "Name").Some? ==> q.name == Some(LastText(nodes, "Name").value))
            && (LastText(nodes, "Name").None? ==> q.name == p.name)
    decreases |nodes|
  {
    if nodes != [] {
      var front := nodes[..|nodes| - 1];
      assert ApplyElements(p, front).completed;
      XmlLastElementWins(p, front);
    }
  }

  /**
   * When every element applied, every Baudrate text parsed, and the baud
   * rate is that of the last Baudrate element, or unchanged when there is none.
   */
  lemma {:induction false} XmlLastBaudRateWins(p: Params, nodes: seq<DomNode>)
    requires ApplyElements(p, nodes).completed
    ensures var last := LastText(nodes, "Baudrate");
            && (last.Some? ==> ParseInt(last.value).Some?
                               && ApplyElements(p, nodes).params.baudRate == ParseInt(last.value).value)
            && (last.None? ==> ApplyElements(p, nodes).params.baudRate == p.baudRate)
    decreases |nodes|
  {
    if nodes != [] {
      var front := nodes[..|nodes| - 1];
      assert ApplyElements(p, front).completed;
      XmlLastBaudRateWins(p, front);
    }
  }

  /** When every element applied, each flow-control direction is `stringToFlow` of its last element, or unchanged when there is none. */
  lemma {:induction false} XmlLastFlowControlWins(p: Params, nodes: seq<DomNode>)
    requires ApplyElements(p, nodes).completed
    ensures var q := ApplyElements(p, nodes).params;
            var lastIn := LastText(nodes, "FlowcontrolIn");
            var lastOut := LastText(nodes, "FlowcontrolOut");
            && q.flowControlIn == (if lastIn.Some? then StringToFlow(lastIn.value) else p.flowControlIn)
            && q.flowControlOut == (if lastOut.Some? then StringToFlow(lastOut.value) else p.flowControlOut)
    decreases |nodes|
  {
    if nodes != [] {
      var front := nodes[..|nodes| - 1];
      assert ApplyElements(p, front).completed;
      XmlLastFlowControlWins(p, front);
    }
  }

  /**
   * When every element applied, the data bits and the parity are those of
   * the last element whose text the table recognises; an unrecognised text
   * leaves the earlier value in place.
   */
  lemma {:induction false} XmlLastRecognisedWins(p: Params, nodes: seq<DomNode>)
    requires ApplyElements(p, nodes).completed
    ensures var q := ApplyElements(p, nodes).params;
            && q.databits == LastRecognised(nodes, "Databits", DatabitsOf).GetOr(p.databits)
            && q.parity == LastRecognised(nodes, "Parity", ParityOf).GetOr(p.parity)
    decreases |nodes|
  {
    if nodes != [] {
      var front := nodes[..|nodes| - 1];
      assert ApplyElements(p, front).completed;
      XmlLastRecognisedWins(p, front);
    }
  }

  // ---------------------------------------------------------------------
  // The parameter object
  // ---------------------------------------------------------------------

  class SerialParameters {
    var name: Option<string>
    var portName: string
    var baudRate: int32
    var flowControlIn: int32
    var flowControlOut: int32
    var databits: int32
    var stopbits: int32
    var parity: int32
    var echo: bool
    var receiveTimeout: int32

    /** The fields, as one value. */
    function Values(): Params
      reads this
    {
      Params(name, portName, baudRate, flowControlIn, flowControlOut, databits, stopbits,
             parity, echo, receiveTimeout)
    }

    /** `new SerialParameters(name)`: every setting at its default. */
    constructor (name: string)
      ensures Values() == Params(Some(name), "", BAUDRATE_9600, FLOWCONTROL_NONE, FLOWCONTROL_NONE,
                                 DATABITS_8, STOPBITS_1, PARITY_NONE, false, DEFAULT_RECEIVE_TIMEOUT)
    {
      this.name := Some(name);
      portName := "";
      baudRate := BAUDRATE_9600;
      flowControlIn := FLOWCONTROL_NONE;
      flowControlOut := FLOWCONTROL_NONE;
      databits := DATABITS_8;
      stopbits := STOPBITS_1;
      parity := PARITY_NONE;
      receiveTimeout := DEFAULT_RECEIVE_TIMEOUT;
      echo := false;
    }

    /** The ten-argument constructor: stores every argument as given. */
    constructor Full(name: string, portName: string, baudRate: int32, flowControlIn: int32,
                     flowControlOut: int32, databits: int32, stopbits: int32, parity: int32,
                     echo: bool, timeout: int32)
      ensures Values() == Params(Some(name), portName, baudRate, flowControlIn, flowControlOut,
                                 databits, stopbits, parity, echo, timeout)
    {
      this.name := Some(name);
      this.portName := portName;
      this.baudRate := baudRate;
      this.flowControlIn := flowControlIn;
      this.flowControlOut := flowControlOut;
      this.databits := databits;
      this.stopbits := stopbits;
      this.parity := parity;
      this.echo := echo;
      this.receiveTimeout := timeout;
    }

    /** The object as allocated, before any constructor body: zero, false and null. */
    constructor JavaDefaults()
      ensures Values() == JavaZero
    {
      name := None;
      portName := "";
      baudRate := 0;
      flowControlIn := 0;
      flowControlOut := 0;
      databits := 0;
      stopbits := 0;
      parity := 0;
      echo := false;
      receiveTimeout := 0;
    }

    /**
     * `new SerialParameters(props, prefix)`: the setters called in the
     * constructor's order on a fresh object; null when a parse throws.
     */
    static method FromPropertyMap(props: map<string, string>, prefix: Option<string>)
      returns (p: SerialParameters?)
      ensures p == null <==> FromProperties(props, prefix).None?
      ensures p != null ==> fresh(p) && p.Values() == FromProperties(props, prefix).value
    {
      var pre := if prefix.None? then "" else prefix.value;
      p := new SerialParameters.JavaDefaults();
      p.SetPortName(Lookup(props, pre + "portName", ""));
      var ok := p.SetBaudRateText(Lookup(props, pre + "baudRate", "9600"));
      if !ok {
        return null;
      }
      p.SetFlowControlInText(Lookup(props, pre + "flowControlIn", "0"));
      p.SetFlowControlOutText(Lookup(props, pre + "flowControlOut", "0"));
      p.SetParityText(Lookup(props, pre + "parity", "0"));
      p.SetDatabitsText(Lookup(props, pre + "databits", "8"));
      p.SetStopbitsText(Lookup(props, pre + "stopbits", "1"));
      p.SetEcho(pre + "echo" in props && props[pre + "echo"] == "true");
      ok := p.SetReceiveTimeoutText(Lookup(props, pre + "timeout", "500"));
      if !ok {
        return null;
      }
    }

    /**
     * `parseXMLFile`, given the document the XML parser produced (None when
     * it threw). Anything but a SerialParameters root gives false and changes
     * nothing; otherwise each child element updates its own field in
     * document order and the result is true, unless a Baudrate text does not
     * parse, which throws with the earlier elements already applied.
     */
    method ParseXmlFile(doc: Option<Document>) returns (r: XmlOutcome)
      modifies this
      ensures XmlRoot(doc).None? ==> r == Returned(false) && Values() == old(Values())
      ensures XmlRoot(doc).Some? ==>
                r != Returned(false)
                && ApplyElements(old(Values()), XmlRoot(doc).value.children)
                   == Applied(Values(), r == Returned(true))
    {
      if doc.None? || doc.value.firstChild.None? {
        return Returned(false);
      }
      var pn := doc.value.firstChild.value;
      if pn.nodeName != "SerialParameters" {
        return Returned(false);
      }
      var children := pn.children;
      ghost var start := Values();
      var i := 0;
      while i < |children|
        invariant 0 <= i <= |children|
        invariant ApplyElements(start, children[..i]) == Applied(Values(), true)
      {
        var c := children[i];
        assert children[..i + 1][..i] == children[..i];
        if c.isElement {
          if c.nodeName == "Name" {
            name := Some(c.textContent);
          } else if c.nodeName == "Baudrate" {
            var ok := SetBaudRateText(c.textContent);
            if !ok {
              ApplyElementsStops(start, children, i + 1);
              return NumberFormatThrown;
            }
          } else if c.nodeName == "Port" {
            portName := c.textContent;
          } else if c.nodeName == "Databits" {
            SetDatabitsText(c.textContent);
          } else if c.nodeName == "Parity" {
            SetParityText(c.textContent);
          } else if c.nodeName == "FlowcontrolIn" {
            SetFlowControlInText(c.textContent);
          } else if c.nodeName == "FlowcontrolOut" {
            SetFlowControlOutText(c.textContent);
          }
        }
        i := i + 1;
      }
      assert children[..i] == children;
      return Returned(true);
    }

    method SetName(name: string)
      modifies this
      ensures Values() == old(Values()).(name := Some(name))
    {
      this.name := Some(name);
    }

    function GetName(): Option<string>
      reads this
    {
      name
    }

    method SetPortName(name: string)
      modifies this
      ensures Values() == old(Values()).(portName := name)
    {
      portName := name;
    }

    function GetPortName(): string
      reads this
    {
      portName
    }

    /** Stores the rate as given, with no check against the BAUDRATE_ list. */
    method SetBaudRate(rate: int32)
      modifies this
      ensures Values() == old(Values()).(baudRate := rate)
    {
      baudRate := rate;
    }

    /** `setBaudRate(String)`: false stands for the NumberFormatException, which leaves the bag as it was. */
    method SetBaudRateText(rate: string) returns (ok: bool)
      modifies this
      ensures ok <==> ParseInt(rate).Some?
      ensures Values() == if ok then old(Values()).(baudRate := ParseInt(rate).value) else old(Values())
    {
      var v := ParseInt(rate);
      if v.None? {
        return false;
      }
      baudRate := v.value;
      return true;
    }

    function GetBaudRate(): int32
      reads this
    {
      baudRate
    }

    function GetBaudRateString(): string
      reads this
    {
      IntToString(baudRate)
    }

    method SetFlowControlIn(flowcontrol: int32)
      modifies this
      ensures Values() == old(Values()).(flowControlIn := flowcontrol)
    {
      flowControlIn := flowcontrol;
    }

    method SetFlowControlInText(flowcontrol: string)
      modifies this
      ensures Values() == old(Values()).(flowControlIn := StringToFlow(flowcontrol))
    {
      flowControlIn := StringToFlow(flowcontrol);
    }

    function GetFlowControlIn(): int32
      reads this
    {
      flowControlIn
    }

    function GetFlowControlInString(): string
      reads this
    {
      FlowToString(flowControlIn)
    }

    method SetFlowControlOut(flowControlOut: int32)
      modifies this
      ensures Values() == old(Values()).(flowControlOut := flowControlOut)
    {
      this.flowControlOut := flowControlOut;
    }

    method SetFlowControlOutText(flowControlOut: string)
      modifies this
      ensures Values() == old(Values()).(flowControlOut := StringToFlow(flowControlOut))
    {
      this.flowControlOut := StringToFlow(flowControlOut);
    }

    function GetFlowControlOut(): int32
      reads this
    {
      flowControlOut
    }

    function GetFlowControlOutString(): string
      reads this
    {
      FlowToString(flowControlOut)
    }

    /** Stores the value as given: `SetDatabits(9)` stores 9. */
    method SetDatabits(databits: int32)
      modifies this
      ensures Values() == old(Values()).(databits := databits)
    {
      this.databits := databits;
    }

    method SetDatabitsText(databits: string)
      modifies this
      ensures Values() == WithDatabitsText(old(Values()), databits)
    {
      if databits == "5" {
        this.databits := DATABITS_5;
      }
      if databits == "6" {
        this.databits := DATABITS_6;
      }
      if databits == "7" {
        this.databits := DATABITS_7;
      }
      if databits == "8" {
        this.databits := DATABITS_8;
      }
    }

    function GetDatabits(): int32
      reads this
    {
      databits
    }

    function GetDatabitsString(): string
      reads this
    {
      DatabitsString(databits)
    }

    method SetStopbits(stopbits: int32)
      modifies this
      ensures Values() == old(Values()).(stopbits := stopbits)
    {
      this.stopbits := stopbits;
    }

    method SetStopbitsText(stopbits: string)
      modifies this
      ensures Values() == WithStopbitsText(old(Values()), stopbits)
    {
      if stopbits == "1" {
        this.stopbits := STOPBITS_1;
      }
      if stopbits == "1.5" {
        this.stopbits := STOPBITS_1_5;
      }
      if stopbits == "2" {
        this.stopbits := STOPBITS_2;
      }
    }

    function GetStopbits(): int32
      reads this
    {
      stopbits
    }

    function GetStopbitsString(): string
      reads this
    {
      StopbitsString(stopbits)
    }

    method SetParity(parity: int32)
      modifies this
      ensures Values() == old(Values()).(parity := parity)
    {
      this.parity := parity;
    }

    method SetParityText(parity: string)
      modifies this
      ensures Values() == WithParityText(old(Values()), parity)
    {
      var t := Lower(parity);
      if t == "none" {
        this.parity := PARITY_NONE;
      }
      if t == "even" {
        this.parity := PARITY_EVEN;
      }
      if t == "odd" {
        this.parity := PARITY_ODD;
      }
    }

    function GetParity(): int32
      reads this
    {
      parity
    }

    function GetParityString(): string
      reads this
    {
      ParityString(parity)
    }

    function IsEcho(): bool
      reads this
    {
      echo
    }

    method SetEcho(newEcho: bool)
      modifies this
      ensures Values() == old(Values()).(echo := newEcho)
    {
      echo := newEcho;
    }

    function GetReceiveTimeout(): int32
      reads this
    {
      receiveTimeout
    }

    method SetReceiveTimeout(receiveTimeout: int32)
      modifies this
      ensures Values() == old(Values()).(receiveTimeout := receiveTimeout)
    {
      this.receiveTimeout := receiveTimeout;
    }

    /** `setReceiveTimeout(String)`: false stands for the NumberFormatException, which leaves the bag as it was. */
    method SetReceiveTimeoutText(str: string) returns (ok: bool)
      modifies this
      ensures ok <==> ParseInt(str).Some?
      ensures Values() == if ok then old(Values()).(receiveTimeout := ParseInt(str).value) else old(Values())
    {
      var v := ParseInt(str);
      if v.None? {
        return false;
      }
      receiveTimeout := v.value;
      return true;
    }
  }
}
