/**
 * X4SM protocol messages: a message type and the text sent on the wire.
 * Only the GetProgram request's encoding is part of this model; the other
 * requests' encoders are taken as given text.
 */
module X4smMessages {
  import opened Wrappers

  /** The message types the session sends. */
  datatype MessageType = PingType | SetZoneType | SetDateTimeType | GetProgramType | GetConfigType | GetInfoType

  /** A message: its type, fixed at construction, and the text `getData()` returns. */
  datatype Message = Message(msgType: MessageType, data: string)

  const GET_PROGRAM_PREFIX: string := "<GetProgram Name=\""
  const GET_PROGRAM_SUFFIX: string := "\" />"

  /** The wire text of a GetProgram request: the name inserted verbatim, with no escaping. */
  function EncodeGetProgram(name: string): (data: string)
    ensures |data| == |name| + 22
    ensures data[..18] == GET_PROGRAM_PREFIX
    ensures data[|data| - 4..] == GET_PROGRAM_SUFFIX
    ensures data[18..|data| - 4] == name
  {
    GET_PROGRAM_PREFIX + name + GET_PROGRAM_SUFFIX
  }

  /** `new X4smGetProgramMessage(name)`: type GET_PROGRAM, data encoded once from the name. */
  function GetProgramMessage(name: string): (m: Message)
    ensures m.msgType == GetProgramType
    ensures GetProgramName(m.data) == Some(name)
  {
    DecodeEncodeGetProgram(name);
    Message(GetProgramType, EncodeGetProgram(name))
  }

  /** The name inside a GetProgram request's text, when the text has the request's fixed frame. */
  function GetProgramName(data: string): (r: Option<string>)
    ensures r.Some? <==>
              |data| >= 22 && data[..18] == GET_PROGRAM_PREFIX && data[|data| - 4..] == GET_PROGRAM_SUFFIX
  {
    if |data| >= 22 && data[..18] == GET_PROGRAM_PREFIX && data[|data| - 4..] == GET_PROGRAM_SUFFIX
    then Some(data[18..|data| - 4])
    else None
  }

  /** Stripping the fixed frame recovers the name, for every name. */
  lemma DecodeEncodeGetProgram(name: string)
    ensures GetProgramName(EncodeGetProgram(name)) == Some(name)
  {
  }

  /** Every framed text is the encoding of the name inside it. */
  lemma EncodeDecodeGetProgram(data: string)
    requires GetProgramName(data).Some?
    ensures EncodeGetProgram(GetProgramName(data).value) == data
  {
    var name := GetProgramName(data).value;
    assert data == data[..18] + data[18..|data| - 4] + data[|data| - 4..];
  }

  /** Two names give the same request text only if they are the same name. */
  lemma EncodeGetProgramInjective(a: string, b: string)
    ensures EncodeGetProgram(a) == EncodeGetProgram(b) <==> a == b
  {
    if EncodeGetProgram(a) == EncodeGetProgram(b) {
      DecodeEncodeGetProgram(a);
      DecodeEncodeGetProgram(b);
    }
  }
}
