/** Reply rules of the data-channel message handlers: the ping/pong rule of
    the standalone client (cam-client.py) and the rtt-packet echo of the
    module client (cam_client.py).  A handler maps an incoming frame and the
    channel's state to what it sends, if anything. */
module Messages {
  import opened Wrappers

  /** A data-channel frame: text or binary. */
  datatype Frame = Text(text: string) | Binary(data: seq<bv8>)

  const Ping := "ping"
  const Pong := "pong"
  const RttPacket := "rtt-packet"

  /** The standalone client's rule: text starting with "ping" is answered
      with "pong" followed by the rest of the text. */
  function PingReply(m: Frame): (r: Option<string>)
    ensures r.Some? <==> m.Text? && Ping <= m.text
    ensures r.Some? ==> |r.value| == |m.text|
    ensures r.Some? ==> Pong <= r.value && r.value[|Pong|..] == m.text[|Ping|..]
  {
    if m.Text? && Ping <= m.text then Some(Pong + m.text[|Ping|..]) else None
  }

  /** Ping and pong are the same message up to its first four letters: the
      original can be rebuilt from the reply. */
  lemma PongRestoresPing(m: Frame)
    requires PingReply(m).Some?
    ensures Ping + PingReply(m).value[|Pong|..] == m.text
  {
    assert m.text == m.text[..|Ping|] + m.text[|Ping|..];
  }

  /** A reply is never itself answered, so two such clients cannot loop. */
  lemma ReplyIsNotPing(m: Frame)
    requires PingReply(m).Some?
    ensures PingReply(Text(PingReply(m).value)).None?
  {
    var r := PingReply(m).value;
    assert r[..4] == Pong;
    assert Ping != Pong;
  }

  /** `readyState` of an RTCDataChannel. */
  datatype ReadyState = Connecting | Open | Closing | Closed

  /** A JSON value, as far as the handler looks at it. */
  datatype JsonValue = JString(s: string) | JOther

  /** The outcome of `json.loads`: not JSON at all, a JSON value that cannot
      be subscripted by a string key, or an object. */
  datatype Parsed = Malformed | NotAnObject | Object(fields: map<string, JsonValue>)

  /** Errors the server-channel handler raises: `JSONDecodeError`,
      `TypeError` on subscripting a non-object, `KeyError` on a missing
      "type". */
  datatype HandlerError = DecodeError | NotSubscriptable | MissingType

  datatype HandlerOutcome = Send(payload: string) | Silent | Raise(error: HandlerError)

  /** Which of the two channels of a connection received the frame: the one
      the client created itself, or one announced by the server. */
  datatype Role = ClientChannel | ServerChannel

  /** The frame is text whose JSON "type" field is the string "rtt-packet". */
  predicate IsRttPacket(m: Frame, parse: string -> Parsed) {
    m.Text? && parse(m.text).Object? && "type" in parse(m.text).fields
    && parse(m.text).fields["type"] == JString(RttPacket)
  }

  /** The module client's handlers.  The client channel only logs.  On the
      server channel a text frame is decoded (`parse` stands for `json.loads`)
      and its "type" looked up before the channel state is consulted; an
      rtt-packet is echoed verbatim while the channel is open. */
  function OnMessage(role: Role, m: Frame, parse: string -> Parsed, state: ReadyState): (r: HandlerOutcome)
    ensures r.Send? <==> role == ServerChannel && IsRttPacket(m, parse) && state == Open
    ensures r.Send? ==> Text(r.payload) == m
    ensures r.Raise? <==> role == ServerChannel && m.Text? &&
                          (parse(m.text).Object? ==> "type" !in parse(m.text).fields)
    ensures r == Raise(DecodeError) <==> role == ServerChannel && m.Text? && parse(m.text) == Malformed
    ensures r == Raise(NotSubscriptable) <==> role == ServerChannel && m.Text? && parse(m.text) == NotAnObject
    ensures r == Raise(MissingType) <==>
              role == ServerChannel && m.Text? && parse(m.text).Object? && "type" !in parse(m.text).fields
  {
    match role
    case ClientChannel => Silent
    case ServerChannel =>
      match m
      case Binary(_) => Silent
      case Text(text) =>
        match parse(text)
        case Malformed => Raise(DecodeError)
        case NotAnObject => Raise(NotSubscriptable)
        case Object(fields) =>
          if "type" !in fields then Raise(MissingType)
          else if fields["type"] == JString(RttPacket) && state == Open then Send(text)
          else Silent
  }

  /** The echo is an rtt-packet again: a peer applying the same rule to it
      would send back exactly the same frame. */
  lemma EchoIsFixedPoint(m: Frame, parse: string -> Parsed, state: ReadyState)
    requires OnMessage(ServerChannel, m, parse, state).Send?
    ensures OnMessage(ServerChannel, Text(OnMessage(ServerChannel, m, parse, state).payload), parse, state)
            == OnMessage(ServerChannel, m, parse, state)
  {
  }
}
