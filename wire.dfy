/**
 * The client's wire format: the two channels it knows, the decoding of one
 * server response (split on single spaces, dispatched on the first token) and
 * the text of the four commands it writes to the server.
 */
module Wire {
  import opened Text

  datatype Option<T> = None | Some(value: T)

  /** The two channels the client has controls for. */
  datatype Channel = IF100 | SPS101

  function ChannelName(ch: Channel): string
  {
    match ch
    case IF100 => "IF100"
    case SPS101 => "SPS101"
  }

  /** The channel a name on the wire denotes, if it is one of the two known ones. */
  function ChannelNamed(name: string): (r: Option<Channel>)
    ensures r.Some? ==> ChannelName(r.value) == name
    ensures forall ch :: ChannelName(ch) == name ==> r == Some(ch)
  {
    if name == "IF100" then Some(IF100)
    else if name == "SPS101" then Some(SPS101)
    else None
  }

  /** What one server response decodes to. */
  datatype Response =
    | Ignored                                          // fewer than two space-separated parts
    | ChannelMessage(channel: string, text: string)    // MESSAGE <channel> <text...>
    | SubscriptionStatus(channel: string, status: string)  // SUBSCRIPTION <channel> <status> ...
    | MissingStatus                                    // SUBSCRIPTION <channel>: the status index is out of range
    | Unknown(raw: string)                             // any other first token

  /** The first space-separated token of a response. */
  function FirstToken(response: string): (t: string)
    ensures ' ' !in t
  {
    Split(response, ' ')[0]
  }

  /**
   * Splits the response on single spaces and dispatches on the first token;
   * a message's text is every token after the channel, joined back with " ".
   */
  function Decode(response: string): (r: Response)
    ensures r.Ignored? <==> ' ' !in response
    ensures r.ChannelMessage? <==> ' ' in response && FirstToken(response) == "MESSAGE"
    ensures r.SubscriptionStatus? || r.MissingStatus? <==>
              ' ' in response && FirstToken(response) == "SUBSCRIPTION"
    ensures r.Unknown? <==>
              ' ' in response && FirstToken(response) != "MESSAGE" && FirstToken(response) != "SUBSCRIPTION"
    ensures r.Unknown? ==> r.raw == response
    ensures r.ChannelMessage? || r.SubscriptionStatus? ==> ' ' !in r.channel
    ensures r.SubscriptionStatus? ==> ' ' !in r.status
  {
    var parts := Split(response, ' ');
    if |parts| < 2 then Ignored
    else if parts[0] == "MESSAGE" then ChannelMessage(parts[1], Join(" ", parts[2..]))
    else if parts[0] == "SUBSCRIPTION" then
      if |parts| < 3 then MissingStatus else SubscriptionStatus(parts[1], parts[2])
    else Unknown(response)
  }

  /** A message's text comes back exactly, spaces and empty words included. */
  lemma DecodeMessage(channel: string, text: string)
    requires ' ' !in channel
    ensures Decode("MESSAGE " + channel + " " + text) == ChannelMessage(channel, text)
  {
    var response := "MESSAGE " + channel + " " + text;
    assert response == "MESSAGE" + [' '] + (channel + [' '] + text);
    SplitAfterPiece("MESSAGE", ' ', channel + [' '] + text);
    SplitAfterPiece(channel, ' ', text);
    var parts := Split(response, ' ');
    assert parts == ["MESSAGE", channel] + Split(text, ' ');
    assert parts[2..] == Split(text, ' ');
    JoinSplit(text, ' ');
  }

  /** `MESSAGE <channel>` with nothing after the channel carries the empty text. */
  lemma DecodeMessageWithoutText(channel: string)
    requires ' ' !in channel
    ensures Decode("MESSAGE " + channel) == ChannelMessage(channel, "")
  {
    var response := "MESSAGE " + channel;
    assert response == "MESSAGE" + [' '] + channel;
    SplitAfterPiece("MESSAGE", ' ', channel);
    assert Split(response, ' ') == ["MESSAGE", channel];
  }

  /**
   * An acknowledgement decodes to its channel and status; any further
   * space-separated tokens after the status are ignored.
   */
  lemma DecodeSubscription(channel: string, status: string, tail: string)
    requires ' ' !in channel && ' ' !in status
    requires tail == "" || tail[0] == ' '
    ensures Decode("SUBSCRIPTION " + channel + " " + status + tail) == SubscriptionStatus(channel, status)
  {
    var response := "SUBSCRIPTION " + channel + " " + status + tail;
    assert response == "SUBSCRIPTION" + [' '] + channel + [' '] + (status + tail);
    SplitTwoPieces("SUBSCRIPTION", channel, ' ', status + tail);
    SplitFirstPiece(status, ' ', tail);
    var parts := Split(response, ' ');
    assert parts == ["SUBSCRIPTION", channel] + Split(status + tail, ' ');
    assert |parts| >= 3 && parts[0] == "SUBSCRIPTION" && parts[1] == channel && parts[2] == status;
  }

  /** An acknowledgement without a status is the out-of-range case. */
  lemma DecodeSubscriptionWithoutStatus(channel: string)
    requires ' ' !in channel
    ensures Decode("SUBSCRIPTION " + channel) == MissingStatus
  {
    var response := "SUBSCRIPTION " + channel;
    assert response == "SUBSCRIPTION" + [' '] + channel;
    SplitAfterPiece("SUBSCRIPTION", ' ', channel);
    assert Split(response, ' ') == ["SUBSCRIPTION", channel];
  }

  /** The commands the client writes to the server. */
  datatype Command =
    | Connect(username: string)
    | Subscribe(channel: string)
    | Unsubscribe(channel: string)
    | Publish(text: string, channel: string)

  /** The text of a command on the wire; delimiters inside fields are not escaped. */
  function Encode(c: Command): string
  {
    match c
    case Connect(username) => "CONNECT:" + username
    case Subscribe(channel) => "SUBSCRIBE:" + channel
    case Unsubscribe(channel) => "UNSUBSCRIBE:" + channel
    case Publish(text, channel) => "MESSAGE:" + text + ":" + channel
  }

  /** A command none of whose fields holds the ':' delimiter. */
  predicate Encodable(c: Command)
  {
    match c
    case Connect(username) => ':' !in username
    case Subscribe(channel) => ':' !in channel
    case Unsubscribe(channel) => ':' !in channel
    case Publish(text, channel) => ':' !in text && ':' !in channel
  }

  /** A reference reading of a command line: split on ':' and dispatch on the keyword. */
  function ParseCommand(line: string): Option<Command>
  {
    var parts := Split(line, ':');
    if |parts| == 2 && parts[0] == "CONNECT" then Some(Connect(parts[1]))
    else if |parts| == 2 && parts[0] == "SUBSCRIBE" then Some(Subscribe(parts[1]))
    else if |parts| == 2 && parts[0] == "UNSUBSCRIBE" then Some(Unsubscribe(parts[1]))
    else if |parts| == 3 && parts[0] == "MESSAGE" then Some(Publish(parts[1], parts[2]))
    else None
  }

  /** Every command whose fields are free of ':' is read back as itself. */
  lemma ParseEncode(c: Command)
    requires Encodable(c)
    ensures ParseCommand(Encode(c)) == Some(c)
  {
    var line := Encode(c);
    match c
    case Connect(username) =>
      assert "CONNECT" + ":" == "CONNECT:";
      ParseKeyword("CONNECT", username);
      assert Split(line, ':') == ["CONNECT", username];
    case Subscribe(channel) =>
      assert "SUBSCRIBE" + ":" == "SUBSCRIBE:";
      ParseKeyword("SUBSCRIBE", channel);
      assert Split(line, ':') == ["SUBSCRIBE", channel];
    case Unsubscribe(channel) =>
      assert "UNSUBSCRIBE" + ":" == "UNSUBSCRIBE:";
      ParseKeyword("UNSUBSCRIBE", channel);
      assert Split(line, ':') == ["UNSUBSCRIBE", channel];
    case Publish(text, channel) =>
      assert line == "MESSAGE" + [':'] + text + [':'] + channel;
      SplitTwoPieces("MESSAGE", text, ':', channel);
      assert Split(line, ':') == ["MESSAGE", text, channel];
  }

  /** `<keyword>:<field>` splits into the keyword and the field. */
  lemma ParseKeyword(keyword: string, field: string)
    requires ':' !in keyword && ':' !in field
    ensures Split(keyword + ":" + field, ':') == [keyword, field]
  {
    assert keyword + ":" + field == keyword + [':'] + field;
    SplitAfterPiece(keyword, ':', field);
  }

  /** Two commands free of ':' are never written as the same text. */
  lemma EncodeInjective(c1: Command, c2: Command)
    requires Encodable(c1) && Encodable(c2)
    requires Encode(c1) == Encode(c2)
    ensures c1 == c2
  {
    ParseEncode(c1);
    ParseEncode(c2);
  }

  /** Without escaping, a ':' in a message text makes two publishes indistinguishable. */
  lemma PublishColonAmbiguity()
    ensures Publish("a:b", "c") != Publish("a", "b:c")
    ensures Encode(Publish("a:b", "c")) == Encode(Publish("a", "b:c"))
  {
  }
}
