/**
 * The client's protocol logic as functions on a value: the two subscription
 * flags, what has been written to the server, the general log and the two
 * channel panes. Each function is the specification of the Form1 handlers
 * it names (module ClientForm): ToggleSubscription of the two subscribe
 * buttons, SendClick of the two send buttons, ReadLoop of the receive loop,
 * and every other function of the handler of the same name. The lemmas state
 * what the handlers promise when they are combined.
 */
module Session {
  import opened Text
  import opened Wire

  /** Everything of the form that the protocol logic reads or changes. */
  datatype ClientState = ClientState(
    subscribedToIF100: bool,
    subscribedToSPS101: bool,
    username: string,
    outbox: seq<string>,   // every string written to the socket, in order
    logs: seq<string>,     // lines of the general log, without their timestamps
    ifLogs: seq<string>,   // lines of the IF100 pane
    spsLogs: seq<string>)  // lines of the SPS101 pane

  /** The form as it is constructed: nothing subscribed, nothing sent or shown. */
  function Initial(): ClientState
  {
    ClientState(false, false, "", [], [], [], [])
  }

  function Subscribed(st: ClientState, ch: Channel): bool
  {
    match ch
    case IF100 => st.subscribedToIF100
    case SPS101 => st.subscribedToSPS101
  }

  /** The pane that shows the messages of a channel. */
  function Pane(st: ClientState, ch: Channel): seq<string>
  {
    match ch
    case IF100 => st.ifLogs
    case SPS101 => st.spsLogs
  }

  /** The two states agree on the handshake name, the socket writes and every log. */
  predicate SameTraffic(a: ClientState, b: ClientState)
  {
    a.username == b.username && a.outbox == b.outbox && a.logs == b.logs &&
    a.ifLogs == b.ifLogs && a.spsLogs == b.spsLogs
  }

  /** The two states agree on both subscription flags. */
  predicate SameFlags(a: ClientState, b: ClientState)
  {
    forall ch :: Subscribed(a, ch) == Subscribed(b, ch)
  }

  function SetSubscribed(st: ClientState, ch: Channel, on: bool): (r: ClientState)
    ensures Subscribed(r, ch) == on
    ensures forall other :: other != ch ==> Subscribed(r, other) == Subscribed(st, other)
    ensures SameTraffic(st, r)
  {
    match ch
    case IF100 => st.(subscribedToIF100 := on)
    case SPS101 => st.(subscribedToSPS101 := on)
  }

  /** One line in the general log (the timestamp prefix is not modelled). */
  function DisplayLog(st: ClientState, line: string): ClientState
  {
    st.(logs := st.logs + [line])
  }

  /** A write to the socket, followed by its "Sent: " log line. */
  function SendToServer(st: ClientState, message: string): ClientState
  {
    st.(outbox := st.outbox + [message], logs := st.logs + ["Sent: " + message])
  }

  /**
   * Connecting: when the socket opens, the name is kept and the handshake is
   * the first thing written; when it does not, only the failure is logged.
   */
  function ConnectToServer(st: ClientState, user: string, socketError: Option<string>): (r: ClientState)
    ensures SameFlags(st, r) && r.ifLogs == st.ifLogs && r.spsLogs == st.spsLogs
    ensures socketError.None? ==>
              r.username == user && r.outbox == st.outbox + ["CONNECT:" + user] &&
              r.logs == st.logs + ["Connected to server."]
    ensures socketError.None? && ':' !in user ==>
              ParseCommand(r.outbox[|r.outbox| - 1]) == Some(Connect(user))
    ensures socketError.Some? ==>
              r == st.(logs := st.logs + ["Connection failed: " + socketError.value])
  {
    match socketError
    case None =>
      var handshake := Encode(Connect(user));
      assert ':' !in user ==> ParseCommand(handshake) == Some(Connect(user)) by {
        if ':' !in user { ParseEncode(Connect(user)); }
      }
      DisplayLog(st.(username := user, outbox := st.outbox + [handshake]), "Connected to server.")
    case Some(reason) =>
      DisplayLog(st, "Connection failed: " + reason)
  }

  /**
   * A server acknowledgement: "success" turns the named channel's flag on,
   * "failure" turns it off; any other status, and any channel other than the
   * two known ones, leaves both flags as they were. Nothing else changes.
   */
  function HandleSubscriptionStatus(st: ClientState, channel: string, status: string): (r: ClientState)
    ensures SameTraffic(st, r)
    ensures forall ch :: ChannelName(ch) == channel && status == "success" ==> Subscribed(r, ch)
    ensures forall ch :: ChannelName(ch) == channel && status == "failure" ==> !Subscribed(r, ch)
    ensures forall ch :: ChannelName(ch) != channel || (status != "success" && status != "failure") ==>
              Subscribed(r, ch) == Subscribed(st, ch)
  {
    match ChannelNamed(channel)
    case None => st
    case Some(ch) =>
      if status == "success" then SetSubscribed(st, ch, true)
      else if status == "failure" then SetSubscribed(st, ch, false)
      else st
  }

  /**
   * A delivered message goes to the pane of its channel; a message for any
   * other channel is reported in the general log instead.
   */
  function UpdateChannelLog(st: ClientState, channel: string, message: string): (r: ClientState)
    ensures SameFlags(st, r) && r.username == st.username && r.outbox == st.outbox
    ensures forall ch :: Pane(r, ch) == if ChannelName(ch) == channel then Pane(st, ch) + [message] else Pane(st, ch)
    ensures r.logs == if ChannelNamed(channel).Some? then st.logs
                      else st.logs + ["Received message from unknown channel: " + channel]
  {
    match ChannelNamed(channel)
    case Some(IF100) => st.(ifLogs := st.ifLogs + [message])
    case Some(SPS101) => st.(spsLogs := st.spsLogs + [message])
    case None => DisplayLog(st, "Received message from unknown channel: " + channel)
  }

  /** Handling one response either completes or raises an exception with a message. */
  datatype Processed = Handled(state: ClientState) | Raised(reason: string)

  /** The message of .NET's IndexOutOfRangeException. */
  const IndexOutOfRange: string := "Index was outside the bounds of the array."

  /**
   * One server response, decoded and dispatched. A response without a space
   * changes nothing; an unknown first token is logged and changes no flag;
   * only an acknowledgement can change a flag; no response writes to the
   * server; a SUBSCRIPTION response without a status raises.
   */
  function ProcessServerResponse(st: ClientState, response: string): (r: Processed)
    ensures ' ' !in response ==> r == Handled(st)
    ensures ' ' in response && FirstToken(response) != "MESSAGE" && FirstToken(response) != "SUBSCRIPTION" ==>
              r == Handled(st.(logs := st.logs + ["Received unknown message: " + response]))
    ensures FirstToken(response) != "SUBSCRIPTION" ==> r.Handled? && SameFlags(st, r.state)
    ensures r.Handled? ==> r.state.outbox == st.outbox && r.state.username == st.username
    ensures r.Raised? ==> r.reason == IndexOutOfRange
    ensures r.Raised? <==> FirstToken(response) == "SUBSCRIPTION" && |Split(response, ' ')| == 2
  {
    match Decode(response)
    case Ignored => Handled(st)
    case ChannelMessage(channel, text) => Handled(UpdateChannelLog(st, channel, text))
    case SubscriptionStatus(channel, status) => Handled(HandleSubscriptionStatus(st, channel, status))
    case MissingStatus => Raised(IndexOutOfRange)
    case Unknown(raw) => Handled(DisplayLog(st, "Received unknown message: " + raw))
  }

  /** What a click on a channel's subscribe button asks of the server. */
  function ToggleRequest(st: ClientState, ch: Channel): Command
  {
    if Subscribed(st, ch) then Unsubscribe(ChannelName(ch)) else Subscribe(ChannelName(ch))
  }

  /**
   * The subscribe button: when not subscribed it sends SUBSCRIBE and sets the
   * flag, when subscribed it sends UNSUBSCRIBE and clears it, without waiting
   * for the server. The other channel and the panes are untouched.
   */
  function ToggleSubscription(st: ClientState, ch: Channel): (r: ClientState)
    ensures Subscribed(r, ch) == !Subscribed(st, ch)
    ensures forall other :: other != ch ==> Subscribed(r, other) == Subscribed(st, other)
    ensures !Subscribed(st, ch) ==> r.outbox == st.outbox + ["SUBSCRIBE:" + ChannelName(ch)]
    ensures Subscribed(st, ch) ==> r.outbox == st.outbox + ["UNSUBSCRIBE:" + ChannelName(ch)]
    ensures ParseCommand(r.outbox[|r.outbox| - 1]) == Some(ToggleRequest(st, ch))
    ensures r.logs == st.logs + ["Sent: " + r.outbox[|r.outbox| - 1]]
    ensures r.username == st.username && r.ifLogs == st.ifLogs && r.spsLogs == st.spsLogs
  {
    var request := ToggleRequest(st, ch);
    assert ':' !in ChannelName(ch);
    ParseEncode(request);
    SetSubscribed(SendToServer(st, Encode(request)), ch, !Subscribed(st, ch))
  }

  /**
   * A channel's send button: a non-empty text is published to that channel,
   * an empty one sends nothing. Neither changes a flag or a pane.
   */
  function SendClick(st: ClientState, ch: Channel, text: string): (r: ClientState)
    ensures text == "" ==> r == st
    ensures text != "" ==>
              r.outbox == st.outbox + ["MESSAGE:" + text + ":" + ChannelName(ch)] &&
              r.logs == st.logs + ["Sent: " + ("MESSAGE:" + text + ":" + ChannelName(ch))]
    ensures text != "" && ':' !in text ==>
              ParseCommand(r.outbox[|r.outbox| - 1]) == Some(Publish(text, ChannelName(ch)))
    ensures SameFlags(st, r) && r.username == st.username && r.ifLogs == st.ifLogs && r.spsLogs == st.spsLogs
  {
    if text == "" then st
    else
      var command := Publish(text, ChannelName(ch));
      assert ':' !in text ==> ParseCommand(Encode(command)) == Some(command) by {
        if ':' !in text {
          assert ':' !in ChannelName(ch);
          ParseEncode(command);
        }
      }
      SendToServer(st, Encode(command))
  }

  /** Two clicks on a subscribe button restore the flag and send the two requests in order. */
  lemma ToggleTwice(st: ClientState, ch: Channel)
    ensures SameFlags(ToggleSubscription(ToggleSubscription(st, ch), ch), st)
    ensures !Subscribed(st, ch) ==>
              ToggleSubscription(ToggleSubscription(st, ch), ch).outbox ==
              st.outbox + ["SUBSCRIBE:" + ChannelName(ch), "UNSUBSCRIBE:" + ChannelName(ch)]
    ensures Subscribed(st, ch) ==>
              ToggleSubscription(ToggleSubscription(st, ch), ch).outbox ==
              st.outbox + ["UNSUBSCRIBE:" + ChannelName(ch), "SUBSCRIBE:" + ChannelName(ch)]
  {
  }

  /**
   * A MESSAGE response, for any channel name, is handed to UpdateChannelLog
   * with its text, spaces included: a known channel's pane receives the text,
   * an unknown channel is reported in the general log.
   */
  lemma MessageDispatched(st: ClientState, channel: string, text: string)
    requires ' ' !in channel
    ensures ProcessServerResponse(st, "MESSAGE " + channel + " " + text) ==
              Handled(UpdateChannelLog(st, channel, text))
  {
    DecodeMessage(channel, text);
  }

  /** A MESSAGE response with nothing after the channel is handed to UpdateChannelLog with the empty text. */
  lemma MessageWithoutTextDispatched(st: ClientState, channel: string)
    requires ' ' !in channel
    ensures ProcessServerResponse(st, "MESSAGE " + channel) == Handled(UpdateChannelLog(st, channel, ""))
  {
    DecodeMessageWithoutText(channel);
  }

  /** A MESSAGE response puts its text, spaces included, into the channel's pane and nowhere else. */
  lemma MessageReachesPane(st: ClientState, ch: Channel, text: string)
    ensures ProcessServerResponse(st, "MESSAGE " + ChannelName(ch) + " " + text) ==
              Handled(if ch == IF100 then st.(ifLogs := st.ifLogs + [text]) else st.(spsLogs := st.spsLogs + [text]))
  {
    assert ' ' !in ChannelName(ch);
    MessageDispatched(st, ChannelName(ch), text);
  }

  /** A MESSAGE response for a channel the client does not know fills no pane and is logged. */
  lemma UnknownChannelLogged(st: ClientState, channel: string, text: string)
    requires ' ' !in channel && ChannelNamed(channel).None?
    ensures ProcessServerResponse(st, "MESSAGE " + channel + " " + text) ==
              Handled(st.(logs := st.logs + ["Received message from unknown channel: " + channel]))
  {
    MessageDispatched(st, channel, text);
  }

  /**
   * An acknowledgement for a known channel sets (success) or clears (failure)
   * exactly its flag, whatever further tokens follow the status.
   */
  lemma AcknowledgementSetsFlag(st: ClientState, ch: Channel, success: bool, tail: string)
    requires tail == "" || tail[0] == ' '
    ensures ProcessServerResponse(st, "SUBSCRIPTION " + ChannelName(ch) + " " + (if success then "success" else "failure") + tail) ==
              Handled(SetSubscribed(st, ch, success))
  {
    assert ' ' !in ChannelName(ch);
    AcknowledgementDispatched(st, ChannelName(ch), if success then "success" else "failure", tail);
  }

  /**
   * A SUBSCRIPTION response with a status, for any channel name and any
   * status, is handed to HandleSubscriptionStatus; further tokens are ignored.
   */
  lemma AcknowledgementDispatched(st: ClientState, channel: string, status: string, tail: string)
    requires ' ' !in channel && ' ' !in status
    requires tail == "" || tail[0] == ' '
    ensures ProcessServerResponse(st, "SUBSCRIPTION " + channel + " " + status + tail) ==
              Handled(HandleSubscriptionStatus(st, channel, status))
  {
    DecodeSubscription(channel, status, tail);
  }

  /**
   * An acknowledgement whose status is neither success nor failure, or whose
   * channel is unknown, leaves the form exactly as it was.
   */
  lemma OtherAcknowledgementIgnored(st: ClientState, channel: string, status: string, tail: string)
    requires ' ' !in channel && ' ' !in status
    requires tail == "" || tail[0] == ' '
    requires (status != "success" && status != "failure") || ChannelNamed(channel).None?
    ensures ProcessServerResponse(st, "SUBSCRIPTION " + channel + " " + status + tail) == Handled(st)
  {
    AcknowledgementDispatched(st, channel, status, tail);
  }

  /** Several responses handled one after the other, stopping at the first that raises. */
  function ProcessAll(st: ClientState, responses: seq<string>): (r: Processed)
    ensures r.Handled? ==> r.state.outbox == st.outbox && r.state.username == st.username
    decreases |responses|
  {
    if responses == [] then Handled(st)
    else
      match ProcessServerResponse(st, responses[0])
      case Raised(reason) => Raised(reason)
      case Handled(next) => ProcessAll(next, responses[1..])
  }

  /** One result of a blocking read: the bytes received (none when the peer closed) or a fault. */
  datatype Read = Bytes(text: string) | Fault(reason: string)

  /** Why the read loop stopped; Exhausted means the given reads ran out before it stopped. */
  datatype LoopEnd = Exhausted | ClosedByServer | ReceiveError(reason: string)

  datatype LoopResult = LoopResult(state: ClientState, consumed: nat, end: LoopEnd)

  /**
   * The receive loop over a given sequence of reads: every non-empty read is
   * handled as one response; it stops at the first empty read, at the first
   * read fault and at the first response that raises, logging why.
   */
  function ReadLoop(st: ClientState, input: seq<Read>): (r: LoopResult)
    ensures r.consumed <= |input|
    ensures r.end.Exhausted? ==> r.consumed == |input|
    ensures !r.end.Exhausted? ==> r.consumed >= 1
    ensures r.end.ClosedByServer? <==> r.consumed >= 1 && input[r.consumed - 1] == Bytes("")
    ensures forall j :: 0 <= j < r.consumed && (j < r.consumed - 1 || r.end.Exhausted?) ==>
              input[j].Bytes? && input[j].text != ""
    ensures r.state.outbox == st.outbox && r.state.username == st.username
    decreases |input|
  {
    if input == [] then LoopResult(st, 0, Exhausted)
    else
      match input[0]
      case Fault(reason) =>
        LoopResult(DisplayLog(st, "Error receiving data: " + reason), 1, ReceiveError(reason))
      case Bytes(text) =>
        if text == "" then LoopResult(DisplayLog(st, "Connection closed by server."), 1, ClosedByServer)
        else
          match ProcessServerResponse(st, text)
          case Raised(reason) =>
            LoopResult(DisplayLog(st, "Error receiving data: " + reason), 1, ReceiveError(reason))
          case Handled(next) =>
            var rest := ReadLoop(next, input[1..]);
            LoopResult(rest.state, rest.consumed + 1, rest.end)
  }

  /** Once the loop has stopped, reads that would have followed make no difference. */
  lemma {:induction false} ReadLoopIgnoresRest(st: ClientState, input: seq<Read>, more: seq<Read>)
    requires !ReadLoop(st, input).end.Exhausted?
    ensures ReadLoop(st, input + more) == ReadLoop(st, input)
    decreases |input|
  {
    assert (input + more)[0] == input[0];
    assert (input + more)[1..] == input[1..] + more;
    if input[0].Bytes? && input[0].text != "" {
      var p := ProcessServerResponse(st, input[0].text);
      if p.Handled? {
        ReadLoopIgnoresRest(p.state, input[1..], more);
      }
    }
  }

  /** The reads that deliver the given responses, one response per read. */
  function AsReads(responses: seq<string>): (input: seq<Read>)
    ensures |input| == |responses|
    ensures forall j :: 0 <= j < |input| ==> input[j] == Bytes(responses[j])
  {
    seq(|responses|, j requires 0 <= j < |responses| => Bytes(responses[j]))
  }

  /**
   * Non-empty reads are handled as one response each, in order: the loop's
   * run over them followed by any other reads is the handling of all of them
   * followed by the loop's run over the others.
   */
  lemma {:induction false} ReadLoopInOrder(st: ClientState, responses: seq<string>, rest: seq<Read>)
    requires forall j :: 0 <= j < |responses| ==> responses[j] != ""
    requires ProcessAll(st, responses).Handled?
    ensures var tail := ReadLoop(ProcessAll(st, responses).state, rest);
            ReadLoop(st, AsReads(responses) + rest) == LoopResult(tail.state, tail.consumed + |responses|, tail.end)
    decreases |responses|
  {
    if responses != [] {
      var input := AsReads(responses) + rest;
      assert input[0] == Bytes(responses[0]);
      assert input[1..] == AsReads(responses[1..]) + rest;
      var next := ProcessServerResponse(st, responses[0]).state;
      ReadLoopInOrder(next, responses[1..], rest);
    } else {
      assert AsReads(responses) + rest == rest;
    }
  }

  /** Responses followed by a zero-length read: all are handled, then the close is logged and the loop stops. */
  lemma StopsAtEmptyRead(st: ClientState, responses: seq<string>, more: seq<Read>)
    requires forall j :: 0 <= j < |responses| ==> responses[j] != ""
    requires ProcessAll(st, responses).Handled?
    ensures ReadLoop(st, AsReads(responses) + ([Bytes("")] + more)) ==
              LoopResult(DisplayLog(ProcessAll(st, responses).state, "Connection closed by server."),
                         |responses| + 1, ClosedByServer)
  {
    ReadLoopInOrder(st, responses, [Bytes("")] + more);
  }

  /** A read fault ends the loop after that one read, with the fault logged. */
  lemma FaultEndsLoop(st: ClientState, reason: string, more: seq<Read>)
    ensures ReadLoop(st, [Fault(reason)] + more) ==
              LoopResult(DisplayLog(st, "Error receiving data: " + reason), 1, ReceiveError(reason))
  {
    assert ([Fault(reason)] + more)[0] == Fault(reason);
  }

  /** A SUBSCRIPTION response without a status ends the loop with the exception's message logged. */
  lemma MissingStatusEndsLoop(st: ClientState, channel: string, more: seq<Read>)
    requires ' ' !in channel
    ensures ReadLoop(st, [Bytes("SUBSCRIPTION " + channel)] + more) ==
              LoopResult(DisplayLog(st, "Error receiving data: " + IndexOutOfRange), 1, ReceiveError(IndexOutOfRange))
  {
    DecodeSubscriptionWithoutStatus(channel);
    assert ([Bytes("SUBSCRIPTION " + channel)] + more)[0] == Bytes("SUBSCRIPTION " + channel);
  }

  /**
   * A session: connect, click a channel's subscribe button, receive the
   * server's acknowledgement, publish a text on the channel and receive it
   * back from the server.
   */
  lemma SubscribePublishReceive(user: string, ch: Channel, text: string)
    requires text != ""
    ensures var s1 := ToggleSubscription(ConnectToServer(Initial(), user, None), ch);
            var ack := ProcessServerResponse(s1, "SUBSCRIPTION " + ChannelName(ch) + " " + "success");
            ack.Handled? &&
            var s3 := SendClick(ack.state, ch, text);
            var echo := ProcessServerResponse(s3, "MESSAGE " + ChannelName(ch) + " " + text);
            echo.Handled? &&
            echo.state.outbox == ["CONNECT:" + user, "SUBSCRIBE:" + ChannelName(ch), "MESSAGE:" + text + ":" + ChannelName(ch)] &&
            Pane(echo.state, ch) == [text] && Subscribed(echo.state, ch)
  {
    var s0 := ConnectToServer(Initial(), user, None);
    assert s0.outbox == ["CONNECT:" + user] && !Subscribed(s0, ch) && Pane(s0, ch) == [];
    var s1 := ToggleSubscription(s0, ch);
    assert s1.outbox == ["CONNECT:" + user, "SUBSCRIBE:" + ChannelName(ch)] && Pane(s1, ch) == [];
    AcknowledgementSetsFlag(s1, ch, true, "");
    assert "SUBSCRIPTION " + ChannelName(ch) + " " + "success" + "" == "SUBSCRIPTION " + ChannelName(ch) + " " + "success";
    var s2 := SetSubscribed(s1, ch, true);
    var s3 := SendClick(s2, ch, text);
    assert s3.outbox == s1.outbox + ["MESSAGE:" + text + ":" + ChannelName(ch)] && Pane(s3, ch) == [];
    MessageReachesPane(s3, ch, text);
  }
}
