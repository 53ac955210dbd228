# Publish/subscribe chat client: protocol logic

A model in Dafny of the protocol logic of a WinForms client (`client/Form1.cs`) for a
channel-based publish/subscribe chat server. The client connects with a username,
subscribes to and unsubscribes from two fixed channels (`IF100`, `SPS101`), publishes
text to them, and handles what the server sends: channel messages and subscription
acknowledgements.

The model has four modules:

- `Text` (`text.dfy`): `Split` and `Join` with the semantics of .NET's
  `String.Split(char)` (empty pieces kept, never an empty result) and `String.Join`.
  It also proves the two round trips between them.
- `Wire` (`wire.dfy`): the two channels and the decoder of one server response.
  The decoder splits on single spaces and dispatches on the first token: `MESSAGE`,
  `SUBSCRIPTION`, anything else, or fewer than two parts. This module also holds the
  four outgoing commands (`CONNECT:`, `SUBSCRIBE:`, `UNSUBSCRIBE:`, `MESSAGE:<text>:<channel>`).
  The commands come with a reference parser that splits on `:` and is proved to invert
  the encoding when no field holds `:`.
- `Session` (`session.dfy`): the form's state as a value (`ClientState`), with one pure
  function per handler. `ToggleSubscription` specifies the two subscribe buttons (`IfSubClick`,
  `SpsSubClick`), `SendClick` the two send buttons (`IfSendClick`, `SpsSendClick`) and
  `ReadLoop` the receive loop (`ReadFromServer`); every other function specifies the handler
  of the same name. The module
  also holds the lemmas that combine handlers, and `ReadLoop`, the receive loop over a
  given sequence of read results.
- `ClientForm` (`client.dfy`): class `Client`, whose fields are those of the form
  (`subscribedToIF100`, `subscribedToSPS101`, `username`) plus sequences for what the form
  writes to the socket and shows in its three text boxes. Every handler is a method with
  `modifies this`. Each method except `SendUsername` is proved to leave `Snapshot()` equal
  to a `Session` function applied to the state before the call: `IfSubClick` and
  `SpsSubClick` to `ToggleSubscription`, `IfSendClick` and `SpsSendClick` to `SendClick`,
  `ReadFromServer` (a `while` loop over the read results) to `ReadLoop`, and every other
  method to the function of the same name. `SendUsername` is specified by the handshake
  it appends to what the form has written.

Conventions of the model:

- A socket write is an entry appended to `outbox`.
- A read is `Bytes(text)` or `Fault(reason)`. `Bytes("")` is a zero-length read, meaning
  the server closed the connection.
- The outcome of opening the socket is the parameter `socketError`.
- An exception raised while a response is handled is `Raised(message)`. For `parts[2]`
  out of range, its message is .NET's IndexOutOfRangeException text.
- Log and pane lines are kept without their timestamp prefix and trailing newline.

Behaviour of the code that the model keeps:

- The subscribe buttons set or clear the flag at once, before any acknowledgement
  arrives from the server.
- Each read from the socket is handled as exactly one response.
- A `SUBSCRIPTION` response with only two parts raises an index-out-of-range exception;
  the receive loop logs it and ends.
- A publish is never refused for an unsubscribed channel.
- A `failure` acknowledgement clears the flag, whatever was requested.

## Model

| member | source | states |
|---|---|---|
| `Text.Split` | client/Form1.cs:145 | The result is never empty and no piece contains the separator. A response without a space is a single piece. A response with a space gives at least two pieces. |
| `Text.JoinSplit` | client/Form1.cs:145-152 | Joining the pieces of a split with the separator gives back the original text exactly. |
| `Text.SplitAfterPiece` | client/Form1.cs:145 | A separator-free piece followed by the separator splits off as exactly that piece, and the rest splits on its own. |
| `Text.SplitJoin` | client/Form1.cs:145-152 | Splitting the join of separator-free pieces gives back the pieces. |
| `Wire.ChannelNamed` | client/Form1.cs:107-125 | A name denotes a channel exactly when it is that channel's name (both directions). |
| `Wire.FirstToken` | client/Form1.cs:148 | The token the decoder dispatches on holds no space. |
| `Wire.Decode` | client/Form1.cs:143-163 | The response is ignored exactly when it has no space. It is a channel message exactly when it has a space and its first space-separated token is `MESSAGE`. It is an acknowledgement (or lacks its status) exactly when it has a space and its first space-separated token is `SUBSCRIPTION`. Otherwise, when it has a space, it is unknown and carries the whole response. Decoded channel and status hold no space. |
| `Wire.DecodeMessage` | client/Form1.cs:150-153 | For any channel without a space, `MESSAGE <channel> <text>` decodes to exactly that channel and text, with the text's spaces and empty words kept. |
| `Wire.DecodeMessageWithoutText` | client/Form1.cs:150-153 | `MESSAGE <channel>` with no third part carries the empty text. |
| `Wire.DecodeSubscription` | client/Form1.cs:155-156 | `SUBSCRIPTION <channel> <status>`, followed by nothing or by further space-separated tokens, decodes to that channel and status. |
| `Wire.DecodeSubscriptionWithoutStatus` | client/Form1.cs:155-156 | `SUBSCRIPTION <channel>` with only two parts is the case where the status index is out of range. |
| `Wire.ParseKeyword` | client/Form1.cs:55 | `<keyword>:<field>` splits on `:` into exactly the keyword and the field when neither holds `:`. |
| `Wire.ParseEncode` | client/Form1.cs:240-285 | Every command the client writes reads back as itself when its fields hold no `:`: `CONNECT:` (line 55), `SUBSCRIBE:`/`UNSUBSCRIBE:` (lines 244-269) and `MESSAGE:<text>:<channel>` (lines 220, 284). |
| `Wire.EncodeInjective` | client/Form1.cs:240-285 | Two different commands without `:` in their fields are never written as the same text. |
| `Wire.PublishColonAmbiguity` | client/Form1.cs:220 | Because `:` is not escaped, two different publishes can be written as the same text. |
| `Session.ConnectToServer` | client/Form1.cs:36-57 | When the socket opens, the username is kept, the handshake `CONNECT:<user>` is written, and it parses back as `Connect(user)` when the name holds no `:`. Then "Connected to server." is logged. When the socket does not open, only "Connection failed: " and the reason is logged. No flag or pane changes. |
| `Session.HandleSubscriptionStatus` | client/Form1.cs:103-129 | `success` sets the named channel's flag and `failure` clears it. Any other status, and any channel that is not `IF100` or `SPS101`, leaves the flag unchanged. The other channel's flag, the writes and every log are unchanged. |
| `Session.UpdateChannelLog` | client/Form1.cs:165-185 | The message is appended to the pane of the named channel and to no other pane. For an unknown channel, "Received message from unknown channel: " and the channel go to the general log instead. No flag and no write changes. |
| `Session.ProcessServerResponse` | client/Form1.cs:143-163 | A response without a space changes nothing. An unknown first token appends exactly "Received unknown message: " and the response to the general log, and changes nothing else. Only a `SUBSCRIPTION` response can change a flag. No response writes to the server. A response raises, always with the index-out-of-range message, exactly when its first token is `SUBSCRIPTION` and it splits into exactly two parts. |
| `Session.ToggleSubscription` | client/Form1.cs:240-274 | When the flag is clear, the button writes `SUBSCRIBE:<channel>` and sets the flag. When it is set, the button writes `UNSUBSCRIBE:<channel>` and clears it. The write parses back as the request, is logged with "Sent: ", and leaves the other channel and the panes unchanged. |
| `Session.SendClick` | client/Form1.cs:212-233 | Empty text sends nothing and changes nothing. Non-empty text writes `MESSAGE:<text>:<channel>` and logs it with "Sent: ". The write parses back as the publish when the text has no `:`. No flag or pane changes. The SPS101 handler at lines 276-297 is the same. |
| `Session.ToggleTwice` | client/Form1.cs:240-274 | Two clicks restore both flags and write SUBSCRIBE then UNSUBSCRIBE, in that order, when starting unsubscribed. When starting subscribed, the order is the reverse. |
| `Session.MessageDispatched` | client/Form1.cs:150-153 | For any channel name without a space, `MESSAGE <channel> <text>` is handled exactly as `UpdateChannelLog` of that channel and text, so a message for an unknown channel is logged as such. |
| `Session.MessageWithoutTextDispatched` | client/Form1.cs:150-153 | For any channel name without a space, `MESSAGE <channel>` with nothing after the channel is handled exactly as `UpdateChannelLog` of that channel and the empty text. |
| `Session.UnknownChannelLogged` | client/Form1.cs:143-185 | `MESSAGE <channel> <text>` for a channel that is neither `IF100` nor `SPS101` appends exactly "Received message from unknown channel: " and the channel to the general log, and changes nothing else. |
| `Session.MessageReachesPane` | client/Form1.cs:143-185 | `MESSAGE <channel> <text>` for a known channel appends exactly the text to that channel's pane, and nothing else changes. |
| `Session.AcknowledgementSetsFlag` | client/Form1.cs:103-157 | `SUBSCRIPTION <channel> success` (or `failure`) for a known channel, with or without further tokens after the status, is handled as setting (or clearing) that channel's flag alone. |
| `Session.AcknowledgementDispatched` | client/Form1.cs:155-157 | For any channel and status without a space, `SUBSCRIPTION <channel> <status>`, followed by nothing or by further tokens, is handled exactly as `HandleSubscriptionStatus` of that channel and status. |
| `Session.OtherAcknowledgementIgnored` | client/Form1.cs:103-157 | An acknowledgement whose status is neither `success` nor `failure`, or whose channel is unknown, leaves the flags, the writes and every log exactly as they were. |
| `Session.ProcessAll` | client/Form1.cs:84-88 | Handling several responses in turn never writes to the server or changes the username. |
| `Session.ReadLoop` | client/Form1.cs:74-101 | The loop never takes more reads than given; if it did not stop, it took every read. It reports a close by the server exactly when the last read it took was empty. Every read before the last one it took was a non-empty response. It never writes to the server. |
| `Session.ReadLoopIgnoresRest` | client/Form1.cs:76-99 | Once the loop has stopped, the reads that follow make no difference. |
| `Session.ReadLoopInOrder` | client/Form1.cs:82-88 | When none of the responses raises (none is a two-part `SUBSCRIPTION`), each non-empty read is handled as one response, in order. The loop's run over them followed by other reads equals handling all of them and then running the loop over the others. |
| `Session.StopsAtEmptyRead` | client/Form1.cs:89-93 | After responses none of which raises (none is a two-part `SUBSCRIPTION`), a zero-length read logs "Connection closed by server." and stops the loop, which has then taken exactly one read more than there were responses. |
| `Session.FaultEndsLoop` | client/Form1.cs:95-98 | A read that faults stops the loop after that one read, logs "Error receiving data: " and the fault, and reports the fault as the reason. |
| `Session.MissingStatusEndsLoop` | client/Form1.cs:95-98 | A `SUBSCRIPTION <channel>` read stops the loop after that one read. The exception's message is logged after "Error receiving data: ", and no flag changes. |
| `Session.SubscribePublishReceive` | client/Form1.cs:36-285 | A session that connects, clicks subscribe, gets `success`, publishes a text and receives it back has written exactly the handshake, the SUBSCRIBE and the publish. Its pane then holds exactly the text, and the channel is subscribed. |
| `ClientForm.Client.constructor` | client/Form1.cs:15-21 | A new form has both flags clear, nothing written and every log empty. |
| `ClientForm.Client.DisplayLog` | client/Form1.cs:69-72 | Appends the line to the general log. |
| `ClientForm.Client.SendToServer` | client/Form1.cs:299-305 | Writes the message, then logs "Sent: " and the message. |
| `ClientForm.Client.SendUsername` | client/Form1.cs:52-57 | Writes the handshake `CONNECT:<user>` without logging it. |
| `ClientForm.Client.ConnectToServer` | client/Form1.cs:36-50 | Leaves the form as `Session.ConnectToServer` describes. |
| `ClientForm.Client.HandleSubscriptionStatus` | client/Form1.cs:103-129 | Leaves the form as `Session.HandleSubscriptionStatus` describes. |
| `ClientForm.Client.UpdateChannelLog` | client/Form1.cs:165-185 | Leaves the form as `Session.UpdateChannelLog` describes. |
| `ClientForm.Client.ProcessServerResponse` | client/Form1.cs:143-163 | Leaves the form as `Session.ProcessServerResponse` describes. When that raises, it returns the exception's message and leaves the form unchanged. |
| `ClientForm.Client.IfSubClick` | client/Form1.cs:240-256 | Leaves the form as `Session.ToggleSubscription` describes for IF100. |
| `ClientForm.Client.SpsSubClick` | client/Form1.cs:258-274 | Leaves the form as `Session.ToggleSubscription` describes for SPS101. |
| `ClientForm.Client.IfSendClick` | client/Form1.cs:212-233 | Leaves the form as `Session.SendClick` describes for IF100. |
| `ClientForm.Client.SpsSendClick` | client/Form1.cs:276-297 | Leaves the form as `Session.SendClick` describes for SPS101. |
| `ClientForm.Client.ReadFromServer` | client/Form1.cs:74-101 | The loop's final form, the number of reads it took and why it stopped are exactly those given by `Session.ReadLoop`. |

## Left out

- Socket I/O: opening the `TcpClient`, `NetworkStream` reads and writes, and ASCII
  encoding and decoding (a non-ASCII byte becomes `?`). Writes are entries in `outbox`,
  reads are a given sequence, and the connection outcome is the `socketError` parameter.
- The 1024-byte read buffer. A read is taken as given. A server line longer than the
  buffer, or two lines in one read, are split or merged by the source. The model
  reproduces this only in that it treats each read as one response.
- `ReadFromServer` blocks when no data arrives. The model stops with `Exhausted` when
  the given reads run out. Nothing in `client/Form1.cs` starts this loop: its caller
  is not part of this model.
- Timestamps (`DateTime.Now`) in log lines, and `DisplayMessage`, which is never called.
- UI control state: `DisableInput`, `EnableInput`, `UpdateUIBasedOnSubscriptionState`,
  the `.Enabled` assignments in the click handlers, and clearing the message boxes.
- Cross-thread UI access (`CheckForIllegalCrossThreadCalls`, `Invoke`). The model is
  sequential.
- Exceptions raised while sending, and the `clientSocket.Connected` check after every
  click on a send button, empty text included (lines 222-232, 286-296), which logs
  "Error: Not connected to server. Please connect first." when the socket is not
  connected. The model assumes the socket stays connected and every write succeeds,
  including sends attempted before a connection exists.
- `Button_Connect_Click`, which parses the port number from a text box, and
  `Form1_FormClosing`, which closes the socket.
- A null message text (`string.IsNullOrEmpty`): strings in the model are never null.
- `client/MessageType.cs`: an enum that the client code does not use.
