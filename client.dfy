/**
 * The client form's handlers as methods on the fields they update in place.
 * Each method except SendUsername is proved to leave the object in the state
 * a function of module Session gives for the state before the call:
 * IfSubClick and SpsSubClick that of ToggleSubscription, IfSendClick and
 * SpsSendClick that of SendClick, ReadFromServer that of ReadLoop, and every
 * other method that of the function of the same name.
 * Socket writes are appended to `outbox`; the panes and the general log are
 * sequences of lines.
 */
module ClientForm {
  import opened Text
  import opened Wire
  import opened Session

  class Client {
    var subscribedToIF100: bool
    var subscribedToSPS101: bool
    var username: string
    var outbox: seq<string>
    var logs: seq<string>
    var ifLogs: seq<string>
    var spsLogs: seq<string>

    /** The object's fields as a value. */
    function Snapshot(): ClientState
      reads this
    {
      ClientState(subscribedToIF100, subscribedToSPS101, username, outbox, logs, ifLogs, spsLogs)
    }

    constructor ()
      ensures Snapshot() == Initial()
    {
      subscribedToIF100, subscribedToSPS101 := false, false;
      username := "";
      outbox, logs, ifLogs, spsLogs := [], [], [], [];
    }

    method DisplayLog(message: string)
      modifies this
      ensures Snapshot() == Session.DisplayLog(old(Snapshot()), message)
    {
      logs := logs + [message];
    }

    method SendToServer(message: string)
      modifies this
      ensures Snapshot() == Session.SendToServer(old(Snapshot()), message)
    {
      outbox := outbox + [message];
      DisplayLog("Sent: " + message);
    }

    /** The handshake is written without a log line of its own. */
    method SendUsername(user: string)
      modifies this
      ensures Snapshot() == old(Snapshot()).(outbox := old(outbox) + [Encode(Connect(user))])
    {
      outbox := outbox + ["CONNECT:" + user];
    }

    /** `socketError` is the outcome of opening the socket: None when it opened. */
    method ConnectToServer(user: string, socketError: Option<string>)
      modifies this
      ensures Snapshot() == Session.ConnectToServer(old(Snapshot()), user, socketError)
    {
      if socketError.None? {
        username := user;
        SendUsername(username);
        DisplayLog("Connected to server.");
      } else {
        DisplayLog("Connection failed: " + socketError.value);
      }
    }

    method HandleSubscriptionStatus(channel: string, status: string)
      modifies this
      ensures Snapshot() == Session.HandleSubscriptionStatus(old(Snapshot()), channel, status)
    {
      if status == "success" {
        if channel == "IF100" {
          subscribedToIF100 := true;
        } else if channel == "SPS101" {
          subscribedToSPS101 := true;
        }
      } else if status == "failure" {
        if channel == "IF100" {
          subscribedToIF100 := false;
        } else if channel == "SPS101" {
          subscribedToSPS101 := false;
        }
      }
    }

    method UpdateChannelLog(channel: string, message: string)
      modifies this
      ensures Snapshot() == Session.UpdateChannelLog(old(Snapshot()), channel, message)
    {
      if channel == "IF100" {
        ifLogs := ifLogs + [message];
      } else if channel == "SPS101" {
        spsLogs := spsLogs + [message];
      } else {
        DisplayLog("Received message from unknown channel: " + channel);
      }
    }

    /** `exception` carries the message of an exception the handling raised, if any. */
    method ProcessServerResponse(response: string) returns (exception: Option<string>)
      modifies this
      ensures var p := Session.ProcessServerResponse(old(Snapshot()), response);
              if p.Handled? then exception == None && Snapshot() == p.state
              else exception == Some(p.reason) && Snapshot() == old(Snapshot())
    {
      var parts := Split(response, ' ');
      if |parts| >= 2 {
        if parts[0] == "MESSAGE" {
          var channel := parts[1];
          var message := Join(" ", parts[2..]);
          UpdateChannelLog(channel, message);
        } else if parts[0] == "SUBSCRIPTION" {
          if |parts| < 3 {
            return Some(IndexOutOfRange);
          }
          HandleSubscriptionStatus(parts[1], parts[2]);
        } else {
          DisplayLog("Received unknown message: " + response);
        }
      }
      return None;
    }

    method IfSubClick()
      modifies this
      ensures Snapshot() == ToggleSubscription(old(Snapshot()), IF100)
    {
      if !subscribedToIF100 {
        assert Encode(Subscribe(ChannelName(IF100))) == "SUBSCRIBE:IF100";
        SendToServer("SUBSCRIBE:IF100");
        subscribedToIF100 := true;
      } else {
        assert Encode(Unsubscribe(ChannelName(IF100))) == "UNSUBSCRIBE:IF100";
        SendToServer("UNSUBSCRIBE:IF100");
        subscribedToIF100 := false;
      }
    }

    method SpsSubClick()
      modifies this
      ensures Snapshot() == ToggleSubscription(old(Snapshot()), SPS101)
    {
      if !subscribedToSPS101 {
        assert Encode(Subscribe(ChannelName(SPS101))) == "SUBSCRIBE:SPS101";
        SendToServer("SUBSCRIBE:SPS101");
        subscribedToSPS101 := true;
      } else {
        assert Encode(Unsubscribe(ChannelName(SPS101))) == "UNSUBSCRIBE:SPS101";
        SendToServer("UNSUBSCRIBE:SPS101");
        subscribedToSPS101 := false;
      }
    }

    /** `text` is what the IF100 message box held when the button was clicked. */
    method IfSendClick(text: string)
      modifies this
      ensures Snapshot() == SendClick(old(Snapshot()), IF100, text)
    {
      if text != "" {
        assert "MESSAGE:" + text + ":IF100" == Encode(Publish(text, ChannelName(IF100)));
        SendToServer("MESSAGE:" + text + ":IF100");
      }
    }

    /** `text` is what the SPS101 message box held when the button was clicked. */
    method SpsSendClick(text: string)
      modifies this
      ensures Snapshot() == SendClick(old(Snapshot()), SPS101, text)
    {
      if text != "" {
        assert "MESSAGE:" + text + ":SPS101" == Encode(Publish(text, ChannelName(SPS101)));
        SendToServer("MESSAGE:" + text + ":SPS101");
      }
    }

    /**
     * The receive loop, fed the results of successive reads. Returns how many
     * reads it took and why it stopped.
     */
    method ReadFromServer(input: seq<Read>) returns (consumed: nat, end: LoopEnd)
      modifies this
      ensures LoopResult(Snapshot(), consumed, end) == ReadLoop(old(Snapshot()), input)
    {
      var i := 0;
      while i < |input|
        invariant 0 <= i <= |input|
        invariant var tail := ReadLoop(Snapshot(), input[i..]);
                  ReadLoop(old(Snapshot()), input) == LoopResult(tail.state, tail.consumed + i, tail.end)
      {
        assert input[i..][0] == input[i] && input[i..][1..] == input[i + 1..];
        ghost var before := Snapshot();
        match input[i] {
          case Fault(reason) =>
            DisplayLog("Error receiving data: " + reason);
            return i + 1, ReceiveError(reason);
          case Bytes(text) =>
            if text == "" {
              DisplayLog("Connection closed by server.");
              return i + 1, ClosedByServer;
            }
            var exception := ProcessServerResponse(text);
            if exception.Some? {
              DisplayLog("Error receiving data: " + exception.value);
              return i + 1, ReceiveError(exception.value);
            }
            assert ReadLoop(before, input[i..]) ==
                   var rest := ReadLoop(Snapshot(), input[i + 1..]);
                   LoopResult(rest.state, rest.consumed + 1, rest.end);
        }
        i := i + 1;
      }
      assert input[i..] == [];
      return |input|, Exhausted;
    }
  }
}
