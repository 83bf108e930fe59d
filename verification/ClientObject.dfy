/** The client connection as the object it is, with the channel it owns. Each method is proved
    against module Client. */
module ClientObject {
  import opened Bytes
  import opened Channels
  import opened ChannelObject
  import C = Client

  class ClientConnection {
    const cap: Option<u32>

    var authenticated: bool
    var channel: Channel?
    var pending: Option<C.Request>
    var wantPty: Option<Pty>
    /** Requests that await an answer, in the order they were sent. */
    var replyQueue: seq<C.PendingReply>
    /** What was handed to the transport, while it was not closing. */
    var sent: seq<C.Outgoing>
    var events: seq<C.Notice>
    var closing: bool

    ghost function ChanView(): Option<Chan>
      reads this, channel
    {
      if channel == null then None else Some(channel.View())
    }

    /** The abstract state. */
    ghost function View(): C.Cli
      reads this, channel
    {
      C.Cli(authenticated, ChanView(), pending, wantPty, replyQueue, sent, events, closing)
    }

    constructor (cap: Option<u32>)
      ensures View() == C.Cli(false, None, None, None, [], [], [], false) && this.cap == cap
    {
      this.cap, authenticated, channel, pending, wantPty := cap, false, null, None, None;
      replyQueue, sent, events, closing := [], [], [], false;
    }

    method SendAll(out: seq<C.Outgoing>)
      modifies this`sent
      ensures View() == C.SendAll(old(View()), out)
    {
      if !closing {
        sent := sent + out;
      }
    }

    /** Asks for a terminal with the next session. */
    method RequestPty(term: seq<byte>, cols: u16, rows: u16)
      modifies this`wantPty
      ensures View() == old(View()).(wantPty := Some(Pty(term, cols, rows, 0, 0, [])))
    {
      wantPty := Some(Pty(term, cols, rows, 0, 0, []));
    }

    /** Asks for a session channel; its window is granted with the request. */
    method OpenSession(request: C.Request) returns (r: Result<()>)
      modifies this`channel, this`pending, this`sent
      ensures match C.OpenSession(old(View()), request)
              case Ok(s) => r == Ok(()) && View() == s && fresh(channel)
              case Err(e) => r == Err(e) && View() == old(View())
    {
      if !authenticated {
        return Err(Protocol);
      }
      channel := new Channel();
      pending := Some(request);
      SendAll([C.OnChannel(Open(DEFAULT_WINDOW, MAX_PACKET))]);
      return Ok(());
    }

    /** Sends what the window allows; once all is out, the EOF that was asked for. */
    method FlushChannel()
      requires C.Usable(View())
      modifies this`sent, channel
      ensures View() == C.FlushChannel(old(View()), cap)
    {
      hide Drain, Unsent;
      if channel == null {
        return;
      }
      var ms := channel.DrainOutput(cap);
      if channel.out == [] && channel.wantEof && !channel.sentEof {
        channel.sentEof := true;
        ms := ms + [Eof];
      }
      SendAll(C.Channeled(ms));
    }

    method WriteStdin(data: seq<byte>)
      requires C.Usable(View())
      modifies this`sent, channel
      ensures View() == C.WriteStdin(old(View()), data, cap)
    {
      hide C.FlushChannel, Enqueue, Unsent;
      if channel != null {
        EnqueueAppends(channel.View(), false, data);
        EnqueueKeeps(channel.View(), false, data);
        channel.EnqueueStdout(data);
        FlushChannel();
      }
    }

    /** EOF waits for queued stdin. */
    method SendEof()
      requires C.Usable(View())
      modifies this`sent, channel
      ensures View() == C.SendEof(old(View()), cap)
    {
      hide C.FlushChannel, Unsent;
      if channel != null {
        channel.RequestEof();
        FlushChannel();
      }
    }

    method AskPty()
      modifies this`wantPty, this`sent, this`replyQueue
      ensures View() == C.AskPty(old(View()))
    {
      if wantPty.Some? {
        SendAll([C.PtyRequest(wantPty.value)]);
        wantPty := None;
        replyQueue := replyQueue + [C.PtyReply];
      }
    }

    method AskSession()
      modifies this`pending, this`sent, this`replyQueue
      ensures View() == C.AskSession(old(View()))
    {
      if pending.Some? {
        SendAll([C.SessionRequest(pending.value)]);
        pending := None;
        replyQueue := replyQueue + [C.SessionReply];
      }
    }

    /** The channel is up: ask for the terminal, then for the session, then flush. */
    method HandleOpenConfirmation(window: u32, maxPacket: u32)
      requires C.Usable(View())
      modifies this, channel
      ensures channel == old(channel)
      ensures View() == C.OnConfirmation(old(View()), window, maxPacket, cap)
    {
      hide C.FlushChannel, C.AskPty, C.AskSession, Unsent;
      if channel == null {
        return;
      }
      channel.SetRemote(window, maxPacket);
      events := events + [C.ChannelReady];
      AskPty();
      AskSession();
      FlushChannel();
    }

    method HandleOpenFailure()
      modifies this`channel, this`replyQueue, this`events
      ensures View() == C.OnOpenFailure(old(View()))
    {
      channel, replyQueue := null, [];
      events := events + [C.OpenFailed];
    }

    /** Accounts for received data and acknowledges it at once; an overrun window ends the
        connection. */
    method ReplenishWindow(len: u32)
      requires C.Usable(View())
      modifies this`sent, this`closing, channel
      ensures View() == C.ReplenishWindow(old(View()), len)
    {
      hide Channels.AckIncoming, Unsent;
      if channel == null {
        return;
      }
      var ok := channel.ConsumeIncoming(len);
      if !ok {
        if !closing {
          sent, closing := sent + [C.Farewell], true;
        }
        return;
      }
      var grant := channel.AckIncoming(len);
      if grant.Some? {
        SendAll(C.Channeled([Adjust(grant.value)]));
      } else {
        assert sent + C.Channeled([]) == sent;
      }
    }

    method HandleData(bytes: seq<byte>, ext: bool)
      requires C.Usable(View()) && |bytes| < 0x1_0000_0000
      modifies this, channel
      ensures channel == old(channel)
      ensures View() == C.OnData(old(View()), bytes, ext)
    {
      hide C.ReplenishWindow;
      ReplenishWindow(|bytes|);
      events := events + [if ext then C.Stderr(bytes) else C.Stdout(bytes)];
    }

    method HandleWindowAdjust(n: u32)
      requires C.Usable(View())
      modifies this`sent, channel
      ensures View() == C.OnAdjust(old(View()), n, cap)
    {
      hide C.FlushChannel, Unsent;
      if channel != null {
        channel.AddRemoteWindow(n);
        FlushChannel();
      }
    }

    method GiveUp()
      modifies this`sent, this`channel, this`replyQueue, this`events, channel
      ensures View() == C.GiveUp(old(View()))
    {
      if channel != null && !channel.sentClose {
        channel.sentClose := true;
        SendAll([C.OnChannel(Close)]);
      }
      channel, replyQueue := null, [];
      events := events + [C.ChannelGone];
    }

    /** The oldest request was granted. */
    method HandleSuccess()
      modifies this`replyQueue, this`events
      ensures View() == C.OnSuccess(old(View()))
    {
      if replyQueue != [] {
        var reply := replyQueue[0];
        replyQueue := replyQueue[1..];
        if reply.PtyReply? {
          events := events + [C.PtyGranted];
        }
      }
    }

    /** The oldest request was refused. */
    method HandleFailure()
      modifies this`sent, this`channel, this`replyQueue, this`events, channel
      ensures View() == C.OnFailure(old(View()))
    {
      hide C.GiveUp;
      var pty := replyQueue != [] && replyQueue[0].PtyReply?;
      if replyQueue != [] {
        replyQueue := replyQueue[1..];
      }
      if pty {
        events := events + [C.PtyRefused];
      } else {
        events := events + [C.RequestFailed];
        GiveUp();
      }
    }

    method HandleChannelClose()
      modifies this`sent, this`channel, this`replyQueue, this`events, channel
      ensures View() == C.OnClose(old(View()))
    {
      GiveUp();
    }
  }
}
