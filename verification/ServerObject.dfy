/** The server connection as the object it is: counters and flags updated in place, and the
    one channel it may own. Each method is proved against module Server. */
module ServerObject {
  import opened Bytes
  import opened Channels
  import opened ChannelObject
  import opened Flow
  import opened Server
  import ServerRuns

  class ServerConnection {
    const policy: Policy

    var authenticated: Option<User>
    var bannerSent: bool
    var channel: Channel?
    var pendingReply: bool
    var authFailures: nat
    var authRequests: nat
    var programStarted: bool
    var events: seq<Event>
    /** What was handed to the transport. */
    var sent: seq<Reply>
    var closing: bool
    ghost var consulted: nat

    ghost function Repr(): set<object>
      reads this
    {
      if channel == null then {this} else {this, channel}
    }

    ghost function ChanView(): Option<Chan>
      reads this, channel
    {
      if channel == null then None else Some(channel.View())
    }

    /** The abstract state. */
    ghost function View(): Srv
      reads this, channel
    {
      Srv(authenticated, bannerSent, ChanView(), pendingReply, authFailures, authRequests, programStarted, events, sent,
          closing, consulted)
    }

    constructor (policy: Policy)
      ensures View() == NewServer() && this.policy == policy
    {
      this.policy := policy;
      authenticated, bannerSent, channel, pendingReply, authFailures, authRequests := None, false, null, false, 0, 0;
      programStarted, events, sent, closing, consulted := false, [], [], false, 0;
    }

    // --- the transport ----------------------------------------------------------------------

    method SendPacket(r: Reply)
      modifies this`sent
      ensures View() == Send(old(View()), r)
    {
      if !closing {
        sent := sent + [r];
      }
    }

    method SendMessages(ms: seq<Msg>)
      modifies this`sent
      ensures View() == SendAll(old(View()), ms)
    {
      hide Send;
      for i := 0 to |ms|
        invariant SendAll(View(), ms[i..]) == SendAll(old(View()), ms)
      {
        assert ms[i..][1..] == ms[i + 1..];
        SendPacket(Conn(ms[i]));
      }
      assert ms[|ms|..] == [];
    }

    method Disconnect()
      modifies this`sent, this`closing
      ensures View() == Server.Disconnect(old(View()))
    {
      if !closing {
        sent, closing := sent + [Goodbye], true;
      }
    }

    // --- authentication ------------------------------------------------------------------------

    method HandleServiceRequest(userauth: bool)
      modifies this`sent, this`closing, this`bannerSent
      ensures View() == OnService(policy, old(View()), userauth)
    {
      if !userauth {
        Disconnect();
        return;
      }
      SendPacket(ServiceAccept);
      if !bannerSent {
        bannerSent := true;
        if policy.banner {
          SendPacket(Banner);
        }
      }
    }

    method SendFailure()
      modifies this`sent, this`closing, this`authFailures, this`events
      ensures View() == Server.SendFailure(policy, old(View()))
    {
      hide Server.Disconnect, Send;
      authFailures := authFailures + 1;
      assert View() == old(View()).(authFailures := old(authFailures) + 1);
      if authFailures >= policy.maxAttempts {
        Disconnect();
        PushEvent(AuthExhausted);
        return;
      }
      SendPacket(AuthFailure);
    }

    method PushEvent(e: Event)
      modifies this`events
      ensures View() == Note(old(View()), e)
    {
      events := events + [e];
    }

    method FinishAuth(user: User, granted: bool)
      modifies this`sent, this`closing, this`authFailures, this`events, this`authenticated
      ensures View() == Server.FinishAuth(policy, old(View()), user, granted)
    {
      hide Server.SendFailure, Send;
      if granted {
        SendPacket(AuthSuccess);
        ghost var s := View();
        authenticated := Some(user);
        assert View() == s.(authenticated := Some(user));
        PushEvent(Authenticated(user));
      } else {
        SendFailure();
      }
    }

    method HandlePublicKey(user: User, a: Attempt)
      requires a.PublicKey?
      modifies this`sent, this`closing, this`authFailures, this`events, this`authenticated, this`consulted
      ensures View() == OnPublicKey(policy, old(View()), user, a)
    {
      hide Server.SendFailure, Server.FinishAuth, Send;
      if !a.readable {
        SendFailure();
        return;
      }
      consulted := consulted + 1;
      assert View() == Consult(old(View()));
      if !a.authorized {
        SendFailure();
      } else if a.proof.None? {
        SendPacket(PkOk);
      } else {
        FinishAuth(user, a.proof.value);
      }
    }

    method HandleUserAuth(user: User, a: Attempt) returns (r: Result<()>)
      modifies this`sent, this`closing, this`authFailures, this`authRequests, this`events, this`authenticated, this`consulted
      ensures match OnUserAuth(policy, old(View()), user, a)
              case Ok(s) => r == Ok(()) && View() == s
              case Err(e) => r == Err(e)
    {
      hide Server.FinishAuth, OnPublicKey, Server.Disconnect;
      authRequests := authRequests + 1;
      assert View() == old(View()).(authRequests := old(authRequests) + 1);
      if authRequests > policy.maxRequests {
        Disconnect();
        PushEvent(AuthExhausted);
        return Ok(());
      }
      if a.Unreadable? {
        return Err(Encoding);
      }
      if a.PublicKey? {
        HandlePublicKey(user, a);
      } else {
        ghost var s := View();
        if !a.UnknownMethod? {
          consulted := consulted + 1;
        }
        assert View() == if a.UnknownMethod? then s else Consult(s);
        FinishAuth(user, match a case NoMethod(allowed) => allowed case Password(right) => right case _ => false);
      }
      return Ok(());
    }

    // --- the channel -----------------------------------------------------------------------------

    method HandleChannelOpen(session: bool, window: u32, maxPacket: u32)
      modifies this
      ensures fresh(Repr() - old(Repr()))
      ensures View() == OnOpen(old(View()), session, window, maxPacket)
    {
      hide Send;
      if !session || channel != null || maxPacket < MIN_REMOTE_MAX_PACKET {
        SendPacket(OpenFailure);
        return;
      }
      var ch := new Channel();
      ch.SetRemote(window, maxPacket);
      channel, programStarted := ch, false;
      assert View() == old(View()).(chan := Some(SetRemote(Fresh(), window, maxPacket)), programStarted := false);
      SendPacket(Conn(Confirm(DEFAULT_WINDOW, MAX_PACKET)));
    }

    method HandleProgramRequest(program: Program, wantReply: bool)
      modifies this`sent, this`pendingReply, this`programStarted, this`events
      ensures View() == OnProgram(old(View()), program, wantReply)
    {
      hide Send;
      if programStarted {
        if wantReply {
          SendPacket(Failure);
        }
        return;
      }
      pendingReply, programStarted := wantReply, true;
      PushEvent(ProgramAsked(program));
    }

    /** A terminal, if the policy allows one and a channel is there to hold it. */
    method HandlePtyRequest(pty: Pty) returns (granted: bool)
      modifies channel
      ensures granted == (policy.allowPty && channel != null)
      ensures View() == if granted then old(View()).(chan := Some(old(channel.View()).(pty := Some(pty)))) else old(View())
    {
      granted := policy.allowPty && channel != null;
      if granted {
        channel.SetPty(pty);
      }
    }

    method HandleWindowChange(cols: u16, rows: u16, widthPx: u32, heightPx: u32) returns (applied: bool)
      modifies this`events, channel
      ensures applied == (channel != null && old(channel.pty).Some?)
      ensures View() == if applied
                        then Note(old(View()).(chan := Some(Resized(old(channel.View()), cols, rows, widthPx, heightPx))),
                                  WindowChange(cols, rows))
                        else old(View())
    {
      applied := false;
      if channel != null {
        applied := channel.UpdatePtySize(cols, rows, widthPx, heightPx);
        if applied {
          PushEvent(WindowChange(cols, rows));
        }
      }
    }

    method HandleOtherRequest(ask: Ask, wantReply: bool)
      modifies this`sent, this`events, channel
      ensures View() == OnOtherRequest(policy, old(View()), ask, wantReply)
    {
      hide Send, Resized, Cells;
      var granted := ask.Env?;
      match ask {
        case Terminal(term, cols, rows, widthPx, heightPx, modes) =>
          granted := HandlePtyRequest(Pty(term, Cells(cols), Cells(rows), widthPx, heightPx, modes));
        case Resize(cols, rows, widthPx, heightPx) =>
          granted := HandleWindowChange(Cells(cols), Cells(rows), widthPx, heightPx);
        case _ =>
      }
      if wantReply {
        SendPacket(if granted then Success else Failure);
      }
    }

    /** The driver accepts or rejects the program request. */
    method AnswerChannel(accept: bool)
      modifies this`sent, this`pendingReply
      ensures View() == Answer(old(View()), accept)
    {
      hide Send;
      if pendingReply {
        pendingReply := false;
        assert View() == old(View()).(pendingReply := false);
        SendPacket(if accept then Success else Failure);
      }
    }

    method HandleChannelData(bytes: seq<byte>)
      modifies this, channel
      ensures channel == old(channel)
      ensures View() == OnData(old(View()), bytes)
    {
      hide Server.Disconnect, ConsumeIncoming;
      if channel != null {
        var ok := channel.ConsumeIncoming(|bytes|);
        if !ok {
          Disconnect();
          return;
        }
      }
      PushEvent(DataIn(bytes));
    }

    /** Sends what the window allows; once all is out, finishes a close that was asked for. */
    method FlushChannel()
      requires Usable(View())
      modifies this, channel
      ensures channel == old(channel)
      ensures View() == Server.FlushChannel(policy, old(View()))
    {
      hide Drain, SendAll, Unsent;
      if channel == null {
        return;
      }
      var ms := channel.DrainOutput(policy.cap);
      var ending := channel.out == [] && channel.wantClose && !channel.sentClose;
      if ending {
        channel.sentEof, channel.sentClose := true, true;
        ms := ms + [ExitStatus(if channel.exitStatus.Some? then channel.exitStatus.value else 0), Eof, Close];
      }
      assert (ms, channel.View()) == ServerFlush(old(channel.View()), policy.cap);
      assert View() == old(View()).(chan := Some(channel.View()));
      SendMessages(ms);
    }

    method HandleWindowAdjust(n: u32)
      requires Usable(View())
      modifies this, channel
      ensures channel == old(channel)
      ensures View() == OnAdjust(policy, old(View()), n)
    {
      hide Server.FlushChannel, Unsent;
      if channel == null {
        return;
      }
      channel.AddRemoteWindow(n);
      FlushChannel();
    }

    method HandleChannelClose()
      modifies this, channel
      ensures Repr() <= old(Repr())
      ensures View() == OnClose(old(View()))
    {
      if channel != null {
        channel.recvClose := true;
        if !channel.sentClose {
          channel.sentClose := true;
          SendPacket(Conn(Close));
        }
      }
      channel, programStarted := null, false;
      PushEvent(Closed);
    }

    // --- the driver's calls ------------------------------------------------------------------------

    method ChannelOutput(ext: bool, data: seq<byte>)
      requires Usable(View())
      modifies this, channel
      ensures channel == old(channel)
      ensures View() == Output(policy, old(View()), ext, data)
    {
      hide Server.FlushChannel, Unsent, Enqueue;
      if channel == null {
        return;
      }
      EnqueueAppends(channel.View(), ext, data);
      if ext {
        channel.EnqueueStderr(data);
      } else {
        channel.EnqueueStdout(data);
      }
      FlushChannel();
    }

    method ChannelExit(status: u32)
      requires Usable(View())
      modifies this, channel
      ensures channel == old(channel)
      ensures View() == OnExit(policy, old(View()), status)
    {
      hide Server.FlushChannel, Unsent;
      if channel == null {
        return;
      }
      channel.RequestClose(status);
      FlushChannel();
    }

    method ChannelConsumed(len: u32)
      requires Usable(View())
      modifies this, channel
      ensures channel == old(channel)
      ensures View() == OnConsumed(old(View()), len)
    {
      hide AckIncoming, Unsent, SendAll;
      if channel == null {
        return;
      }
      var grant := channel.AckIncoming(len);
      assert View() == old(View()).(chan := Some(channel.View()));
      SendMessages(if grant.Some? then [Adjust(grant.value)] else []);
    }

    method TakeFlushedOutput() returns (n: nat)
      modifies channel
      ensures View() == OnTake(old(View()))
      ensures n == if channel == null then 0 else old(channel.flushedOut)
    {
      if channel == null {
        return 0;
      }
      n := channel.TakeFlushedOut();
    }

    // --- packets ---------------------------------------------------------------------------------

    method HandlePreauth(packet: Packet) returns (r: Result<()>)
      modifies this
      ensures channel == old(channel)
      ensures match PreAuth(policy, old(View()), packet)
              case Ok(s) => r == Ok(()) && View() == s
              case Err(e) => r == Err(e)
    {
      hide OnUserAuth, OnService;
      match packet {
        case ServiceRequest(userauth) => HandleServiceRequest(userauth);
        case BrokenService => return Err(Encoding);
        case UserAuth(user, attempt) =>
          r := HandleUserAuth(user, attempt);
          return;
        case _ =>
      }
      return Ok(());
    }

    method HandleConnection(packet: Packet) returns (r: Result<()>)
      requires Usable(View())
      modifies this, channel
      ensures fresh(Repr() - old(Repr()))
      ensures match Connection(policy, old(View()), packet)
              case Ok(s) => r == Ok(()) && View() == s
              case Err(e) => r == Err(e)
    {
      hide OnOpen, OnProgram, OnOtherRequest, OnData, OnAdjust, OnClose, Unsent, Send;
      match packet {
        case ChannelOpen(session, window, maxPacket) => HandleChannelOpen(session, window, maxPacket);
        case ProgramRequest(program, wantReply) => HandleProgramRequest(program, wantReply);
        case OtherRequest(ask, wantReply) => HandleOtherRequest(ask, wantReply);
        case ChannelData(bytes) => HandleChannelData(bytes);
        case WindowAdjust(n) => HandleWindowAdjust(n);
        case ChannelEof => PushEvent(EofIn);
        case ChannelClose => HandleChannelClose();
        case BrokenChannel => return Err(Encoding);
        case _ =>
      }
      return Ok(());
    }

    /** Handles every packet the transport has decrypted, even after the server has decided to
        close; an error ends the connection. */
    method Pump(packets: seq<Packet>) returns (r: Result<()>)
      requires ServerRuns.Guarded(policy, View())
      modifies this, channel
      ensures r.Ok? ==> ServerRuns.Guarded(policy, View())
      ensures r.Ok? ==> View() == ServerRuns.Run(policy, old(View()), ServerRuns.Received(packets))
    {
      hide ServerRuns.Guarded, Connection, PreAuth;
      ghost var all := ServerRuns.Received(packets);
      var i := 0;
      while i < |packets|
        invariant 0 <= i <= |packets|
        invariant ServerRuns.Guarded(policy, View()) && fresh(Repr() - old(Repr()))
        invariant ServerRuns.Run(policy, View(), all[i..]) == ServerRuns.Run(policy, old(View()), all)
      {
        ghost var s := View();
        ServerRuns.CallGuarded(policy, s, Receives(packets[i]));
        ServerRuns.GuardedUsable(policy, s);
        assert all[i..][0] == Receives(packets[i]) && all[i..][1..] == all[i + 1..];
        if authenticated.Some? {
          r := HandleConnection(packets[i]);
        } else {
          r := HandlePreauth(packets[i]);
        }
        if r.Err? {
          return;
        }
        i := i + 1;
      }
      assert all[|packets|..] == [];
      return Ok(());
    }
  }
}
