/** What the server tells its client: the one answer to a login request, the one to a request
    for service or for a channel, what surfaces of each packet, and that nothing of a channel
    goes out before the login was granted. */
module Logins {
  import opened Bytes
  import opened Channels
  import opened Flow
  import opened Server
  import opened ServerRuns
  import opened LateLogin

  // --- one request -----------------------------------------------------------------------------

  /** A key that would do, shown without a signature. */
  predicate Probes(a: Attempt) { a.PublicKey? && a.readable && a.authorized && a.proof.None? }

  /** A live server answers a readable login request, within the cap on requests, with exactly
      one message: success if and only if the request is granted, a go-ahead if and only if it is
      a probe for a key that would do, the end of the connection if and only if it is the last
      failure allowed, and a failure otherwise. It logs in, or closes, with just that message. */
  lemma LoginAnswered(p: Policy, s: Srv, user: User, a: Attempt)
    requires !s.closing && s.authenticated.None? && !a.Unreadable? && s.authRequests < p.maxRequests
    ensures var r := OnUserAuth(p, s, user, a);
            && r.Ok?
            && var t := r.value;
               && t.sent == s.sent + [if Grants(a) then AuthSuccess else if Probes(a) then PkOk
                                      else if s.authFailures + 1 >= p.maxAttempts then Goodbye else AuthFailure]
               && (t.authenticated == if Grants(a) then Some(user) else None)
               && (t.closing <==> !Grants(a) && !Probes(a) && s.authFailures + 1 >= p.maxAttempts)
               && t.authRequests == s.authRequests + 1
               && t.authFailures == s.authFailures + (if Grants(a) || Probes(a) then 0 else 1)
  {
    hide SendFailure;
    var t := s.(authRequests := s.authRequests + 1);
    FailureAnswered(p, t);
    FailureAnswered(p, Consult(t));
  }

  lemma FailureAnswered(p: Policy, s: Srv)
    requires !s.closing
    ensures var t, last := SendFailure(p, s), s.authFailures + 1 >= p.maxAttempts;
            && t.sent == s.sent + [if last then Goodbye else AuthFailure] && t.closing == last
            && t.authFailures == s.authFailures + 1 && t.authRequests == s.authRequests && t.authenticated == s.authenticated
  {
  }

  /** A request that cannot be read is an error, and nothing else is. */
  lemma UnreadableFails(p: Policy, s: Srv, user: User, a: Attempt)
    ensures OnUserAuth(p, s, user, a).Err? <==> a.Unreadable? && s.authRequests < p.maxRequests
  {
    hide SendFailure;
  }

  /** A request over the cap ends the connection. */
  lemma LoginOverCap(p: Policy, s: Srv, user: User, a: Attempt)
    requires !s.closing && s.authRequests >= p.maxRequests
    ensures OnUserAuth(p, s, user, a)
         == Ok(s.(authRequests := s.authRequests + 1, sent := s.sent + [Goodbye], closing := true,
                  events := s.events + [AuthExhausted]))
  {
  }

  /** A request for the authentication service is accepted, with the banner behind the first;
      one for any other service ends the connection. */
  lemma ServiceAnswered(p: Policy, s: Srv, userauth: bool)
    requires !s.closing
    ensures var t := OnService(p, s, userauth);
            && t.sent == s.sent + (if !userauth then [Goodbye]
                                   else if p.banner && !s.bannerSent then [ServiceAccept, Banner]
                                   else [ServiceAccept])
            && t.closing == !userauth && t.bannerSent == (s.bannerSent || userauth) && t.events == s.events
  {
    assert s.sent + [ServiceAccept] + [Banner] == s.sent + [ServiceAccept, Banner];
  }

  /** A request for a channel gets exactly one answer. It is confirmed if and only if it is for a
      session, none is open, and the packet size is workable; the channel then has the full window
      for the client and just what the client granted. */
  lemma OpenAnswered(s: Srv, session: bool, window: u32, maxPacket: u32)
    requires !s.closing
    ensures var t, opens := OnOpen(s, session, window, maxPacket), session && s.chan.None? && maxPacket >= 256;
            && t.sent == s.sent + [if opens then Conn(Confirm(0x10_0000, 32768)) else OpenFailure]
            && (!opens ==> t.chan == s.chan && t.programStarted == s.programStarted)
            && (opens ==>
                  && t.chan.Some? && !t.programStarted
                  && t.chan.value.localWindow == 0x10_0000 && t.chan.value.unacked == 0 && t.chan.value.out == []
                  && t.chan.value.remoteWindow == window && t.chan.value.remoteMaxPacket == maxPacket
                  && t.chan.value.pty.None? && !t.chan.value.sentEof && !t.chan.value.sentClose && !t.chan.value.wantClose)
  {
  }

  /** A channel request that is not for a program is answered at once if an answer is wanted, and
      with one message: success for an environment variable, for a terminal where the policy
      allows one and a channel can hold it, and for a resize of a terminal that is held; failure
      for anything else. A granted terminal is held just as it was asked for. */
  lemma AskAnswered(p: Policy, s: Srv, ask: Ask, wantReply: bool)
    requires !s.closing
    ensures var t := OnOtherRequest(p, s, ask, wantReply);
            var grants := ask.Env? || (ask.Terminal? && p.allowPty && s.chan.Some?)
                          || (ask.Resize? && s.chan.Some? && s.chan.value.pty.Some?);
            && t.sent == s.sent + (if !wantReply then [] else if grants then [Success] else [Failure])
            && (!grants || ask.Env? ==> t.chan == s.chan && t.events == s.events)
            && (ask.Terminal? && grants ==>
                  && t.chan.Some? && t.events == s.events
                  && t.chan.value.pty == Some(Pty(ask.term, Min(ask.cols, 65535), Min(ask.rows, 65535),
                                                  ask.widthPx, ask.heightPx, ask.modes)))
  {
    assert s.sent + [] == s.sent;
  }

  /** The driver's decision reaches the client if it wants to know, once. */
  lemma DecisionSent(s: Srv, accept: bool)
    requires !s.closing
    ensures var t := Answer(s, accept);
            && t.sent == s.sent + (if !s.pendingReply then [] else if accept then [Success] else [Failure])
            && !t.pendingReply
  {
    assert s.sent + [] == s.sent;
  }

  /** What surfaces of a packet, and that data beyond the window ends the connection instead. */
  lemma PacketSurfaces(p: Policy, s: Srv, packet: Packet)
    requires Usable(s) && s.authenticated.Some? && Connection(p, s, packet).Ok?
    ensures var t := Connection(p, s, packet).value;
            match packet
            case ChannelData(bytes) =>
              if s.chan.Some? && |bytes| > s.chan.value.localWindow then t.closing && t.events == s.events
              else t.events == s.events + [DataIn(bytes)]
                   && (s.chan.Some? ==> t.chan.Some? && t.chan.value.localWindow == s.chan.value.localWindow - |bytes|)
            case ChannelEof => t == s.(events := s.events + [EofIn])
            case ChannelClose => t.events == s.events + [Closed] && t.chan.None? && !t.programStarted
            case ProgramRequest(program, wantReply) =>
              t.events == (if s.programStarted then s.events else s.events + [ProgramAsked(program)])
            case OtherRequest(Resize(cols, rows, widthPx, heightPx), _) =>
              if s.chan.Some? && s.chan.value.pty.Some?
              then t.events == s.events + [WindowChange(Cells(cols), Cells(rows))] && t.chan.Some?
                   && t.chan.value.pty == Some(s.chan.value.pty.value.(cols := Cells(cols), rows := Cells(rows),
                                                                       widthPx := widthPx, heightPx := heightPx))
              else t.events == s.events && t.chan == s.chan
            case _ => t.events == s.events
  {
    hide FlushChannel, AddRemoteWindow, Unsent, OnOtherRequest, OnProgram, OnData, OnClose;
    match packet
    case ProgramRequest(program, wantReply) => ProgramSurfaces(s, program, wantReply);
    case OtherRequest(ask, wantReply) => AskSurfaces(p, s, ask, wantReply);
    case ChannelData(bytes) => DataSurfaces(s, bytes);
    case ChannelClose => CloseSurfaces(s);
    case WindowAdjust(n) =>
      if s.chan.Some? {
        AdjustShape(s.chan.value, n);
        FlushUsable(p, s.(chan := Some(AddRemoteWindow(s.chan.value, n))));
      }
    case _ =>
  }

  lemma ProgramSurfaces(s: Srv, program: Program, wantReply: bool)
    ensures OnProgram(s, program, wantReply).events == if s.programStarted then s.events else s.events + [ProgramAsked(program)]
  {
  }

  lemma AskSurfaces(p: Policy, s: Srv, ask: Ask, wantReply: bool)
    ensures var t := OnOtherRequest(p, s, ask, wantReply);
            if ask.Resize? && s.chan.Some? && s.chan.value.pty.Some?
            then t.events == s.events + [WindowChange(Cells(ask.cols), Cells(ask.rows))] && t.chan.Some?
                 && t.chan.value.pty == Some(s.chan.value.pty.value.(cols := Cells(ask.cols), rows := Cells(ask.rows),
                                                                     widthPx := ask.widthPx, heightPx := ask.heightPx))
            else t.events == s.events && (ask.Resize? ==> t.chan == s.chan)
  {
    hide Cells;
  }

  lemma DataSurfaces(s: Srv, bytes: seq<byte>)
    ensures var t := OnData(s, bytes);
            if s.chan.Some? && |bytes| > s.chan.value.localWindow then t.closing && t.events == s.events
            else t.events == s.events + [DataIn(bytes)]
                 && (s.chan.Some? ==> t.chan.Some? && t.chan.value.localWindow == s.chan.value.localWindow - |bytes|)
  {
  }

  lemma CloseSurfaces(s: Srv)
    ensures OnClose(s).events == s.events + [Closed] && OnClose(s).chan.None? && !OnClose(s).programStarted
  {
  }

  /** Before the login only a request for service or for a login does anything; after it, neither
      does any more. A packet that cannot be read is an error where it would be looked at. */
  lemma PhaseDecides(p: Policy, s: Srv, packet: Packet)
    requires Usable(s)
    ensures s.authenticated.None? && !packet.ServiceRequest? && !packet.UserAuth? && !packet.BrokenService? ==>
              OnPacket(p, s, packet) == Ok(s)
    ensures s.authenticated.None? && packet.BrokenService? ==> OnPacket(p, s, packet) == Err(Encoding)
    ensures s.authenticated.Some? && (packet.ServiceRequest? || packet.UserAuth? || packet.BrokenService? || packet.Ignored?) ==>
              OnPacket(p, s, packet) == Ok(s)
    ensures s.authenticated.Some? && packet.BrokenChannel? ==> OnPacket(p, s, packet) == Err(Encoding)
  {
    hide OnOpen, OnProgram, OnOtherRequest, OnData, OnAdjust, OnClose, Usable;
  }

  // --- whole runs --------------------------------------------------------------------------------

  function Successes(sent: seq<Reply>): nat {
    if sent == [] then 0 else Successes(sent[..|sent| - 1]) + (if sent[|sent| - 1].AuthSuccess? then 1 else 0)
  }

  predicate OfChannel(r: Reply) { r.Conn? || r.Success? || r.Failure? || r.OpenFailure? }

  /** Whatever concerns a channel comes behind a success. */
  predicate Opened(sent: seq<Reply>) {
    sent == [] || (
      var before, last := sent[..|sent| - 1], sent[|sent| - 1];
      Opened(before) && (OfChannel(last) ==> Successes(before) > 0))
  }

  lemma SentSnoc(sent: seq<Reply>, r: Reply)
    ensures Successes(sent + [r]) == Successes(sent) + (if r.AuthSuccess? then 1 else 0)
    ensures Opened(sent + [r]) <==> Opened(sent) && (OfChannel(r) ==> Successes(sent) > 0)
  {
    assert (sent + [r])[..|sent|] == sent;
  }

  /** A server not logged in has told nobody so and has nothing to answer; one that logged in
      while live has said it once. */
  ghost predicate Told(s: Srv) {
    && Opened(s.sent)
    && (s.authenticated.None? ==> Successes(s.sent) == 0 && s.chan.None? && !s.pendingReply)
    && (s.authenticated.Some? && !s.closing ==> Successes(s.sent) > 0)
  }

  /** No login; a closing server says nothing more. */
  ghost predicate Onward(s: Srv, t: Srv) {
    && Told(t) && Successes(t.sent) == Successes(s.sent)
    && (s.closing ==> t.closing && t.sent == s.sent)
  }

  lemma SendOnward(s: Srv, r: Reply)
    requires Told(s) && !r.AuthSuccess? && (OfChannel(r) ==> s.authenticated.Some?)
    ensures Onward(s, Send(s, r)) && Onward(s, Disconnect(s))
  {
    hide Successes, Opened;
    SentSnoc(s.sent, r);
    SentSnoc(s.sent, Goodbye);
  }

  lemma OnwardThen(s: Srv, t: Srv, u: Srv)
    requires Onward(s, t) && Onward(t, u)
    ensures Onward(s, u)
  {
    hide Told, Successes;
  }

  /** The parts of a server that telling does not depend on. */
  lemma SameOnward(s: Srv, t: Srv)
    requires Told(s) && t.sent == s.sent && t.closing == s.closing && t.authenticated == s.authenticated
    requires s.authenticated.Some? || (t.chan == s.chan && t.pendingReply == s.pendingReply)
    ensures Onward(s, t)
  {
    hide Successes, Opened;
  }

  lemma {:induction false} SendAllOnward(s: Srv, ms: seq<Msg>)
    requires Told(s) && s.authenticated.Some?
    ensures Onward(s, SendAll(s, ms))
    decreases |ms|
  {
    hide Onward, Told, Send;
    if ms == [] {
      SameOnward(s, s);
    } else {
      var t := Send(s, Conn(ms[0]));
      SendOnward(s, Conn(ms[0]));
      SentKeeps(s, Conn(ms[0]));
      SendAllOnward(t, ms[1..]) by { OnwardTold(s, t); }
      OnwardThen(s, t, SendAll(t, ms[1..]));
    }
  }

  lemma SentKeeps(s: Srv, r: Reply)
    ensures Send(s, r) == s.(sent := Send(s, r).sent)
  {
  }

  lemma OnwardTold(s: Srv, t: Srv)
    requires Onward(s, t)
    ensures Told(t)
  {
  }

  lemma FlushOnward(p: Policy, s: Srv, c: Chan)
    requires Told(s) && s.authenticated.Some? && Unsent(c.out)
    ensures Usable(s.(chan := Some(c))) ==> Onward(s, FlushChannel(p, s.(chan := Some(c))))
  {
    hide ServerFlush, Unsent, Told, Onward, SendAll;
    var u, v := s.(chan := Some(c)), s.(chan := Some(ServerFlush(c, p.cap).1));
    SameOnward(s, v);
    OnwardTold(s, v);
    SendAllOnward(v, ServerFlush(c, p.cap).0);
    OnwardThen(s, v, SendAll(v, ServerFlush(c, p.cap).0));
  }

  lemma WriteOnward(p: Policy, s: Srv, ext: bool, data: seq<byte>)
    requires Told(s) && Usable(s)
    ensures Onward(s, Output(p, s, ext, data))
  {
    hide FlushChannel, Unsent, Enqueue, Onward;
    if s.chan.None? {
      SameOnward(s, s);
    } else {
      EnqueueAppends(s.chan.value, ext, data);
      EnqueueKeeps(s.chan.value, ext, data);
      FlushOnward(p, s, Enqueue(s.chan.value, ext, data));
    }
  }

  lemma ConsumeOnward(s: Srv, len: u32)
    requires Told(s) && Usable(s)
    ensures Onward(s, OnConsumed(s, len))
  {
    hide Unsent, AckIncoming, Onward, Told, SendAll;
    if s.chan.None? {
      SameOnward(s, s);
    } else {
      var (ms, d) := Consumed(s.chan.value, len);
      var v := s.(chan := Some(d));
      ChannelNeedsLogin(s);
      SameOnward(s, v);
      OnwardTold(s, v);
      SendAllOnward(v, ms);
      OnwardThen(s, v, SendAll(v, ms));
    }
  }

  lemma ChannelNeedsLogin(s: Srv)
    requires Told(s)
    ensures s.chan.Some? || s.pendingReply ==> s.authenticated.Some?
  {
    hide Successes, Opened;
  }

  lemma AnswerOnward(s: Srv, accept: bool)
    requires Told(s)
    ensures Onward(s, Answer(s, accept))
  {
    hide Onward, Told;
    ChannelNeedsLogin(s);
    var u := if s.pendingReply then s.(pendingReply := false) else s;
    SameOnward(s, u);
    OnwardTold(s, u);
    if s.pendingReply {
      SendOnward(u, if accept then Success else Failure);
      OnwardThen(s, u, Answer(s, accept));
    }
  }

  lemma FailureOnward(p: Policy, s: Srv)
    requires Told(s) && s.authenticated.None?
    ensures Onward(s, SendFailure(p, s))
  {
    hide Onward, Told, Send, Disconnect;
    var t := s.(authFailures := s.authFailures + 1);
    SameOnward(s, t);
    OnwardTold(s, t);
    SendOnward(t, AuthFailure);
    OnwardThen(s, t, Send(t, AuthFailure));
    OnwardThen(s, t, Disconnect(t));
    NotedOnward(s, Disconnect(t), AuthExhausted);
  }

  lemma NotedOnward(s: Srv, t: Srv, e: Event)
    requires Onward(s, t)
    ensures Onward(s, Note(t, e))
  {
    hide Successes, Opened;
  }

  lemma PreAuthOnward(p: Policy, s: Srv, packet: Packet)
    requires Told(s) && s.authenticated.None? && PreAuth(p, s, packet).Ok? && !LogsIn(p, s, Receives(packet))
    ensures Onward(s, PreAuth(p, s, packet).value)
  {
    hide Onward, Told, SendFailure, Send, Disconnect;
    SameOnward(s, s);
    match packet
    case ServiceRequest(userauth) => ServiceOnward(p, s, userauth);
    case UserAuth(user, a) =>
      var t := s.(authRequests := s.authRequests + 1);
      SameOnward(s, t);
      OnwardTold(s, t);
      SendOnward(t, PkOk);
      OnwardThen(s, t, Disconnect(t));
      NotedOnward(s, Disconnect(t), AuthExhausted);
      FailureOnward(p, t);
      OnwardThen(s, t, SendFailure(p, t));
      SameOnward(s, Consult(t));
      OnwardTold(s, Consult(t));
      FailureOnward(p, Consult(t));
      OnwardThen(s, Consult(t), SendFailure(p, Consult(t)));
      SendOnward(Consult(t), PkOk);
      OnwardThen(s, Consult(t), Send(Consult(t), PkOk));
    case _ =>
  }

  lemma ServiceOnward(p: Policy, s: Srv, userauth: bool)
    requires Told(s)
    ensures Onward(s, OnService(p, s, userauth))
  {
    hide Onward, Told, Send, Disconnect;
    SendOnward(s, ServiceAccept);
    var t := Send(s, ServiceAccept);
    SentKeeps(s, ServiceAccept);
    OnwardTold(s, t);
    var u := t.(bannerSent := true);
    SameOnward(t, u);
    OnwardThen(s, t, u);
    OnwardTold(s, u);
    SendOnward(u, Banner);
    OnwardThen(s, u, Send(u, Banner));
  }

  lemma OpenOnward(s: Srv, session: bool, window: u32, maxPacket: u32)
    requires Told(s) && s.authenticated.Some?
    ensures Onward(s, OnOpen(s, session, window, maxPacket))
  {
    hide Onward, Told, Send;
    var t := s.(chan := Some(SetRemote(Fresh(), window, maxPacket)), programStarted := false);
    SendOnward(s, OpenFailure);
    SameOnward(s, t);
    OnwardTold(s, t);
    SendOnward(t, Conn(Confirm(DEFAULT_WINDOW, MAX_PACKET)));
    OnwardThen(s, t, Send(t, Conn(Confirm(DEFAULT_WINDOW, MAX_PACKET))));
  }

  lemma ProgramOnward(s: Srv, program: Program, wantReply: bool)
    requires Told(s) && s.authenticated.Some?
    ensures Onward(s, OnProgram(s, program, wantReply))
  {
    hide Onward, Told, Send;
    SendOnward(s, Failure);
    SameOnward(s, s);
    SameOnward(s, Note(s.(pendingReply := wantReply, programStarted := true), ProgramAsked(program)));
  }

  lemma AskOnward(p: Policy, s: Srv, ask: Ask, wantReply: bool)
    requires Told(s) && s.authenticated.Some?
    ensures Onward(s, OnOtherRequest(p, s, ask, wantReply))
  {
    hide Onward, Told, Send, Apply, Granted;
    var t := Apply(s, ask);
    if s.chan.Some? {
      PtyTouches(s, ask);
    } else {
      NoPtyToTouch(s, ask);
    }
    SameOnward(s, s);
    SameOnward(s, t);
    OnwardTold(s, t);
    SendOnward(s, Failure);
    SendOnward(t, Success);
    OnwardThen(s, t, Send(t, Success));
  }

  lemma DataOnward(s: Srv, bytes: seq<byte>)
    requires Told(s) && s.authenticated.Some?
    ensures Onward(s, OnData(s, bytes))
  {
    hide Onward, Told, Disconnect, ConsumeIncoming;
    SendOnward(s, Failure);
    SameOnward(s, Note(s, DataIn(bytes)));
    if s.chan.Some? {
      SameOnward(s, Note(s.(chan := ConsumeIncoming(s.chan.value, |bytes|)), DataIn(bytes)));
    }
  }

  lemma CloseOnward(s: Srv)
    requires Told(s) && s.authenticated.Some?
    ensures Onward(s, OnClose(s))
  {
    hide Onward, Told, Send;
    var t := if s.chan.Some? && !s.chan.value.sentClose then Send(s, Conn(Close)) else s;
    SameOnward(s, s);
    SendOnward(s, Conn(Close));
    SentKeeps(s, Conn(Close));
    OnwardTold(s, t);
    SameOnward(t, Note(t.(chan := None, programStarted := false), Closed));
    OnwardThen(s, t, OnClose(s));
  }

  lemma ConnectionOnward(p: Policy, s: Srv, packet: Packet)
    requires Told(s) && Usable(s) && s.authenticated.Some? && Connection(p, s, packet).Ok?
    ensures Onward(s, Connection(p, s, packet).value)
  {
    hide Onward, Told, OnOpen, OnProgram, OnOtherRequest, OnData, OnClose, FlushChannel, AddRemoteWindow, Unsent;
    SameOnward(s, s);
    match packet
    case ChannelOpen(session, window, maxPacket) => OpenOnward(s, session, window, maxPacket);
    case ProgramRequest(program, wantReply) => ProgramOnward(s, program, wantReply);
    case OtherRequest(ask, wantReply) => AskOnward(p, s, ask, wantReply);
    case ChannelData(bytes) => DataOnward(s, bytes);
    case WindowAdjust(n) =>
      if s.chan.Some? {
        AdjustShape(s.chan.value, n);
        FlushOnward(p, s, AddRemoteWindow(s.chan.value, n));
      }
    case ChannelEof => NotedOnward(s, s, EofIn);
    case ChannelClose => CloseOnward(s);
    case _ =>
  }

  /** Any call but a login. */
  lemma CallOnward(p: Policy, s: Srv, c: Call)
    requires Told(s) && Usable(s) && Do(p, s, c).Ok? && !LogsIn(p, s, c)
    ensures Onward(s, Do(p, s, c).value)
  {
    hide Onward, Told, Output, OnConsumed, Answer, PreAuth, Connection, FlushChannel, Unsent;
    SameOnward(s, s);
    match c
    case Stdout(data) => WriteOnward(p, s, false, data);
    case Stderr(data) => WriteOnward(p, s, true, data);
    case Exited(status) =>
      if s.chan.Some? {
        ChannelNeedsLogin(s);
        FlushOnward(p, s, s.chan.value.(exitStatus := Some(status), wantClose := true));
      }
    case Consumes(len) => ConsumeOnward(s, len);
    case Accepts => AnswerOnward(s, true);
    case Rejects => AnswerOnward(s, false);
    case TakesFlushed =>
      ChannelNeedsLogin(s);
      SameOnward(s, OnTake(s));
    case Receives(packet) =>
      if s.authenticated.Some? {
        ConnectionOnward(p, s, packet);
      } else {
        PreAuthOnward(p, s, packet);
      }
  }

  /** A login is told, unless the server is closing. */
  lemma LoginTold(p: Policy, s: Srv, c: Call)
    requires Told(s) && Usable(s) && LogsIn(p, s, c) && Do(p, s, c).Ok?
    ensures var t := Do(p, s, c).value;
            && Told(t) && Successes(t.sent) == Successes(s.sent) + (if s.closing then 0 else 1)
            && (s.closing ==> t.closing && t.sent == s.sent)
  {
    hide Successes, Opened, Unsent;
    SentSnoc(s.sent, AuthSuccess);
  }

  /** Logins that come while the server is not closing. */
  ghost function LiveLogins(p: Policy, s: Srv, calls: seq<Call>): nat
    requires Guarded(p, s)
    decreases |calls|
  {
    if calls == [] then 0
    else
      CallGuarded(p, s, calls[0]);
      match Do(p, s, calls[0])
      case Err(_) => 0
      case Ok(t) => (if LogsIn(p, s, calls[0]) && !s.closing then 1 else 0) + LiveLogins(p, t, calls[1..])
  }

  lemma {:induction false} RunTold(p: Policy, s: Srv, calls: seq<Call>)
    requires Guarded(p, s) && Told(s)
    ensures var t := ServerRuns.Run(p, s, calls);
            Told(t) && Successes(t.sent) == Successes(s.sent) + LiveLogins(p, s, calls)
    decreases |calls|
  {
    hide Do, Usable, Told, Successes, LogsIn, Gated, Auths, Exhausted;
    if calls != [] {
      CallGuarded(p, s, calls[0]);
      GuardedUsable(p, s);
      if Do(p, s, calls[0]).Ok? {
        if LogsIn(p, s, calls[0]) {
          LoginTold(p, s, calls[0]);
        } else {
          CallOnward(p, s, calls[0]);
        }
        RunTold(p, Do(p, s, calls[0]).value, calls[1..]);
      }
    }
  }

  ghost function LiveLoginsOf(p: Policy, calls: seq<Call>): nat {
    NewGuarded(p);
    LiveLogins(p, NewServer(), calls)
  }

  /** Every run: there is one success message for each login that comes while the server is live,
      and no other; a server that is logged in and live has sent it; and nothing that concerns a
      channel goes out before it. */
  lemma SuccessForEachLogin(p: Policy, calls: seq<Call>)
    ensures var s := Served(p, calls);
            && Successes(s.sent) == LiveLoginsOf(p, calls)
            && (s.authenticated.None? ==> Successes(s.sent) == 0)
            && (s.authenticated.Some? && !s.closing ==> Successes(s.sent) > 0)
            && Opened(s.sent)
  {
    hide ServerRuns.Run, LiveLogins;
    NewGuarded(p);
    assert Told(NewServer());
    hide Opened, Successes;
    RunTold(p, NewServer(), calls);
    assert Successes(NewServer().sent) == 0 by { NobodyTold(); }
  }

  lemma NobodyTold()
    ensures Successes(NewServer().sent) == 0
  {
  }

  /** `Opened` by position. */
  lemma {:induction false} OpenedAt(sent: seq<Reply>, i: nat) returns (j: nat)
    requires Opened(sent) && i < |sent| && OfChannel(sent[i])
    ensures j < i && sent[j].AuthSuccess?
  {
    var last := |sent| - 1;
    if i < last {
      j := OpenedAt(sent[..last], i);
    } else {
      j := SomeSuccess(sent[..last]);
    }
  }

  lemma {:induction false} SomeSuccess(sent: seq<Reply>) returns (j: nat)
    requires Successes(sent) > 0
    ensures j < |sent| && sent[j].AuthSuccess?
  {
    var last := |sent| - 1;
    if sent[last].AuthSuccess? {
      j := last;
    } else {
      j := SomeSuccess(sent[..last]);
    }
  }
}
