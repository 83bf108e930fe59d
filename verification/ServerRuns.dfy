/** What holds in every run of the server, whatever the client sends and the driver calls:
    the event stream, the caps on authentication, one program per channel. */
module ServerRuns {
  import opened Bytes
  import opened Channels
  import opened Flow
  import opened Server

  lemma FlushUsable(p: Policy, s: Srv)
    requires Usable(s)
    ensures Usable(FlushChannel(p, s)) && SameAuth(s, FlushChannel(p, s))
  {
    hide Drain, Unsent, ServerFlush;
    if s.chan.Some? {
      FlushPays(s.chan.value, p.cap);
      var (ms, d) := ServerFlush(s.chan.value, p.cap);
      SendAllSame(s.(chan := Some(d)), ms);
    }
  }

  /** Everything but the channel and what was sent. */
  predicate SameAuth(s: Srv, t: Srv) {
    && t.authenticated == s.authenticated && t.authFailures == s.authFailures && t.authRequests == s.authRequests
    && t.consulted == s.consulted && t.events == s.events && t.programStarted == s.programStarted
    && (t.chan.Some? <==> s.chan.Some?)
  }

  lemma {:induction false} SendAllSame(s: Srv, ms: seq<Msg>)
    ensures SendAll(s, ms) == s.(sent := SendAll(s, ms).sent)
    decreases |ms|
  {
    if ms != [] {
      SendAllSame(Send(s, Conn(ms[0])), ms[1..]);
    }
  }

  // --- the event stream --------------------------------------------------------------------------

  predicate ChannelEvent(e: Event) { e.ProgramAsked? || e.DataIn? || e.EofIn? || e.Closed? || e.WindowChange? }

  function Auths(events: seq<Event>): nat {
    if events == [] then 0
    else Auths(events[..|events| - 1]) + (if events[|events| - 1].Authenticated? then 1 else 0)
  }

  function Exhausted(events: seq<Event>): nat {
    if events == [] then 0
    else Exhausted(events[..|events| - 1]) + (if events[|events| - 1].AuthExhausted? then 1 else 0)
  }

  function Programs(events: seq<Event>): nat {
    if events == [] then 0
    else Programs(events[..|events| - 1]) + (if events[|events| - 1].ProgramAsked? then 1 else 0)
  }

  /** Channel events come only after the authentication, and exhaustion only before it. */
  predicate Gated(events: seq<Event>) {
    events == [] || (
      var before, last := events[..|events| - 1], events[|events| - 1];
      && Gated(before)
      && (ChannelEvent(last) ==> Auths(before) > 0)
      && (last.AuthExhausted? || last.Authenticated? ==> Auths(before) == 0))
  }

  lemma NoteCounts(events: seq<Event>, e: Event)
    ensures Auths(events + [e]) == Auths(events) + (if e.Authenticated? then 1 else 0)
    ensures Exhausted(events + [e]) == Exhausted(events) + (if e.AuthExhausted? then 1 else 0)
    ensures Programs(events + [e]) == Programs(events) + (if e.ProgramAsked? then 1 else 0)
    ensures Gated(events + [e]) <==>
              Gated(events) && (ChannelEvent(e) ==> Auths(events) > 0) && (e.AuthExhausted? || e.Authenticated? ==> Auths(events) == 0)
  {
    assert (events + [e])[..|events|] == events;
  }

  lemma ResizeCounts(events: seq<Event>, ask: Ask)
    ensures ask.Resize? ==>
              var after := events + [WindowChange(Cells(ask.cols), Cells(ask.rows))];
              && Auths(after) == Auths(events) && Exhausted(after) == Exhausted(events) && Programs(after) == Programs(events)
              && (Gated(after) <==> Gated(events) && Auths(events) > 0)
  {
    hide Auths, Exhausted, Programs, Gated;
    if ask.Resize? {
      NoteCounts(events, WindowChange(Cells(ask.cols), Cells(ask.rows)));
    }
  }

  function Attempts(p: Policy): nat { if p.maxAttempts == 0 then 1 else p.maxAttempts }

  ghost predicate Guarded(p: Policy, s: Srv) {
    && Usable(s)
    && Gated(s.events)
    && Auths(s.events) == (if s.authenticated.Some? then 1 else 0)
    && s.consulted <= s.authRequests && s.consulted <= p.maxRequests
    && (Exhausted(s.events) == 0 ==> s.authFailures < Attempts(p))
    && (s.authenticated.None? ==> s.chan.None? && !s.programStarted)
  }

  lemma FailureGuarded(p: Policy, s: Srv)
    requires Guarded(p, s) && s.authenticated.None?
    ensures Guarded(p, SendFailure(p, s))
  {
    hide Auths, Exhausted, Gated, Programs;
    NoteCounts(s.events, AuthExhausted);
  }

  lemma FinishGuarded(p: Policy, s: Srv, user: User, granted: bool)
    requires Guarded(p, s) && s.authenticated.None?
    ensures Guarded(p, FinishAuth(p, s, user, granted))
  {
    hide Auths, Exhausted, Gated, Programs, SendFailure;
    NoteCounts(s.events, Authenticated(user));
    FailureGuarded(p, s);
  }

  /** A request within the cap may be put to the policy handler once. */
  lemma RequestGuarded(p: Policy, s: Srv)
    requires Guarded(p, s) && s.authenticated.None?
    ensures Guarded(p, s.(authRequests := s.authRequests + 1))
    ensures s.authRequests + 1 <= p.maxRequests ==> Guarded(p, Consult(s.(authRequests := s.authRequests + 1)))
  {
    hide Auths, Exhausted, Gated, Programs, Unsent;
  }

  lemma UserAuthGuarded(p: Policy, s: Srv, user: User, a: Attempt)
    requires Guarded(p, s) && s.authenticated.None?
    ensures OnUserAuth(p, s, user, a).Ok? ==> Guarded(p, OnUserAuth(p, s, user, a).value)
  {
    hide Guarded, SendFailure, FinishAuth, Disconnect;
    var t := s.(authRequests := s.authRequests + 1);
    RequestGuarded(p, s);
    if t.authRequests > p.maxRequests {
      TooManyGuarded(p, t);
    } else {
      var u := Consult(t);
      match a
      case Unreadable =>
      case NoMethod(allowed) => FinishGuarded(p, u, user, allowed);
      case Password(right) => FinishGuarded(p, u, user, right);
      case UnknownMethod => FinishGuarded(p, t, user, false);
      case PublicKey(readable, authorized, proof) =>
        FailureGuarded(p, t);
        FailureGuarded(p, u);
        SendGuarded(p, u, PkOk);
        if proof.Some? {
          FinishGuarded(p, u, user, proof.value);
        }
    }
  }

  lemma TooManyGuarded(p: Policy, s: Srv)
    requires Guarded(p, s) && s.authenticated.None?
    ensures Guarded(p, Note(Disconnect(s), AuthExhausted))
  {
    hide Auths, Exhausted, Gated, Programs, Unsent;
    NoteCounts(s.events, AuthExhausted);
  }

  lemma SendGuarded(p: Policy, s: Srv, r: Reply)
    requires Guarded(p, s)
    ensures Guarded(p, Send(s, r))
  {
    hide Auths, Exhausted, Gated, Programs, Unsent;
  }

  lemma PreAuthGuarded(p: Policy, s: Srv, packet: Packet)
    requires Guarded(p, s) && s.authenticated.None?
    ensures PreAuth(p, s, packet).Ok? ==> Guarded(p, PreAuth(p, s, packet).value)
  {
    hide Auths, Exhausted, Gated, Programs, Unsent, OnUserAuth;
    if packet.UserAuth? {
      UserAuthGuarded(p, s, packet.user, packet.attempt);
    }
  }

  lemma OutputGuarded(p: Policy, s: Srv, c: Chan)
    requires Guarded(p, s) && s.chan.Some? && Unsent(c.out) && c.localWindow <= DEFAULT_WINDOW
    ensures Guarded(p, FlushChannel(p, s.(chan := Some(c))))
  {
    hide Auths, Exhausted, Gated, Programs, Unsent, FlushChannel;
    FlushUsable(p, s.(chan := Some(c)));
  }

  lemma AskGuarded(p: Policy, s: Srv, ask: Ask, wantReply: bool)
    requires Guarded(p, s) && s.authenticated.Some?
    ensures Guarded(p, OnOtherRequest(p, s, ask, wantReply))
  {
    hide Auths, Exhausted, Gated, Programs, Unsent, Apply;
    if s.chan.Some? {
      PtyTouches(s, ask);
      ResizeCounts(s.events, ask);
    } else {
      NoPtyToTouch(s, ask);
    }
  }

  lemma NoPtyToTouch(s: Srv, ask: Ask)
    requires s.chan.None?
    ensures Apply(s, ask) == s
  {
  }

  lemma ResizedTouches(c: Chan, cols: u16, rows: u16, widthPx: u32, heightPx: u32)
    ensures Resized(c, cols, rows, widthPx, heightPx) == c.(pty := Resized(c, cols, rows, widthPx, heightPx).pty)
  {
  }

  /** A granted request touches the terminal, and may raise an event. */
  lemma PtyTouches(s: Srv, ask: Ask)
    requires s.chan.Some?
    ensures Apply(s, ask).chan.Some? && Apply(s, ask).chan.value == s.chan.value.(pty := Apply(s, ask).chan.value.pty)
    ensures Apply(s, ask) == s.(chan := Apply(s, ask).chan, events := Apply(s, ask).events)
    ensures Apply(s, ask).events
         == if ask.Resize? then s.events + [WindowChange(Cells(ask.cols), Cells(ask.rows))] else s.events
  {
    hide Cells, Resized;
    if ask.Resize? {
      ResizedTouches(s.chan.value, Cells(ask.cols), Cells(ask.rows), ask.widthPx, ask.heightPx);
    }
  }

  lemma ConnectionGuarded(p: Policy, s: Srv, packet: Packet)
    requires Guarded(p, s) && s.authenticated.Some?
    ensures Connection(p, s, packet).Ok? ==> Guarded(p, Connection(p, s, packet).value)
  {
    hide Auths, Exhausted, Gated, Programs, FlushChannel, OnOtherRequest;
    match packet
    case ProgramRequest(program, _) => NoteCounts(s.events, ProgramAsked(program));
    case ChannelData(bytes) => NoteCounts(s.events, DataIn(bytes));
    case ChannelEof => NoteCounts(s.events, EofIn);
    case ChannelClose => NoteCounts(s.events, Closed);
    case OtherRequest(ask, wantReply) => AskGuarded(p, s, ask, wantReply);
    case WindowAdjust(n) =>
      if s.chan.Some? {
        OutputGuarded(p, s, AddRemoteWindow(s.chan.value, n));
      }
    case _ =>
  }

  lemma CallGuarded(p: Policy, s: Srv, c: Call)
    requires Guarded(p, s)
    ensures Do(p, s, c).Ok? ==> Guarded(p, Do(p, s, c).value)
  {
    hide Auths, Exhausted, Gated, Programs, Unsent, Connection, PreAuth, FlushChannel, Consumed;
    match c
    case Stdout(data) => WriteGuarded(p, s, false, data);
    case Stderr(data) => WriteGuarded(p, s, true, data);
    case Exited(status) =>
      if s.chan.Some? {
        OutputGuarded(p, s, s.chan.value.(exitStatus := Some(status), wantClose := true));
      }
    case Consumes(len) => ConsumeGuarded(p, s, len);
    case Accepts =>
    case Rejects =>
    case TakesFlushed =>
    case Receives(packet) =>
      if s.authenticated.Some? {
        ConnectionGuarded(p, s, packet);
      } else {
        PreAuthGuarded(p, s, packet);
      }
  }

  lemma WriteGuarded(p: Policy, s: Srv, ext: bool, data: seq<byte>)
    requires Guarded(p, s)
    ensures Guarded(p, Output(p, s, ext, data))
  {
    hide Auths, Exhausted, Gated, Programs, Unsent, FlushChannel;
    if s.chan.Some? {
      EnqueueAppends(s.chan.value, ext, data);
      OutputGuarded(p, s, Enqueue(s.chan.value, ext, data));
    }
  }

  lemma ConsumeGuarded(p: Policy, s: Srv, len: u32)
    requires Guarded(p, s)
    ensures Guarded(p, OnConsumed(s, len))
  {
    hide Auths, Exhausted, Gated, Programs, Unsent, AckIncoming, Grant;
    if s.chan.Some? {
      var (g, d) := AckIncoming(s.chan.value, len);
      AckTouches(s.chan.value, len);
      AckWithin(s.chan.value, len);
      SendAllSame(s.(chan := Some(d)), Grant(g));
    }
  }

  // --- runs --------------------------------------------------------------------------------------

  /** Calls in turn; an error ends the connection. */
  function Run(p: Policy, s: Srv, calls: seq<Call>): (r: Srv)
    requires Guarded(p, s)
    ensures Guarded(p, r)
    decreases |calls|
  {
    if calls == [] then s
    else
      CallGuarded(p, s, calls[0]);
      match Do(p, s, calls[0])
      case Err(_) => s
      case Ok(t) => Run(p, t, calls[1..])
  }

  /** A batch of packets, each as a call. */
  function Received(packets: seq<Packet>): (calls: seq<Call>)
    ensures |calls| == |packets|
    ensures forall i :: 0 <= i < |packets| ==> calls[i] == Receives(packets[i])
  {
    seq(|packets|, i requires 0 <= i < |packets| => Receives(packets[i]))
  }

  lemma GuardedUsable(p: Policy, s: Srv)
    requires Guarded(p, s)
    ensures Usable(s)
  {
  }

  lemma NewGuarded(p: Policy)
    ensures Guarded(p, NewServer())
  {
  }

  function Served(p: Policy, calls: seq<Call>): Srv {
    NewGuarded(p);
    Run(p, NewServer(), calls)
  }

  /** In every event stream: at most one authentication; every channel event after it; every
      exhaustion before it; and if there was none, fewer failures than the policy allows (one
      may be allowed none). The policy handler is consulted for no more requests than the
      policy's cap. */
  lemma EventsAreGuarded(p: Policy, calls: seq<Call>)
    ensures var s := Served(p, calls);
            && Auths(s.events) <= 1 && (Auths(s.events) == 1 <==> s.authenticated.Some?)
            && Gated(s.events)
            && (Exhausted(s.events) == 0 ==> s.authFailures < Attempts(p))
            && s.consulted <= p.maxRequests
  {
    hide Run, Gated, Auths, Exhausted;
    NewGuarded(p);
  }

  /** `Gated` by position. */
  lemma {:induction false} GatedAt(events: seq<Event>, i: nat)
    requires Gated(events) && i < |events|
    ensures ChannelEvent(events[i]) ==> Auths(events[..i]) > 0
    ensures events[i].AuthExhausted? || events[i].Authenticated? ==> Auths(events[..i]) == 0
  {
    var last := |events| - 1;
    if i < last {
      GatedAt(events[..last], i);
      assert events[..last][..i] == events[..i];
    }
  }

  // --- one program per channel -----------------------------------------------------------------

  /** A channel opens or closes. */
  predicate Resets(s: Srv, c: Call) {
    c.Receives? && s.authenticated.Some?
    && (c.packet.ChannelClose?
        || (c.packet.ChannelOpen? && c.packet.session && s.chan.None? && c.packet.maxPacket >= MIN_REMOTE_MAX_PACKET))
  }

  ghost predicate NoResets(p: Policy, s: Srv, calls: seq<Call>)
    requires Guarded(p, s)
    decreases |calls|
  {
    if calls == [] then true
    else
      CallGuarded(p, s, calls[0]);
      !Resets(s, calls[0]) && (Do(p, s, calls[0]).Ok? ==> NoResets(p, Do(p, s, calls[0]).value, calls[1..]))
  }

  function Room(s: Srv): nat { if s.programStarted then 0 else 1 }

  lemma CallPrograms(p: Policy, s: Srv, c: Call)
    requires Guarded(p, s) && !Resets(s, c) && Do(p, s, c).Ok?
    ensures var t := Do(p, s, c).value; Programs(t.events) + Room(t) == Programs(s.events) + Room(s)
  {
    hide Auths, Exhausted, Gated, Programs, Unsent, FlushChannel, Consumed, SendFailure, FinishAuth;
    match c
    case Stdout(data) => WritePrograms(p, s, false, data);
    case Stderr(data) => WritePrograms(p, s, true, data);
    case Exited(status) =>
      if s.chan.Some? {
        FlushUsable(p, s.(chan := Some(s.chan.value.(exitStatus := Some(status), wantClose := true))));
      }
    case Consumes(len) =>
      if s.chan.Some? {
        var (ms, d) := Consumed(s.chan.value, len);
        SendAllSame(s.(chan := Some(d)), ms);
      }
    case Receives(packet) =>
      if s.authenticated.Some? {
        PacketPrograms(p, s, packet);
      } else {
        PreAuthPrograms(p, s, packet);
      }
    case _ =>
  }

  lemma WritePrograms(p: Policy, s: Srv, ext: bool, data: seq<byte>)
    requires Guarded(p, s)
    ensures SameAuth(s, Output(p, s, ext, data))
  {
    hide Auths, Exhausted, Gated, Programs, Unsent, FlushChannel;
    if s.chan.Some? {
      EnqueueAppends(s.chan.value, ext, data);
      FlushUsable(p, s.(chan := Some(Enqueue(s.chan.value, ext, data))));
    }
  }

  lemma AskPrograms(p: Policy, s: Srv, ask: Ask, wantReply: bool)
    ensures var t := OnOtherRequest(p, s, ask, wantReply);
            Programs(t.events) == Programs(s.events) && t.programStarted == s.programStarted
  {
    hide Auths, Exhausted, Gated, Programs, Unsent, Apply;
    if s.chan.Some? {
      PtyTouches(s, ask);
      ResizeCounts(s.events, ask);
    } else {
      NoPtyToTouch(s, ask);
    }
  }

  lemma OpenPrograms(s: Srv, session: bool, window: u32, maxPacket: u32)
    requires s.authenticated.Some? && !Resets(s, Receives(ChannelOpen(session, window, maxPacket)))
    ensures OnOpen(s, session, window, maxPacket).events == s.events
    ensures OnOpen(s, session, window, maxPacket).programStarted == s.programStarted
  {
  }

  lemma DataPrograms(s: Srv, bytes: seq<byte>)
    ensures var t := OnData(s, bytes); Programs(t.events) == Programs(s.events) && t.programStarted == s.programStarted
  {
    hide Auths, Exhausted, Gated, Programs, ConsumeIncoming;
    NoteCounts(s.events, DataIn(bytes));
  }

  lemma AdjustPrograms(p: Policy, s: Srv, n: u32)
    requires Usable(s)
    ensures OnAdjust(p, s, n).events == s.events && OnAdjust(p, s, n).programStarted == s.programStarted
  {
    hide Unsent, FlushChannel, AddRemoteWindow;
    if s.chan.Some? {
      AdjustShape(s.chan.value, n);
      FlushUsable(p, s.(chan := Some(AddRemoteWindow(s.chan.value, n))));
    }
  }

  lemma PacketPrograms(p: Policy, s: Srv, packet: Packet)
    requires Guarded(p, s) && s.authenticated.Some? && !Resets(s, Receives(packet)) && Connection(p, s, packet).Ok?
    ensures var t := Connection(p, s, packet).value; Programs(t.events) + Room(t) == Programs(s.events) + Room(s)
  {
    hide Auths, Exhausted, Gated, Programs, Usable, OnOpen, OnData, OnAdjust, OnOtherRequest;
    match packet
    case ChannelOpen(session, window, maxPacket) => OpenPrograms(s, session, window, maxPacket);
    case ProgramRequest(program, _) => NoteCounts(s.events, ProgramAsked(program));
    case ChannelData(bytes) => DataPrograms(s, bytes);
    case ChannelEof => NoteCounts(s.events, EofIn);
    case OtherRequest(ask, wantReply) => AskPrograms(p, s, ask, wantReply);
    case WindowAdjust(n) => AdjustPrograms(p, s, n);
    case _ =>
  }

  lemma FailurePrograms(p: Policy, s: Srv)
    ensures Programs(SendFailure(p, s).events) == Programs(s.events) && SendFailure(p, s).programStarted == s.programStarted
  {
    hide Auths, Exhausted, Gated, Programs;
    NoteCounts(s.events, AuthExhausted);
  }

  lemma FinishPrograms(p: Policy, s: Srv, user: User, granted: bool)
    ensures var t := FinishAuth(p, s, user, granted);
            Programs(t.events) == Programs(s.events) && t.programStarted == s.programStarted
  {
    hide Auths, Exhausted, Gated, Programs, SendFailure;
    NoteCounts(s.events, Authenticated(user));
    FailurePrograms(p, s);
  }

  lemma PreAuthPrograms(p: Policy, s: Srv, packet: Packet)
    requires PreAuth(p, s, packet).Ok?
    ensures var t := PreAuth(p, s, packet).value; Programs(t.events) + Room(t) == Programs(s.events) + Room(s)
  {
    hide Auths, Exhausted, Gated, Programs, SendFailure, FinishAuth;
    if packet.UserAuth? {
      var t := s.(authRequests := s.authRequests + 1);
      NoteCounts(s.events, AuthExhausted);
      FailurePrograms(p, t);
      FailurePrograms(p, Consult(t));
      FinishPrograms(p, t, packet.user, false);
      FinishPrograms(p, Consult(t), packet.user, false);
      FinishPrograms(p, Consult(t), packet.user, true);
    }
  }

  /** Between two resets at most one program request surfaces, and none when one is running. */
  lemma {:induction false} OneProgramPerChannel(p: Policy, s: Srv, calls: seq<Call>)
    requires Guarded(p, s) && NoResets(p, s, calls)
    ensures Programs(Run(p, s, calls).events) <= Programs(s.events) + (if s.programStarted then 0 else 1)
    ensures Programs(Run(p, s, calls).events) + Room(Run(p, s, calls)) == Programs(s.events) + Room(s)
    decreases |calls|
  {
    hide Do, Resets, Programs, Usable, Gated, Auths, Exhausted;
    if calls != [] {
      CallGuarded(p, s, calls[0]);
      if Do(p, s, calls[0]).Ok? {
        CallPrograms(p, s, calls[0]);
        OneProgramPerChannel(p, Do(p, s, calls[0]).value, calls[1..]);
      }
    }
  }
}
