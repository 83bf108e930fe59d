/** The bytes that pass between a client and the handler it runs: what the handler reads is what
    the client sent, and what it writes is what goes out, each byte once, in order and on its
    stream, in every interleaving of handler and loop. */
module Streams {
  import opened Bytes
  import opened Channels
  import opened Flow
  import opened Server
  import opened Serve
  import Closing
  import Logins
  import Replies
  import Seqs
  import ServerChannel
  import ServerRuns

  // --- reading ---------------------------------------------------------------------------------

  function Joined(q: seq<seq<byte>>): seq<byte> {
    if q == [] then [] else q[0] + Joined(q[1..])
  }

  /** What the handler has not yet read. */
  function Stdin(w: World): seq<byte>
    requires w.pos <= |w.chunk|
  {
    w.chunk[w.pos..] + Joined(w.stdin)
  }

  lemma {:induction false} JoinedSnoc(q: seq<seq<byte>>, b: seq<byte>)
    ensures Joined(q + [b]) == Joined(q) + b
  {
    if q == [] {
      var none: seq<seq<byte>> := [];
      assert q + [b] == [b] && [b][1..] == none && b + [] == b;
    } else {
      assert (q + [b])[1..] == q[1..] + [b];
      JoinedSnoc(q[1..], b);
      Seqs.Assoc(q[0], Joined(q[1..]), b);
    }
  }

  lemma {:induction false} NextChunkIsFront(q: seq<seq<byte>>)
    ensures match NextChunk(q)
            case None => Joined(q) == []
            case Some((c, rest)) => Joined(q) == c + Joined(rest)
  {
    if q != [] && q[0] == [] {
      NextChunkIsFront(q[1..]);
      assert [] + Joined(q[1..]) == Joined(q[1..]);
    }
  }

  lemma ServedFront(w: World, room: nat)
    requires w.pos < |w.chunk|
    ensures var (v, r) := Served(w, room);
            && v.pos <= |v.chunk|
            && r.Some? && r.value + Stdin(v) == Stdin(w) && |r.value| <= room && (room > 0 ==> r.value != [])
  {
    hide Joined;
    var n := Min(|w.chunk| - w.pos, room);
    var front, rest := w.chunk[w.pos..w.pos + n], w.chunk[w.pos + n..];
    assert w.chunk[w.pos..] == front + rest;
    Seqs.Assoc(front, rest, Joined(w.stdin));
  }

  /** A read gives bytes off the front of what was unread, some if there is room for any, and
      waits only when there are none. */
  lemma ReadsFront(w: World, room: nat)
    requires w.pos <= |w.chunk|
    ensures var (v, r) := PollRead(w, room);
            && v.pos <= |v.chunk|
            && match r
               case None => Stdin(w) == [] && Stdin(v) == []
               case Some(b) => b + Stdin(v) == Stdin(w) && |b| <= room && (room > 0 ==> b != [])
  {
    hide NextChunk, Joined, Served;
    NextChunkIsFront(w.stdin);
    NothingJoined();
    if w.pos < |w.chunk| {
      ServedFront(w, room);
    } else if NextChunk(w.stdin).Some? {
      var (c, rest) := NextChunk(w.stdin).value;
      var u := w.(chunk := c, pos := 0, stdin := rest);
      ServedFront(u, room);
      assert c[0..] == c && w.chunk[w.pos..] == [];
      assert Stdin(u) == Stdin(w);
    }
  }

  lemma NothingJoined()
    ensures Joined([]) == []
  {
  }

  /** What a step lets the handler read. */
  function ReadBy(w: World, s: Step): seq<byte> {
    if w.running && s.ReadsInto? && PollRead(w, s.room).1.Some? then PollRead(w, s.room).1.value else []
  }

  /** A packet that ends the handler's stdin. */
  predicate Ends(w: World, s: Step) { w.running && s.LoopReads? && (s.packet.ChannelEof? || s.packet.ChannelClose?) }

  /** What the client gives the handler with a step: data within the window, where there is one. */
  function FedBy(w: World, open: bool, s: Step): seq<byte> {
    if w.running && open && s.LoopReads? && s.packet.ChannelData?
       && (w.srv.chan.Some? ==> |s.packet.bytes| <= w.srv.chan.value.localWindow)
    then s.packet.bytes else []
  }

  lemma FedStep(w: World, s: Step)
    requires Steady(w) && Within(s) && w.pos <= |w.chunk|
    ensures var v := Next(w, s);
            && v.pos <= |v.chunk|
            && ReadBy(w, s) + Stdin(v) == Stdin(w) + FedBy(w, w.stdinOpen, s)
            && v.stdinOpen == (w.stdinOpen && !Ends(w, s))
  {
    hide Joined, PollWrite, PollRead, TakeOutbound, Credit, Refill, Usable;
    assert Stdin(w) + [] == Stdin(w) && [] + Stdin(w) == Stdin(w);
    if w.running {
      match s
      case Writes(data) => WriteShape(w, data);
      case ReadsInto(room) =>
        ReadsFront(w, room);
        ReadShape(w, room);
      case LoopTakes => LoopShapes(w);
      case LoopCredits => LoopShapes(w);
      case LoopRefills => LoopShapes(w);
      case LoopReads(packet, grants) => FedPacket(w, packet, grants);
      case _ =>
    }
  }

  lemma WriteShape(w: World, data: seq<byte>)
    ensures var v := PollWrite(w, data).0; v == w.(reserving := v.reserving, permits := v.permits, outbound := v.outbound)
  {
  }

  lemma LoopShapes(w: World)
    requires Usable(w.srv) && w.last <= w.consumed
    ensures var v := TakeOutbound(w); v == w.(outbound := v.outbound, inflight := v.inflight, srv := v.srv)
    ensures var v := Credit(w); v == w.(srv := v.srv, inflight := v.inflight, permits := v.permits)
    ensures var v := Refill(w); v == w.(last := v.last, srv := v.srv)
  {
    hide Output, OnExit, OnConsumed, Usable;
  }

  /** Packets that are neither data nor an end leave the handler's stdin alone. */
  lemma FedPacket(w: World, packet: Packet, grants: bool)
    requires Steady(w) && w.running && w.pos <= |w.chunk|
    ensures var s := LoopReads(packet, grants);
            var v := Read(w, packet, grants);
            && v.pos <= |v.chunk|
            && Stdin(v) == Stdin(w) + FedBy(w, w.stdinOpen, s)
            && v.stdinOpen == (w.stdinOpen && !Ends(w, s))
  {
    hide Joined, OnPacket, Usable;
    assert Stdin(w) + [] == Stdin(w);
    var r := OnPacket(w.policy, w.srv, packet);
    OnlyBrokenFails(w.policy, w.srv, packet);
    if r.Ok? {
      PacketRaises(w.policy, w.srv, packet);
      if r.value.events == w.srv.events {
        NoEvents(w, r.value, grants);
      } else {
        var e := r.value.events[|w.srv.events|];
        LastEvent(w.srv.events, e);
        OneEvent(w.(srv := r.value), e, grants);
        if packet.ChannelData? {
          JoinedSnoc(w.stdin, packet.bytes);
          Seqs.Assoc(w.chunk[w.pos..], Joined(w.stdin), packet.bytes);
        }
      }
    }
  }

  lemma OnlyBrokenFails(p: Policy, s: Srv, packet: Packet)
    requires Usable(s) && s.authenticated.Some?
    ensures OnPacket(p, s, packet).Err? <==> packet.BrokenChannel?
  {
    hide OnOpen, OnProgram, OnOtherRequest, OnData, OnAdjust, OnClose, Usable;
  }

  /** One event at most, and which. */
  lemma PacketRaises(p: Policy, s: Srv, packet: Packet)
    requires Usable(s) && s.authenticated.Some? && OnPacket(p, s, packet).Ok?
    ensures var t := OnPacket(p, s, packet).value;
            match packet
            case ChannelData(bytes) =>
              if s.chan.Some? && |bytes| > s.chan.value.localWindow then t.events == s.events
              else t.events == s.events + [DataIn(bytes)]
            case ChannelEof => t.events == s.events + [EofIn]
            case ChannelClose => t.events == s.events + [Closed]
            case ProgramRequest(program, _) => t.events == if s.programStarted then s.events else s.events + [ProgramAsked(program)]
            case OtherRequest(Resize(cols, rows, _, _), _) =>
              t.events == s.events || t.events == s.events + [WindowChange(Cells(cols), Cells(rows))]
            case _ => t.events == s.events
  {
    hide Connection, PreAuth, Usable, Cells;
    Logins.PacketSurfaces(p, s, packet);
  }

  /** All the handler has read, and all it was given, over a run. */
  function AllRead(w: World, steps: seq<Step>): seq<byte>
    requires Steady(w) && AllWithin(steps)
    decreases |steps|
  {
    if steps == [] then []
    else
      assert Within(steps[0]);
      StepSteady(w, steps[0]);
      ReadBy(w, steps[0]) + AllRead(Next(w, steps[0]), steps[1..])
  }

  function AllFed(w: World, open: bool, steps: seq<Step>): seq<byte>
    requires Steady(w) && AllWithin(steps)
    decreases |steps|
  {
    if steps == [] then []
    else
      assert Within(steps[0]);
      StepSteady(w, steps[0]);
      FedBy(w, open, steps[0]) + AllFed(Next(w, steps[0]), open && !Ends(w, steps[0]), steps[1..])
  }

  lemma {:induction false} RunReads(w: World, steps: seq<Step>)
    requires Steady(w) && AllWithin(steps) && w.pos <= |w.chunk|
    ensures Serve.Run(w, steps).pos <= |Serve.Run(w, steps).chunk|
    ensures AllRead(w, steps) + Stdin(Serve.Run(w, steps)) == Stdin(w) + AllFed(w, w.stdinOpen, steps)
    decreases |steps|
  {
    hide Next, Steady, Within, Stdin, ReadBy, FedBy, Ends;
    if steps == [] {
      assert [] + Stdin(w) == Stdin(w) == Stdin(w) + [];
    } else {
      var v := Next(w, steps[0]);
      assert Within(steps[0]);
      StepSteady(w, steps[0]);
      FedStep(w, steps[0]);
      RunReads(v, steps[1..]);
      var r, f := ReadBy(w, steps[0]), FedBy(w, w.stdinOpen, steps[0]);
      Seqs.Assoc(r, AllRead(v, steps[1..]), Stdin(Serve.Run(w, steps)));
      Seqs.Assoc(r, Stdin(v), AllFed(v, v.stdinOpen, steps[1..]));
      Seqs.Assoc(Stdin(w), f, AllFed(v, v.stdinOpen, steps[1..]));
    }
  }

  /** In every interleaving: what the handler has read, followed by what it has not, is what the
      client sent it before its EOF or CLOSE, byte for byte and in order. */
  lemma ReadsWhatWasSent(policy: Policy, srv: Srv, maxBuffered: nat, steps: seq<Step>)
    requires Ready(srv) && AllWithin(steps)
    ensures var w, v := Spawned(policy, srv, maxBuffered), Outcome(policy, srv, maxBuffered, steps);
            && Steady(w) && v.pos <= |v.chunk|
            && AllRead(w, steps) + Stdin(v) == AllFed(w, true, steps)
  {
    hide Serve.Run, AllRead, AllFed;
    var w := Spawned(policy, srv, maxBuffered);
    RunReads(w, steps);
    assert Joined([]) == [];
    assert Stdin(w) == [];
    assert [] + AllFed(w, true, steps) == AllFed(w, true, steps);
  }

  // --- progress --------------------------------------------------------------------------------------

  /** A write goes through as soon as the budget has what it asks for, or what it reserved. */
  lemma WriteReady(w: World, data: seq<byte>)
    ensures var want := if w.reserving.Some? then w.reserving.value else Min(|data|, MAX_RESERVE);
            var (v, n) := PollWrite(w, data);
            && (n.Some? <==> data == [] || want <= w.permits)
            && (data != [] && n.Some? ==> n.value == Min(want, |data|) && v.reserving.None?)
            && (n.None? ==> v == w.(reserving := Some(want)))
  {
  }

  lemma ChunkReady(w: World, ext: bool, data: seq<byte>)
    requires |data| <= MAX_RESERVE
    ensures var v := SendChunk(w, ext, data);
            if |data| <= w.permits then v.outbound == w.outbound + [Out(ext, data)] && v.permits + |data| == w.permits else v == w
  {
  }

  /** The loop takes the handler's messages one at a time, oldest first; an exit gives its status
      to the channel, to be reported once all output is out. */
  lemma TakesOldest(w: World, o: Outbound, rest: seq<Outbound>)
    requires Serve.Fair(w) && w.running && w.outbound == [o] + rest
    ensures var v := TakeOutbound(w);
            && v.outbound == rest && v.srv.chan.Some?
            && (o.Out? ==> v.inflight == w.inflight + |o.data|)
            && (o.ExitWith? ==> v.inflight == w.inflight
                                && v.srv.chan.value.exitStatus == Some(o.status) && v.srv.chan.value.wantClose)
  {
    hide Counted, Budgeted, Unsent, Drain, SendAll, Output;
    if o.ExitWith? {
      ExitKept(w.policy, w.srv, o.status);
    } else {
      TakeFair(w);
    }
  }

  lemma ExitKept(p: Policy, s: Srv, status: u32)
    requires Usable(s) && s.chan.Some?
    ensures var t := OnExit(p, s, status); t.chan.Some? && t.chan.value.exitStatus == Some(status) && t.chan.value.wantClose
  {
    hide Unsent, Drain, SendAll, Channels.Pending, Carried, Chunked;
    var c := s.chan.value.(exitStatus := Some(status), wantClose := true);
    DrainRefinesQueue(c, p.cap);
    var (ms, d) := ServerFlush(c, p.cap);
    ServerRuns.SendAllSame(s.(chan := Some(d)), ms);
  }

  /** The loop answers a request for a first program by whether it has a handler for it, and a
      handler it starts replaces this one. */
  lemma ProgramAnswered(w: World, program: Program, wantReply: bool, grants: bool)
    requires Steady(w) && w.running && !w.srv.programStarted && !w.srv.closing
    ensures var v := Read(w, ProgramRequest(program, wantReply), grants);
            && v.srv.sent == w.srv.sent + (if !wantReply then [] else if grants then [Success] else [Failure])
            && !v.srv.pendingReply && v.srv.programStarted && v.running == !grants
            && v.srv.events == w.srv.events + [ProgramAsked(program)]
  {
    hide Usable;
    var r := OnProgram(w.srv, program, wantReply);
    LastEvent(w.srv.events, ProgramAsked(program));
    OneEvent(w.(srv := r), ProgramAsked(program), grants);
    Logins.DecisionSent(r, grants);
  }

  /** The loop's report leaves nothing read unreported; and a handler that has read and reported
      all it was sent, nothing dropped, leaves its client more than half a window. */
  lemma NeverStarves(w: World)
    requires Serve.Fair(w) && w.running
    ensures var v := Refill(w);
            && v.last == v.consumed
            && (v.srv.chan.Some? && Unread(v) == 0 && v.dropped == 0 ==> v.srv.chan.value.localWindow > DEFAULT_WINDOW / 2)
  {
    hide Budgeted, Unread, OnConsumed;
    RefillFair(w);
  }

  // --- writing ----------------------------------------------------------------------------------------

  /** The bytes of the handler's messages that wait for the loop, each with its stream. */
  function Tags(q: seq<Outbound>): seq<Tagged> {
    if q == [] then [] else TagOf(q[0]) + Tags(q[1..])
  }

  function TagOf(o: Outbound): seq<Tagged> { if o.Out? then Tag(o.ext, o.data) else [] }

  /** What the server has sent as data, and what its channel still queues. */
  function Held(s: Srv): seq<Tagged> {
    Carried(ServerChannel.Conns(s.sent)) + (if s.chan.Some? then Channels.Pending(s.chan.value.out) else [])
  }

  /** Sent, queued on the channel, or waiting for the loop. */
  function OnItsWay(w: World): seq<Tagged> { Held(w.srv) + Tags(w.outbound) }

  /** What the handler writes with a step. */
  function WrittenBy(w: World, s: Step): seq<Tagged> {
    if !w.running then []
    else
      match s
      case Writes(data) =>
        var n := PollWrite(w, data).1;
        if n.Some? && n.value <= |data| then Tag(false, data[..n.value]) else []
      case Sends(ext, data) => if |data| <= w.permits then Tag(ext, data) else []
      case _ => []
  }

  lemma {:induction false} TagsAppend(a: seq<Outbound>, o: Outbound)
    ensures Tags(a + [o]) == Tags(a) + TagOf(o)
  {
    hide TagOf;
    if a == [] {
      var none: seq<Outbound> := [];
      assert a + [o] == [o] && [o][1..] == none;
      assert Tags([o]) == TagOf(o) + Tags(none);
    } else {
      assert (a + [o])[1..] == a[1..] + [o];
      TagsAppend(a[1..], o);
      Seqs.Assoc(TagOf(a[0]), Tags(a[1..]), TagOf(o));
    }
  }

  lemma FlushCarries(c: Chan, cap: Option<u32>)
    requires Unsent(c.out)
    ensures var (ms, d) := ServerFlush(c, cap); Carried(ms) + Channels.Pending(d.out) == Channels.Pending(c.out)
  {
    hide Drain, Channels.Pending, Carried, Unsent, Chunked;
    DrainRefinesQueue(c, cap);
    var (ms, d) := Drain(c, cap);
    var tail := [ExitStatus(if d.exitStatus.Some? then d.exitStatus.value else 0), Eof, Close];
    Closing.CarriedAppends(ms, tail);
    Closing.TailStory(if d.exitStatus.Some? then d.exitStatus.value else 0);
    assert Carried(ms) + [] == Carried(ms);
  }

  lemma FlushHolds(p: Policy, s: Srv, c: Chan)
    requires !s.closing && Unsent(c.out) && c.localWindow <= DEFAULT_WINDOW
    ensures var t := FlushChannel(p, s.(chan := Some(c)));
            Held(t) == Carried(ServerChannel.Conns(s.sent)) + Channels.Pending(c.out) && t.chan.Some? && !t.closing
  {
    hide ServerFlush, Channels.Pending, Carried, Unsent, ServerChannel.Conns;
    var (ms, d) := ServerFlush(c, p.cap);
    FlushCarries(c, p.cap);
    ServerChannel.SendAllConns(s.(chan := Some(d)), ms);
    Closing.CarriedAppends(ServerChannel.Conns(s.sent), ms);
    Seqs.Assoc(Carried(ServerChannel.Conns(s.sent)), Carried(ms), Channels.Pending(d.out));
  }

  /** Output joins what the server holds at the end, on its own stream. */
  lemma OutputHolds(p: Policy, s: Srv, ext: bool, data: seq<byte>)
    requires Usable(s) && s.chan.Some? && !s.closing
    ensures Held(Output(p, s, ext, data)) == Held(s) + Tag(ext, data)
  {
    hide FlushChannel, Channels.Pending, Carried, Unsent, ServerChannel.Conns, Enqueue, Tag;
    var c := s.chan.value;
    EnqueueAppends(c, ext, data);
    EnqueueKeeps(c, ext, data);
    FlushHolds(p, s, Enqueue(c, ext, data));
    Seqs.Assoc(Carried(ServerChannel.Conns(s.sent)), Channels.Pending(c.out), Tag(ext, data));
  }

  lemma ExitHolds(p: Policy, s: Srv, status: u32)
    requires Usable(s) && s.chan.Some? && !s.closing
    ensures Held(OnExit(p, s, status)) == Held(s)
  {
    hide FlushChannel, Channels.Pending, Carried, Unsent, ServerChannel.Conns;
    FlushHolds(p, s, s.chan.value.(exitStatus := Some(status), wantClose := true));
  }

  lemma ConsumeHolds(s: Srv, len: u32)
    requires Usable(s) && s.chan.Some? && !s.closing
    ensures Held(OnConsumed(s, len)) == Held(s) && Held(OnTake(s)) == Held(s)
  {
    hide Channels.Pending, Carried, Unsent, ServerChannel.Conns, AckIncoming, SendAll, Grant;
    var (g, d) := AckIncoming(s.chan.value, len);
    AckTouches(s.chan.value, len);
    Closing.StoryOfGrant(g);
    ServerChannel.SendAllConns(s.(chan := Some(d)), Grant(g));
    Closing.CarriedAppends(ServerChannel.Conns(s.sent), Grant(g));
    assert Carried(ServerChannel.Conns(s.sent)) + [] == Carried(ServerChannel.Conns(s.sent));
  }

  lemma NotConn(s: Srv, r: Reply)
    requires !r.Conn?
    ensures ServerChannel.Conns(Send(s, r).sent) == ServerChannel.Conns(s.sent)
  {
    if !s.closing {
      assert (s.sent + [r])[..|s.sent|] == s.sent;
      assert ServerChannel.Conns(s.sent) + [] == ServerChannel.Conns(s.sent);
    }
  }

  /** No packet but a CLOSE touches the output. */
  lemma PacketHolds(p: Policy, s: Srv, packet: Packet)
    requires Usable(s) && s.chan.Some? && !s.closing && s.authenticated.Some?
    requires !packet.ChannelClose? && OnPacket(p, s, packet).Ok? && !OnPacket(p, s, packet).value.closing
    ensures Held(OnPacket(p, s, packet).value) == Held(s)
  {
    hide FlushChannel, Channels.Pending, Carried, Unsent, ServerChannel.Conns, AddRemoteWindow, OnOtherRequest;
    match packet
    case ChannelOpen(_, _, _) => NotConn(s, OpenFailure);
    case ProgramRequest(_, _) => NotConn(s, Failure);
    case OtherRequest(ask, wantReply) => AskHolds(p, s, ask, wantReply);
    case WindowAdjust(n) =>
      AdjustShape(s.chan.value, n);
      FlushHolds(p, s, AddRemoteWindow(s.chan.value, n));
    case _ =>
  }

  lemma AskHolds(p: Policy, s: Srv, ask: Ask, wantReply: bool)
    requires s.chan.Some?
    ensures Held(OnOtherRequest(p, s, ask, wantReply)) == Held(s)
  {
    hide Channels.Pending, Carried, ServerChannel.Conns, Apply, Granted, Send;
    ServerRuns.PtyTouches(s, ask);
    NotConn(s, Failure);
    NotConn(Apply(s, ask), Success);
    SendShape(s, Failure);
    SendShape(Apply(s, ask), Success);
  }

  lemma WriteHolds(w: World, data: seq<byte>)
    requires Serve.Fair(w) && w.running
    ensures OnItsWay(PollWrite(w, data).0) == OnItsWay(w) + WrittenBy(w, Writes(data))
  {
    hide Tag, Tags, Held, Counted, Budgeted, Usable;
    PollWriteFair(w, data);
    WriteShape(w, data);
    var (v, n) := PollWrite(w, data);
    assert OnItsWay(w) + [] == OnItsWay(w);
    if data == [] {
      TagOfNothing(data[..0]);
    } else if n.Some? {
      TagsAppend(w.outbound, Out(false, data[..n.value]));
      Seqs.Assoc(Held(w.srv), Tags(w.outbound), Tag(false, data[..n.value]));
    }
  }

  lemma TagOfNothing(data: seq<byte>)
    requires data == []
    ensures Tag(false, data) == []
  {
  }

  lemma TakeHolds(w: World)
    requires Serve.Fair(w) && w.running && !w.srv.closing
    ensures OnItsWay(TakeOutbound(w)) == OnItsWay(w)
  {
    hide Tag, Held, Counted, Budgeted, Usable, Output, OnExit;
    if w.outbound != [] {
      match w.outbound[0]
      case Out(ext, data) =>
        OutputHolds(w.policy, w.srv, ext, data);
        Seqs.Assoc(Held(w.srv), Tag(ext, data), Tags(w.outbound[1..]));
      case ExitWith(status) =>
        ExitHolds(w.policy, w.srv, status);
        assert [] + Tags(w.outbound[1..]) == Tags(w.outbound[1..]);
    }
  }

  lemma ReadHolds(w: World, packet: Packet, grants: bool)
    requires Serve.Fair(w) && w.running && !w.srv.closing
    requires var v := Read(w, packet, grants); v.running && !v.srv.closing
    ensures OnItsWay(Read(w, packet, grants)) == OnItsWay(w)
  {
    hide Tags, Held, Counted, Budgeted, Usable, OnPacket;
    var r := OnPacket(w.policy, w.srv, packet);
    if r.Ok? {
      EventRead(w, packet, grants);
      if !packet.ChannelClose? {
        PacketHolds(w.policy, w.srv, packet);
      }
    }
  }

  /** While a program runs, events change neither the server nor the queue to it; a CLOSE ends
      the handler. */
  lemma EventRead(w: World, packet: Packet, grants: bool)
    requires Serve.Fair(w) && w.running && OnPacket(w.policy, w.srv, packet).Ok?
    ensures var v := Read(w, packet, grants);
            && v.srv == OnPacket(w.policy, w.srv, packet).value && v.outbound == w.outbound
            && (packet.ChannelClose? ==> !v.running)
  {
    hide Counted, Budgeted, Usable, OnPacket;
    var r := OnPacket(w.policy, w.srv, packet).value;
    PacketRaises(w.policy, w.srv, packet);
    if r.events == w.srv.events {
      NoEvents(w, r, grants);
    } else {
      LastEvent(w.srv.events, r.events[|w.srv.events|]);
      OneEvent(w.(srv := r), r.events[|w.srv.events|], grants);
    }
  }

  lemma OutStep(w: World, s: Step)
    requires Serve.Fair(w) && Within(s) && w.running && !w.srv.closing
    requires Next(w, s).running && !Next(w, s).srv.closing
    ensures OnItsWay(Next(w, s)) == OnItsWay(w) + WrittenBy(w, s)
  {
    hide Tag, Tags, Held, Counted, Budgeted, Usable, PollWrite, PollRead, TakeOutbound, Read, OnTake, OnConsumed;
    assert OnItsWay(w) + [] == OnItsWay(w);
    match s
    case Writes(data) => WriteHolds(w, data);
    case Sends(ext, data) =>
      if |data| <= w.permits {
        TagsAppend(w.outbound, Out(ext, data));
        Seqs.Assoc(Held(w.srv), Tags(w.outbound), Tag(ext, data));
      }
    case Exits(status) =>
      TagsAppend(w.outbound, ExitWith(status));
      assert Tags(w.outbound) + [] == Tags(w.outbound);
    case ReadsInto(room) => ReadShape(w, room);
    case LoopTakes => TakeHolds(w);
    case LoopCredits => ConsumeHolds(w.srv, 0);
    case LoopRefills => ConsumeHolds(w.srv, Min(w.consumed - w.last, 0xFFFF_FFFF));
    case LoopReads(packet, grants) => ReadHolds(w, packet, grants);
  }

  /** A closing server stays so. */
  lemma ClosingGoesOn(w: World, s: Step)
    requires Serve.Fair(w) && Within(s) && w.srv.closing
    ensures Next(w, s).srv.closing
  {
    hide Counted, Budgeted, Usable, Do, PollWrite, PollRead;
    if w.running {
      match s
      case Writes(data) => WriteShape(w, data);
      case ReadsInto(room) => ReadShape(w, room);
      case LoopTakes =>
        if w.outbound != [] {
          var c := CallFor(w.outbound[0]);
          TakeIsCall(w, c);
          Replies.ClosingStays(w.policy, w.srv, c);
        }
      case LoopCredits => CreditIsCall(w);
      case LoopRefills =>
        RefillIsCall(w, Consumes(Min(w.consumed - w.last, 0xFFFF_FFFF)));
        Replies.ClosingStays(w.policy, w.srv, Consumes(Min(w.consumed - w.last, 0xFFFF_FFFF)));
      case LoopReads(packet, grants) =>
        hide OnPacket, Read;
        ReadIsCall(w, packet, grants);
        if OnPacket(w.policy, w.srv, packet).Ok? {
          EventRead(w, packet, grants);
          Replies.ClosingStays(w.policy, w.srv, Receives(packet));
        }
      case _ =>
    }
  }

  /** The driver's call that a message of the handler stands for. */
  function CallFor(o: Outbound): Call {
    match o
    case Out(ext, data) => if ext then Stderr(data) else Stdout(data)
    case ExitWith(status) => Exited(status)
  }

  lemma TakeIsCall(w: World, c: Call)
    requires Usable(w.srv) && w.outbound != []
    requires c == CallFor(w.outbound[0])
    ensures Do(w.policy, w.srv, c) == Ok(TakeOutbound(w).srv)
  {
    hide Usable, Output, OnExit;
  }

  lemma CreditIsCall(w: World)
    ensures Credit(w).srv.closing == w.srv.closing
  {
  }

  lemma RefillIsCall(w: World, c: Call)
    requires Usable(w.srv) && w.last <= w.consumed && c == Consumes(Min(w.consumed - w.last, 0xFFFF_FFFF))
    ensures Do(w.policy, w.srv, c).Ok? && (Refill(w).srv == w.srv || Do(w.policy, w.srv, c) == Ok(Refill(w).srv))
  {
    hide Usable, OnConsumed;
  }

  lemma ReadIsCall(w: World, packet: Packet, grants: bool)
    requires Usable(w.srv)
    ensures Do(w.policy, w.srv, Receives(packet)) == OnPacket(w.policy, w.srv, packet)
    ensures OnPacket(w.policy, w.srv, packet).Err? ==> Read(w, packet, grants) == w
  {
    hide Usable, OnPacket;
  }

  /** All the handler has written over a run. */
  function AllWritten(w: World, steps: seq<Step>): seq<Tagged>
    requires Steady(w) && AllWithin(steps)
    decreases |steps|
  {
    if steps == [] then []
    else
      assert Within(steps[0]);
      StepSteady(w, steps[0]);
      WrittenBy(w, steps[0]) + AllWritten(Next(w, steps[0]), steps[1..])
  }

  lemma {:induction false} RunWrites(w: World, steps: seq<Step>)
    requires Serve.Fair(w) && AllWithin(steps)
    ensures Steady(w)
    ensures var v := Serve.Run(w, steps);
            && (w.srv.closing ==> v.srv.closing) && (v.running ==> w.running)
            && (v.running && !v.srv.closing ==> OnItsWay(v) == OnItsWay(w) + AllWritten(w, steps))
    decreases |steps|
  {
    hide Next, Serve.Fair, Within, Steady, OnItsWay, WrittenBy;
    FairSteady(w);
    if steps == [] {
      assert OnItsWay(w) + [] == OnItsWay(w);
    } else {
      var v := Next(w, steps[0]);
      assert Within(steps[0]);
      StepSteady(w, steps[0]);
      StepFair(w, steps[0]);
      RunWrites(v, steps[1..]);
      StoppedStays(w, steps[0]);
      if w.srv.closing {
        ClosingGoesOn(w, steps[0]);
      } else if v.running && !v.srv.closing {
        OutStep(w, steps[0]);
        Seqs.Assoc(OnItsWay(w), WrittenBy(w, steps[0]), AllWritten(v, steps[1..]));
      }
    }
  }

  lemma StoppedStays(w: World, s: Step)
    requires Steady(w) && Within(s)
    ensures Next(w, s).running ==> w.running
  {
    hide Usable, PollWrite, PollRead, TakeOutbound, Credit, Refill, Read;
  }

  /** For a handler started on an open channel, in every interleaving and as long as it runs on a
      live connection: the data the server had sent and queued, followed by all the handler has
      written, is the data it has sent by now, followed by what its channel queues and by what
      waits for the loop, each byte on the stream it was written to. */
  lemma WritesGoOut(policy: Policy, srv: Srv, maxBuffered: nat, steps: seq<Step>)
    requires Ready(srv) && srv.chan.Some? && AllWithin(steps)
    ensures var w, v := Spawned(policy, srv, maxBuffered), Outcome(policy, srv, maxBuffered, steps);
            && Steady(w)
            && (v.running && !v.srv.closing ==> Held(v.srv) + Tags(v.outbound) == Held(srv) + AllWritten(w, steps))
  {
    hide Serve.Run, AllWritten, Held, Serve.Fair;
    var w := Spawned(policy, srv, maxBuffered);
    SpawnedFair(policy, srv, maxBuffered);
    RunWrites(w, steps);
    assert Held(srv) + [] == Held(srv);
  }
}
