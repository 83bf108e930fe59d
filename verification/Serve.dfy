/** The serve loop and the one handler it runs: a byte budget shared by the handler's writes,
    the loop and the channel's queue, and the count of bytes read that refills the client's
    window. Handler and loop steps interleave freely; acquiring from the budget is atomic.
    A handler is started for a program request whether or not a channel is open. */
module Serve {
  import opened Bytes
  import opened Channels
  import opened Flow
  import opened Server
  import ServerRuns

  const MAX_RESERVE := 32 * 1024

  datatype Outbound = Out(ext: bool, data: seq<byte>) | ExitWith(status: u32)

  /** `accepted` and `dropped` count the stdin bytes queued for the handler and the ones that
      came after its EOF; `running` until the handler is stopped. */
  datatype World = World(
    policy: Policy,
    srv: Srv,
    limit: nat,
    permits: nat,
    outbound: seq<Outbound>,
    reserving: Option<nat>,
    inflight: nat,
    stdin: seq<seq<byte>>,
    stdinOpen: bool,
    chunk: seq<byte>,
    pos: nat,
    consumed: nat,
    last: nat,
    accepted: nat,
    dropped: nat,
    running: bool)

  /** A handler has just been started; data that came before it is lost. */
  function Spawned(policy: Policy, srv: Srv, maxBuffered: nat): World {
    var limit := if maxBuffered < MAX_RESERVE then MAX_RESERVE else maxBuffered;
    var early := if srv.chan.Some? && srv.chan.value.localWindow <= DEFAULT_WINDOW then DEFAULT_WINDOW - srv.chan.value.localWindow else 0;
    World(policy, srv, limit, limit, [], None, 0, [], true, [], 0, 0, 0, 0, early, true)
  }

  function OutBytes(q: seq<Outbound>): nat {
    if q == [] then 0 else (if q[0].Out? then |q[0].data| else 0) + OutBytes(q[1..])
  }

  function Queued(q: seq<seq<byte>>): nat {
    if q == [] then 0 else |q[0]| + Queued(q[1..])
  }

  // --- the handler ----------------------------------------------------------------------------

  /** `poll_write`: reserve on the first poll, wait until the budget has it, and give back what
      a shorter retry does not need. The number written, unless it must wait. */
  function PollWrite(w: World, data: seq<byte>): (World, Option<nat>) {
    if data == [] then (w, Some(0))
    else
      var want := if w.reserving.Some? then w.reserving.value else Min(|data|, MAX_RESERVE);
      if w.permits < want then (w.(reserving := Some(want)), None)
      else
        var n := Min(want, |data|);
        (w.(reserving := None, permits := w.permits - want + (want - n), outbound := w.outbound + [Out(false, data[..n])]),
         Some(n))
  }

  /** One chunk of `reserve_and_send`; nothing while the budget is short. */
  function SendChunk(w: World, ext: bool, data: seq<byte>): World
    requires |data| <= MAX_RESERVE
  {
    if w.permits < |data| then w
    else w.(permits := w.permits - |data|, outbound := w.outbound + [Out(ext, data)])
  }

  /** The next chunk that holds anything. */
  function NextChunk(q: seq<seq<byte>>): (r: Option<(seq<byte>, seq<seq<byte>>)>)
    ensures r.Some? ==> r.value.0 != []
  {
    if q == [] then None
    else if q[0] == [] then NextChunk(q[1..])
    else Some((q[0], q[1..]))
  }

  /** `poll_read` into `room` bytes: what was read, or none when nothing is there. */
  function PollRead(w: World, room: nat): (World, Option<seq<byte>>) {
    if w.pos < |w.chunk| then Served(w, room)
    else
      match NextChunk(w.stdin)
      case None => (w.(stdin := []), None)
      case Some((c, rest)) => Served(w.(chunk := c, pos := 0, stdin := rest), room)
  }

  function Served(w: World, room: nat): (World, Option<seq<byte>>)
    requires w.pos <= |w.chunk|
  {
    var n := Min(|w.chunk| - w.pos, room);
    (w.(pos := w.pos + n, consumed := w.consumed + n), Some(w.chunk[w.pos..w.pos + n]))
  }

  // --- the loop -----------------------------------------------------------------------------------

  /** One message of the handler goes to the channel. */
  function TakeOutbound(w: World): World
    requires Usable(w.srv)
  {
    if w.outbound == [] then w
    else
      var v := w.(outbound := w.outbound[1..]);
      match w.outbound[0]
      case Out(ext, data) => v.(inflight := w.inflight + |data|, srv := Output(w.policy, w.srv, ext, data))
      case ExitWith(status) => v.(srv := OnExit(w.policy, w.srv, status))
  }

  /** Output that reached the transport frees budget. */
  function Credit(w: World): World {
    var flushed := if w.srv.chan.Some? then w.srv.chan.value.flushedOut else 0;
    var credit := Min(flushed, w.inflight);
    w.(srv := OnTake(w.srv), inflight := w.inflight - credit, permits := w.permits + credit)
  }

  /** Bytes the handler has read refill the client's window. */
  function Refill(w: World): World
    requires Usable(w.srv) && w.last <= w.consumed
  {
    var delta := w.consumed - w.last;
    w.(last := w.consumed, srv := if delta > 0 then OnConsumed(w.srv, Min(delta, 0xFFFF_FFFF)) else w.srv)
  }

  /** One event of the connection. A program request is answered: granted, if there is a
      handler for it, which replaces this one. A close stops the handler. */
  function OnEvent(w: World, e: Event, grants: bool): World {
    match e
    case DataIn(bytes) =>
      if w.stdinOpen then w.(stdin := if bytes == [] then w.stdin else w.stdin + [bytes], accepted := w.accepted + |bytes|)
      else w.(dropped := w.dropped + |bytes|)
    case EofIn => w.(stdinOpen := false)
    case Closed => w.(stdinOpen := false, running := false)
    case ProgramAsked(_) => w.(srv := Answer(w.srv, grants), running := w.running && !grants)
    case _ => w
  }

  function OnEvents(w: World, es: seq<Event>, grants: bool): World
    decreases |es|
  {
    if es == [] then w else OnEvents(OnEvent(w, es[0], grants), es[1..], grants)
  }

  /** A packet from the client, and the events it raised. */
  function Read(w: World, packet: Packet, grants: bool): World
    requires Usable(w.srv)
  {
    var r := OnPacket(w.policy, w.srv, packet);
    if r.Err? || |r.value.events| < |w.srv.events| then w
    else OnEvents(w.(srv := r.value), r.value.events[|w.srv.events|..], grants)
  }

  // --- steps ----------------------------------------------------------------------------------------

  datatype Step =
    | Writes(data: seq<byte>)
    | Sends(ext: bool, data: seq<byte>)
    | Exits(status: u32)
    | ReadsInto(room: nat)
    | LoopTakes
    | LoopCredits
    | LoopRefills
    | LoopReads(packet: Packet, grants: bool)

  predicate Within(s: Step) { s.Sends? ==> |s.data| <= MAX_RESERVE }

  /** What every step needs and keeps, whatever the client has opened. */
  ghost predicate Steady(w: World) {
    Usable(w.srv) && w.srv.authenticated.Some? && w.last <= w.consumed
  }

  /** One step of the handler or of the loop, while the handler runs. */
  function Next(w: World, s: Step): World
    requires Steady(w) && Within(s)
  {
    if !w.running then w
    else
      match s
      case Writes(data) => PollWrite(w, data).0
      case Sends(ext, data) => SendChunk(w, ext, data)
      case Exits(status) => w.(outbound := w.outbound + [ExitWith(status)])
      case ReadsInto(room) => PollRead(w, room).0
      case LoopTakes => TakeOutbound(w)
      case LoopCredits => Credit(w)
      case LoopRefills => Refill(w)
      case LoopReads(packet, grants) => Read(w, packet, grants)
  }

  // --- the budget law ----------------------------------------------------------------------------------

  /** Bytes of output the channel holds: queued, or flushed and not yet taken note of. */
  function InChannel(srv: Srv): nat {
    if srv.chan.None? then 0 else |Pending(srv.chan.value.out)| + srv.chan.value.flushedOut
  }

  /** Every byte of the budget is free, or waits for the loop, or is in flight; and what is in
      flight is what the channel holds. */
  ghost predicate Budgeted(w: World) {
    w.running ==> w.permits + OutBytes(w.outbound) + w.inflight == w.limit && w.inflight == InChannel(w.srv)
  }

  function Unread(w: World): nat {
    Queued(w.stdin) + (if w.pos <= |w.chunk| then |w.chunk| - w.pos else 0)
  }

  /** Every byte of window the client has used was dropped, or awaits reading or reporting, or
      awaits its grant. */
  ghost predicate Counted(w: World) {
    && w.pos <= |w.chunk| && w.last <= w.consumed <= w.accepted
    && w.accepted - w.consumed == Unread(w)
    && w.accepted - w.last <= DEFAULT_WINDOW
    && (w.running && w.srv.chan.Some? ==>
          Windowed(w.srv.chan.value)
          && DEFAULT_WINDOW - w.srv.chan.value.localWindow == w.dropped + (w.accepted - w.last) + w.srv.chan.value.unacked)
  }

  /** A handler started on an open channel: the channel stays open as long as it runs. */
  ghost predicate Fair(w: World) {
    && Steady(w) && (w.running ==> w.srv.chan.Some? && w.srv.programStarted) && w.limit >= MAX_RESERVE
    && (w.reserving.Some? ==> w.reserving.value <= MAX_RESERVE)
    && Budgeted(w) && Counted(w)
  }

  lemma {:induction false} OutBytesAppend(a: seq<Outbound>, b: seq<Outbound>)
    ensures OutBytes(a + b) == OutBytes(a) + OutBytes(b)
  {
    if a == [] {
      assert a + b == b;
    } else {
      assert (a + b)[1..] == a[1..] + b;
      OutBytesAppend(a[1..], b);
    }
  }

  lemma OutBytesOne(o: Outbound)
    ensures OutBytes([o]) == (if o.Out? then |o.data| else 0)
  {
    var none: seq<Outbound> := [];
    assert [o][1..] == none;
  }

  lemma {:induction false} QueuedAppend(a: seq<seq<byte>>, b: seq<byte>)
    ensures Queued(a + [b]) == Queued(a) + |b|
  {
    if a == [] {
      var none: seq<seq<byte>> := [];
      assert a + [b] == [b] && [b][1..] == none;
    } else {
      assert (a + [b])[1..] == a[1..] + [b];
      QueuedAppend(a[1..], b);
    }
  }

  lemma {:induction false} NextChunkCounts(q: seq<seq<byte>>)
    ensures match NextChunk(q)
            case None => Queued(q) == 0
            case Some((c, rest)) => Queued(q) == |c| + Queued(rest)
  {
    if q != [] && q[0] == [] {
      NextChunkCounts(q[1..]);
    }
  }

  // --- the handler's steps ---------------------------------------------------------------------------

  /** Writing moves bytes from the budget to the queue, never more than were reserved, however
      the caller changes its buffer between polls. */
  lemma PollWriteFair(w: World, data: seq<byte>)
    requires Fair(w)
    ensures Fair(PollWrite(w, data).0)
    ensures var (v, n) := PollWrite(w, data);
            n.Some? ==> n.value <= |data| && v.permits + n.value == w.permits
                        && (data != [] ==> v.outbound == w.outbound + [Out(false, data[..n.value])])
  {
    hide Counted, Pending, Unsent;
    if data != [] {
      var want := if w.reserving.Some? then w.reserving.value else Min(|data|, MAX_RESERVE);
      var n := Min(want, |data|);
      OutBytesAppend(w.outbound, [Out(false, data[..n])]);
      OutBytesOne(Out(false, data[..n]));
      CountedSame(w, PollWrite(w, data).0);
    }
  }

  lemma CountedSame(w: World, v: World)
    requires Counted(w)
    requires v.srv == w.srv && v.running == w.running && v.stdin == w.stdin && v.chunk == w.chunk && v.pos == w.pos
    requires v.consumed == w.consumed && v.last == w.last && v.accepted == w.accepted && v.dropped == w.dropped
    ensures Counted(v)
  {
    hide Queued;
  }

  lemma SendChunkFair(w: World, ext: bool, data: seq<byte>)
    requires Fair(w) && |data| <= MAX_RESERVE
    ensures Fair(SendChunk(w, ext, data))
  {
    hide Counted, Pending, Unsent;
    OutBytesAppend(w.outbound, [Out(ext, data)]);
    OutBytesOne(Out(ext, data));
    CountedSame(w, SendChunk(w, ext, data));
  }

  lemma ExitFair(w: World, status: u32)
    requires Fair(w)
    ensures Fair(w.(outbound := w.outbound + [ExitWith(status)]))
  {
    hide Counted, Pending, Unsent;
    OutBytesAppend(w.outbound, [ExitWith(status)]);
    OutBytesOne(ExitWith(status));
    CountedSame(w, w.(outbound := w.outbound + [ExitWith(status)]));
  }

  lemma BudgetedSame(w: World, v: World)
    requires Budgeted(w) && v.srv == w.srv && v.running == w.running && v.permits == w.permits && v.outbound == w.outbound
    requires v.inflight == w.inflight && v.limit == w.limit
    ensures Budgeted(v)
  {
    hide Pending;
  }

  lemma ServedCounts(w: World, room: nat)
    requires Counted(w)
    ensures var (v, r) := Served(w, room);
            Counted(v) && r.Some? && |r.value| <= room && Unread(v) + |r.value| == Unread(w)
  {
    hide Queued;
  }

  /** Reading takes bytes off the front of what was queued, and counts each. */
  lemma PollReadFair(w: World, room: nat)
    requires Fair(w)
    ensures Fair(PollRead(w, room).0)
    ensures var (v, r) := PollRead(w, room);
            && Unread(v) + (if r.Some? then |r.value| else 0) == Unread(w)
            && (r.None? ==> Unread(w) == 0) && (r.Some? ==> |r.value| <= room)
  {
    hide Budgeted, Usable, Served, Windowed;
    NextChunkCounts(w.stdin);
    assert Queued([]) == 0;
    BudgetedSame(w, PollRead(w, room).0) by { ServedShape(w, room); ReadShape(w, room); }
    if w.pos < |w.chunk| {
      ServedCounts(w, room);
      ServedShape(w, room);
    } else if NextChunk(w.stdin).Some? {
      var v := w.(chunk := NextChunk(w.stdin).value.0, pos := 0, stdin := NextChunk(w.stdin).value.1);
      ServedCounts(v, room);
      ServedShape(v, room);
    }
  }

  lemma ServedShape(w: World, room: nat)
    requires w.pos <= |w.chunk|
    ensures var v := Served(w, room).0; v == w.(pos := v.pos, consumed := v.consumed)
  {
  }

  lemma ReadShape(w: World, room: nat)
    ensures var v := PollRead(w, room).0;
            v == w.(stdin := v.stdin, chunk := v.chunk, pos := v.pos, consumed := v.consumed)
  {
  }

  // --- the loop's steps -------------------------------------------------------------------------------

  /** Queueing and draining move bytes from queued to flushed. */
  lemma FlushKeepsTotal(p: Policy, s: Srv, c: Chan)
    requires s.chan.Some? && Unsent(c.out) && c.localWindow <= DEFAULT_WINDOW
    ensures var t := FlushChannel(p, s.(chan := Some(c)));
            && Usable(t) && t.chan.Some? && t.authenticated == s.authenticated && t.programStarted == s.programStarted
            && t.events == s.events
            && |Pending(t.chan.value.out)| + t.chan.value.flushedOut == |Pending(c.out)| + c.flushedOut
            && t.chan.value.localWindow == c.localWindow && t.chan.value.unacked == c.unacked
  {
    hide Drain, Pending, Carried, Unsent, Chunked, SendAll;
    DrainRefinesQueue(c, p.cap);
    var (ms, d) := ServerFlush(c, p.cap);
    ServerRuns.SendAllSame(s.(chan := Some(d)), ms);
  }

  lemma TakeFair(w: World)
    requires Fair(w) && w.running
    ensures Fair(TakeOutbound(w))
  {
    hide Pending, Unsent, FlushChannel, Queued, OutBytes, Tag;
    if w.outbound != [] {
      assert w.outbound == [w.outbound[0]] + w.outbound[1..];
      OutBytesAppend([w.outbound[0]], w.outbound[1..]);
      OutBytesOne(w.outbound[0]);
      var c := w.srv.chan.value;
      match w.outbound[0]
      case Out(ext, data) =>
        EnqueueAppends(c, ext, data);
        EnqueueKeeps(c, ext, data);
        FlushKeepsTotal(w.policy, w.srv, Enqueue(c, ext, data));
      case ExitWith(status) =>
        FlushKeepsTotal(w.policy, w.srv, c.(exitStatus := Some(status), wantClose := true));
    }
  }

  /** The credit is the whole of what was flushed. */
  lemma CreditFair(w: World)
    requires Fair(w) && w.running
    ensures Fair(Credit(w)) && Credit(w).inflight == |Pending(w.srv.chan.value.out)|
  {
    hide Pending, Unsent, Queued, OutBytes;
  }

  lemma RefillFair(w: World)
    requires Fair(w) && w.running
    ensures Fair(Refill(w))
  {
    hide Pending, Unsent, Queued, OutBytes, AckIncoming, Grant, SendAll;
    var c := w.srv.chan.value;
    var delta := w.consumed - w.last;
    if delta > 0 {
      assert delta <= DEFAULT_WINDOW;
      AckKeepsWindow(c, delta);
      AckExact(c, delta);
      AckTouches(c, delta);
      ServerRuns.SendAllSame(w.srv.(chan := Some(AckIncoming(c, delta).1)), Consumed(c, delta).0);
    }
  }

  lemma DataFair(w: World, bytes: seq<byte>, grants: bool)
    requires Fair(w) && w.running
    ensures Fair(Read(w, ChannelData(bytes), grants))
  {
    hide Pending, Unsent, OutBytes, Queued, Server.Disconnect;
    var r := OnData(w.srv, bytes);
    if ConsumeIncoming(w.srv.chan.value, |bytes|).Some? {
      LastEvent(w.srv.events, DataIn(bytes));
      OneEvent(w.(srv := r), DataIn(bytes), grants);
      QueuedAppend(w.stdin, bytes);
    } else {
      DisconnectShape(w.srv);
      NoEvents(w, r, grants);
    }
  }

  lemma DisconnectShape(s: Srv)
    ensures Server.Disconnect(s) == s.(sent := Server.Disconnect(s).sent, closing := true)
  {
  }

  lemma LastEvent(es: seq<Event>, e: Event)
    ensures (es + [e])[|es|..] == [e]
  {
  }

  lemma OneEvent(w: World, e: Event, grants: bool)
    ensures OnEvents(w, [e], grants) == OnEvent(w, e, grants)
  {
    var none: seq<Event> := [];
    assert [e][1..] == none;
  }

  lemma NoEvents(w: World, r: Srv, grants: bool)
    requires r.events == w.srv.events
    ensures OnEvents(w.(srv := r), r.events[|w.srv.events|..], grants) == w.(srv := r)
  {
    assert r.events[|w.srv.events|..] == [];
  }

  /** Packets that leave the queue, the windows and the events alone. */
  lemma QuietPacketFair(w: World, packet: Packet, grants: bool)
    requires Fair(w) && w.running
    requires !packet.ChannelData? && !packet.WindowAdjust? && !packet.ChannelEof? && !packet.ChannelClose?
    requires !packet.OtherRequest?
    ensures Fair(Read(w, packet, grants))
  {
    hide Pending, Unsent, OutBytes, Queued;
    var r := OnPacket(w.policy, w.srv, packet);
    if r.Ok? {
      NoEvents(w, r.value, grants);
    }
  }

  /** The laws do not speak of what was sent, nor of the terminal. */
  lemma PtyFair(w: World, r: Srv)
    requires Fair(w) && w.running && r.chan.Some?
    requires r == w.srv.(chan := r.chan, events := r.events, sent := r.sent)
    requires r.chan.value == w.srv.chan.value.(pty := r.chan.value.pty)
    ensures Fair(w.(srv := r))
  {
    hide Pending, Unsent, OutBytes, Queued;
  }

  lemma AskShape(p: Policy, s: Srv, ask: Ask, wantReply: bool) returns (r: Srv)
    requires s.chan.Some?
    ensures r == OnOtherRequest(p, s, ask, wantReply) && r.chan.Some?
    ensures r == s.(chan := r.chan, events := r.events, sent := r.sent)
    ensures r.chan.value == s.chan.value.(pty := r.chan.value.pty)
    ensures r.events == s.events || (ask.Resize? && r.events == s.events + [WindowChange(Cells(ask.cols), Cells(ask.rows))])
  {
    hide Send, Apply, Granted, Cells;
    r := OnOtherRequest(p, s, ask, wantReply);
    ServerRuns.PtyTouches(s, ask);
    SendShape(s, Failure);
    SendShape(Apply(s, ask), Success);
  }

  /** A terminal and its size are the channel's own business. */
  lemma AskFair(w: World, ask: Ask, wantReply: bool, grants: bool)
    requires Fair(w) && w.running
    ensures Fair(Read(w, OtherRequest(ask, wantReply), grants))
  {
    hide Unsent, Budgeted, Counted, OnOtherRequest, Cells;
    var r := AskShape(w.policy, w.srv, ask, wantReply);
    PtyFair(w, r);
    if r.events == w.srv.events {
      NoEvents(w, r, grants);
    } else {
      var e := WindowChange(Cells(ask.cols), Cells(ask.rows));
      LastEvent(w.srv.events, e);
      OneEvent(w.(srv := r), e, grants);
    }
  }

  lemma SendShape(s: Srv, r: Reply)
    ensures Send(s, r) == s.(sent := Send(s, r).sent)
  {
  }

  lemma AdjustFair(w: World, n: u32, grants: bool)
    requires Fair(w) && w.running
    ensures Fair(Read(w, WindowAdjust(n), grants))
  {
    hide Pending, Unsent, OutBytes, Queued, FlushChannel, AddRemoteWindow;
    var c := AddRemoteWindow(w.srv.chan.value, n);
    AdjustShape(w.srv.chan.value, n);
    FlushKeepsTotal(w.policy, w.srv, c);
    NoEvents(w, OnAdjust(w.policy, w.srv, n), grants);
  }

  lemma EndFair(w: World, grants: bool)
    requires Fair(w) && w.running
    ensures Fair(Read(w, ChannelEof, grants)) && Fair(Read(w, ChannelClose, grants))
  {
    hide Pending, Unsent, OutBytes, Queued;
    LastEvent(w.srv.events, EofIn);
    OneEvent(w.(srv := Note(w.srv, EofIn)), EofIn, grants);
    LastEvent(w.srv.events, Closed);
    OneEvent(w.(srv := OnClose(w.srv)), Closed, grants);
  }

  lemma StepFair(w: World, s: Step)
    requires Fair(w) && Within(s)
    ensures Fair(Next(w, s))
  {
    hide Budgeted, Counted, PollWrite, SendChunk, PollRead, TakeOutbound, Credit, Refill, Read, Unsent;
    if w.running {
      match s
      case Writes(data) => PollWriteFair(w, data);
      case Sends(ext, data) => SendChunkFair(w, ext, data);
      case Exits(status) => ExitFair(w, status);
      case ReadsInto(room) => PollReadFair(w, room);
      case LoopTakes => TakeFair(w);
      case LoopCredits => CreditFair(w);
      case LoopRefills => RefillFair(w);
      case LoopReads(packet, grants) =>
        match packet {
          case ChannelData(bytes) => DataFair(w, bytes, grants);
          case WindowAdjust(n) => AdjustFair(w, n, grants);
          case ChannelEof => EndFair(w, grants);
          case ChannelClose => EndFair(w, grants);
          case OtherRequest(ask, wantReply) => AskFair(w, ask, wantReply, grants);
          case _ => QuietPacketFair(w, packet, grants);
        }
    }
  }

  // --- steps with or without a channel -----------------------------------------------------------------

  lemma {:induction false} EventsSteady(w: World, es: seq<Event>, grants: bool)
    requires Steady(w)
    ensures Steady(OnEvents(w, es, grants))
    decreases |es|
  {
    hide Unsent;
    if es != [] {
      EventsSteady(OnEvent(w, es[0], grants), es[1..], grants);
    }
  }

  lemma AskSteady(p: Policy, s: Srv, ask: Ask, wantReply: bool)
    requires Usable(s) && s.authenticated.Some?
    ensures var t := OnOtherRequest(p, s, ask, wantReply); Usable(t) && t.authenticated.Some?
  {
    hide Unsent, Apply;
    if s.chan.Some? {
      ServerRuns.PtyTouches(s, ask);
    } else {
      ServerRuns.NoPtyToTouch(s, ask);
    }
  }

  lemma PacketSteady(p: Policy, s: Srv, packet: Packet)
    requires Usable(s) && s.authenticated.Some? && OnPacket(p, s, packet).Ok?
    ensures var t := OnPacket(p, s, packet).value; Usable(t) && t.authenticated.Some?
  {
    hide FlushChannel, AddRemoteWindow, OnOtherRequest, PreAuth;
    if packet.OtherRequest? {
      AskSteady(p, s, packet.ask, packet.wantReply);
    }
    if packet.WindowAdjust? && s.chan.Some? {
      AdjustShape(s.chan.value, packet.n);
      ServerRuns.FlushUsable(p, s.(chan := Some(AddRemoteWindow(s.chan.value, packet.n))));
    }
  }

  lemma OutputSteady(p: Policy, s: Srv, ext: bool, data: seq<byte>)
    requires Usable(s)
    ensures Usable(Output(p, s, ext, data)) && Output(p, s, ext, data).authenticated == s.authenticated
  {
    hide FlushChannel, Unsent, Enqueue, Pending, Tag;
    if s.chan.Some? {
      EnqueueAppends(s.chan.value, ext, data);
      EnqueueKeeps(s.chan.value, ext, data);
      ServerRuns.FlushUsable(p, s.(chan := Some(Enqueue(s.chan.value, ext, data))));
    }
  }

  lemma TakeSteady(w: World)
    requires Steady(w)
    ensures Steady(TakeOutbound(w))
  {
    hide FlushChannel, Unsent, Output;
    if w.outbound != [] {
      match w.outbound[0]
      case Out(ext, data) => OutputSteady(w.policy, w.srv, ext, data);
      case ExitWith(status) =>
        if w.srv.chan.Some? {
          ServerRuns.FlushUsable(w.policy, w.srv.(chan := Some(w.srv.chan.value.(exitStatus := Some(status), wantClose := true))));
        }
    }
  }

  lemma RefillSteady(w: World)
    requires Steady(w)
    ensures Steady(Refill(w))
  {
    hide Unsent, AckIncoming, Grant, SendAll;
    var delta := w.consumed - w.last;
    if delta > 0 && w.srv.chan.Some? {
      var c, len := w.srv.chan.value, Min(delta, 0xFFFF_FFFF);
      AckTouches(c, len);
      AckWithin(c, len);
      ServerRuns.SendAllSame(w.srv.(chan := Some(AckIncoming(c, len).1)), Consumed(c, len).0);
    }
  }

  lemma StepSteady(w: World, s: Step)
    requires Steady(w) && Within(s)
    ensures Steady(Next(w, s))
  {
    hide Usable, TakeOutbound, Refill, OnPacket, OnEvents, NextChunk;
    match s
    case LoopTakes => TakeSteady(w);
    case LoopRefills => RefillSteady(w);
    case LoopCredits => CreditSteady(w);
    case LoopReads(packet, grants) =>
      var r := OnPacket(w.policy, w.srv, packet);
      if r.Ok? && |r.value.events| >= |w.srv.events| {
        PacketSteady(w.policy, w.srv, packet);
        EventsSteady(w.(srv := r.value), r.value.events[|w.srv.events|..], grants);
      }
    case _ =>
  }

  lemma CreditSteady(w: World)
    requires Steady(w)
    ensures Steady(Credit(w))
  {
    hide Unsent;
  }

  // --- the results -----------------------------------------------------------------------------------

  predicate AllWithin(steps: seq<Step>) {
    forall i :: 0 <= i < |steps| ==> Within(steps[i])
  }

  function Run(w: World, steps: seq<Step>): (v: World)
    requires Steady(w) && AllWithin(steps)
    ensures Steady(v)
    decreases |steps|
  {
    if steps == [] then w
    else
      assert Within(steps[0]);
      StepSteady(w, steps[0]);
      Run(Next(w, steps[0]), steps[1..])
  }

  lemma {:induction false} RunFair(w: World, steps: seq<Step>)
    requires Fair(w) && AllWithin(steps)
    ensures Fair(Run(w, steps))
    decreases |steps|
  {
    hide Fair, Next, Within, Usable;
    assert Steady(w) by { FairSteady(w); }
    if steps != [] {
      StepSteady(w, steps[0]);
      StepFair(w, steps[0]);
      RunFair(Next(w, steps[0]), steps[1..]);
    }
  }

  lemma FairSteady(w: World)
    requires Fair(w)
    ensures Steady(w)
  {
    hide Usable;
  }

  /** A program request has just been granted, the first of the connection. If a channel is
      open, nothing was written to it or acknowledged on it yet. */
  ghost predicate Ready(srv: Srv) {
    && srv.authenticated.Some? && srv.programStarted
    && (srv.chan.Some? ==>
          && srv.chan.value.out == [] && srv.chan.value.flushedOut == 0 && srv.chan.value.unacked == 0
          && srv.chan.value.localWindow <= DEFAULT_WINDOW)
  }

  function Outcome(policy: Policy, srv: Srv, maxBuffered: nat, steps: seq<Step>): World
    requires Ready(srv) && AllWithin(steps)
  {
    Run(Spawned(policy, srv, maxBuffered), steps)
  }

  lemma OutcomeFair(policy: Policy, srv: Srv, maxBuffered: nat, steps: seq<Step>)
    requires Ready(srv) && srv.chan.Some? && AllWithin(steps)
    ensures Fair(Outcome(policy, srv, maxBuffered, steps))
  {
    hide Run;
    SpawnedFair(policy, srv, maxBuffered);
    RunFair(Spawned(policy, srv, maxBuffered), steps);
  }

  lemma SpawnedFair(policy: Policy, srv: Srv, maxBuffered: nat)
    requires Ready(srv) && srv.chan.Some?
    ensures Fair(Spawned(policy, srv, maxBuffered))
  {
  }

  /** For a handler started on an open channel, in every interleaving of handler and loop: free
      budget, bytes waiting for the loop and bytes in flight make up the whole budget, and in
      flight is what the channel still queues or has flushed uncredited. With all of it drained
      and credited, any reservation that waits, and any one chunk, can be met; and a reservation
      waits only while something is left to drain. */
  lemma BudgetLaw(policy: Policy, srv: Srv, maxBuffered: nat, steps: seq<Step>)
    requires Ready(srv) && srv.chan.Some? && AllWithin(steps)
    ensures var w := Outcome(policy, srv, maxBuffered, steps);
            w.running ==>
              && w.srv.chan.Some?
              && w.permits + OutBytes(w.outbound) + w.inflight == w.limit
              && w.inflight == |Pending(w.srv.chan.value.out)| + w.srv.chan.value.flushedOut
              && (w.outbound == [] && w.inflight == 0 ==> w.permits >= MAX_RESERVE)
              && (w.reserving.Some? && w.permits < w.reserving.value ==> w.outbound != [] || w.inflight > 0)
  {
    hide Outcome, Pending, Counted, Usable;
    OutcomeFair(policy, srv, maxBuffered, steps);
    assert OutBytes([]) == 0;
  }

  /** For a handler started on an open channel, whatever the client sends: the stdin it has not
      yet read never exceeds one window, and the window the client may still use and the bytes
      awaiting their grant never pass it. */
  lemma UnreadIsBounded(policy: Policy, srv: Srv, maxBuffered: nat, steps: seq<Step>)
    requires Ready(srv) && srv.chan.Some? && AllWithin(steps)
    ensures var w := Outcome(policy, srv, maxBuffered, steps);
            && w.accepted - w.consumed == Unread(w) <= DEFAULT_WINDOW
            && (w.running ==>
                  && w.srv.chan.Some?
                  && w.srv.chan.value.unacked + w.srv.chan.value.localWindow + Unread(w) + w.dropped <= DEFAULT_WINDOW)
  {
    hide Outcome, Pending, Budgeted, Usable, Unread;
    OutcomeFair(policy, srv, maxBuffered, steps);
  }

  // --- without a channel -------------------------------------------------------------------------------

  /** Data, byte by byte. */
  function Flood(n: nat): (steps: seq<Step>)
    ensures AllWithin(steps)
  {
    if n == 0 then [] else [LoopReads(ChannelData([0]), false)] + Flood(n - 1)
  }

  lemma UnaccountedByte(w: World)
    requires Steady(w) && w.running && w.stdinOpen && w.srv.chan.None? && w.pos == |w.chunk|
    ensures var v := Next(w, LoopReads(ChannelData([0]), false));
            && Steady(v) && v.running && v.stdinOpen && v.srv.chan.None? && v.pos == |v.chunk| && Unread(v) == Unread(w) + 1
  {
    hide Queued;
    var r := OnData(w.srv, [0]);
    LastEvent(w.srv.events, DataIn([0]));
    OneEvent(w.(srv := r), DataIn([0]), false);
    QueuedAppend(w.stdin, [0]);
  }

  lemma {:induction false} FloodFills(w: World, n: nat)
    requires Steady(w) && w.running && w.stdinOpen && w.srv.chan.None? && w.pos == |w.chunk|
    ensures Unread(Run(w, Flood(n))) == Unread(w) + n
    decreases n
  {
    hide Next, Steady, Unread;
    if n > 0 {
      var steps := Flood(n);
      assert steps[1..] == Flood(n - 1);
      UnaccountedByte(w);
      FloodFills(Next(w, steps[0]), n - 1);
    }
  }

  /** Without a channel no window is charged: the client can have any amount queued. */
  lemma UnreadGrows(policy: Policy, srv: Srv, maxBuffered: nat, n: nat)
    requires Ready(srv) && srv.chan.None?
    ensures Unread(Outcome(policy, srv, maxBuffered, Flood(n))) == n
  {
    FloodFills(Spawned(policy, srv, maxBuffered), n);
    assert Queued([]) == 0;
  }

  /** What a handler has not yet read is bounded by one window, whatever the client sends, if and
      only if its channel was open when it was started. */
  lemma UnreadIsBoundedExactly(policy: Policy, srv: Srv, maxBuffered: nat)
    requires Ready(srv)
    ensures (forall steps | AllWithin(steps) :: Unread(Outcome(policy, srv, maxBuffered, steps)) <= DEFAULT_WINDOW)
       <==> srv.chan.Some?
  {
    hide Outcome, Unread, AllWithin;
    if srv.chan.Some? {
      forall steps | AllWithin(steps) ensures Unread(Outcome(policy, srv, maxBuffered, steps)) <= DEFAULT_WINDOW {
        UnreadIsBounded(policy, srv, maxBuffered, steps);
      }
    } else {
      UnreadGrows(policy, srv, maxBuffered, DEFAULT_WINDOW + 1);
    }
  }

  /** Output has nowhere to go either: it stays in flight although nothing holds it. */
  lemma OutputVanishes(policy: Policy, srv: Srv, maxBuffered: nat)
    requires Ready(srv) && srv.chan.None?
    ensures var w := Outcome(policy, srv, maxBuffered, [Writes([0]), LoopTakes]);
            w.running && w.inflight == 1 && InChannel(w.srv) == 0
  {
    hide Queued, OutBytes;
    var steps := [Writes([0]), LoopTakes];
    var w := Spawned(policy, srv, maxBuffered);
    StepSteady(w, steps[0]);
    var v := Next(w, steps[0]);
    assert [0 as byte][..1] == [0];
    assert v.outbound == [Out(false, [0])];
    StepSteady(v, steps[1]);
    var u := Next(v, steps[1]);
    var none: seq<Step> := [];
    assert steps[1..] == [LoopTakes] && steps[1..][1..] == none;
    assert Run(v, [LoopTakes]) == Run(u, none) == u;
    assert Run(w, steps) == Run(v, steps[1..]);
  }

  /** Bytes in flight are the ones the channel holds, for as long as the handler runs, if and only
      if its channel was open when it was started. */
  lemma BudgetExactly(policy: Policy, srv: Srv, maxBuffered: nat)
    requires Ready(srv)
    ensures (forall steps | AllWithin(steps) ::
               var w := Outcome(policy, srv, maxBuffered, steps); w.running ==> w.inflight == InChannel(w.srv))
       <==> srv.chan.Some?
  {
    hide Outcome, Pending;
    if srv.chan.Some? {
      forall steps | AllWithin(steps)
        ensures var w := Outcome(policy, srv, maxBuffered, steps); w.running ==> w.inflight == InChannel(w.srv)
      {
        BudgetLaw(policy, srv, maxBuffered, steps);
      }
    } else {
      OutputVanishes(policy, srv, maxBuffered);
      assert AllWithin([Writes([0]), LoopTakes]);
    }
  }

  /** And a client can have a handler started without a channel: it logs in and asks. */
  lemma StartsWithoutChannel(policy: Policy, user: User, program: Program) returns (srv: Srv)
    requires policy.maxRequests > 0
    ensures ServerRuns.Guarded(policy, NewServer())
    ensures srv == ServerRuns.Served(policy, [Receives(UserAuth(user, Password(true))), Receives(ProgramRequest(program, false))])
    ensures Ready(srv) && srv.chan.None? && srv.events == [Authenticated(user), ProgramAsked(program)]
  {
    ServerRuns.NewGuarded(policy);
    var calls := [Receives(UserAuth(user, Password(true))), Receives(ProgramRequest(program, false))];
    var s := NewServer();
    ServerRuns.CallGuarded(policy, s, calls[0]);
    var t := Do(policy, s, calls[0]).value;
    ServerRuns.CallGuarded(policy, t, calls[1]);
    srv := Do(policy, t, calls[1]).value;
    var none: seq<Call> := [];
    assert calls[1..] == [calls[1]] && [calls[1]][1..] == none;
    assert ServerRuns.Run(policy, t, [calls[1]]) == ServerRuns.Run(policy, srv, none);
  }
}
