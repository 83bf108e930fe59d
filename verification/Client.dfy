/** The client above the transport, once it is authenticated: one session channel, the requests
    made on it, and the answers, which are matched to the requests first in, first out. */
module Client {
  import opened Bytes
  import opened Channels
  import opened Flow

  datatype Request = Exec(command: seq<byte>) | Shell

  datatype PendingReply = PtyReply | SessionReply

  /** What the client hands to its transport. */
  datatype Outgoing = OnChannel(msg: Msg) | PtyRequest(pty: Pty) | SessionRequest(request: Request) | Farewell

  datatype Notice =
    | ChannelReady
    | OpenFailed
    | Stdout(bytes: seq<byte>)
    | Stderr(bytes: seq<byte>)
    | PtyGranted
    | PtyRefused
    | RequestFailed
    | ChannelGone

  datatype Cli = Cli(
    authenticated: bool,
    chan: Option<Chan>,
    pending: Option<Request>,
    wantPty: Option<Pty>,
    replies: seq<PendingReply>,
    sent: seq<Outgoing>,
    notices: seq<Notice>,
    closing: bool)

  ghost predicate Usable(s: Cli) {
    s.chan.Some? ==> Unsent(s.chan.value.out) && s.chan.value.localWindow <= DEFAULT_WINDOW
  }

  function Channeled(ms: seq<Msg>): (out: seq<Outgoing>)
    ensures |out| == |ms|
    ensures forall i :: 0 <= i < |ms| ==> out[i] == OnChannel(ms[i])
  {
    seq(|ms|, i requires 0 <= i < |ms| => OnChannel(ms[i]))
  }

  /** The transport drops everything once it is closing. */
  function SendAll(s: Cli, out: seq<Outgoing>): Cli {
    if s.closing then s else s.(sent := s.sent + out)
  }

  function Tell(s: Cli, n: Notice): Cli { s.(notices := s.notices + [n]) }

  function Disconnect(s: Cli): Cli {
    if s.closing then s else s.(sent := s.sent + [Farewell], closing := true)
  }

  // --- opening, writing, ending -----------------------------------------------------------------

  function OpenSession(s: Cli, request: Request): Result<Cli> {
    if !s.authenticated then Err(Protocol)
    else Ok(SendAll(s.(chan := Some(Fresh()), pending := Some(request)), [OnChannel(Open(DEFAULT_WINDOW, MAX_PACKET))]))
  }

  function FlushChannel(s: Cli, cap: Option<u32>): Cli
    requires Usable(s)
  {
    if s.chan.None? then s
    else
      var (ms, d) := ClientFlush(s.chan.value, cap);
      SendAll(s.(chan := Some(d)), Channeled(ms))
  }

  function WriteStdin(s: Cli, data: seq<byte>, cap: Option<u32>): Cli
    requires Usable(s)
  {
    if s.chan.None? then s
    else
      EnqueueAppends(s.chan.value, false, data);
      FlushChannel(s.(chan := Some(Enqueue(s.chan.value, false, data))), cap)
  }

  function SendEof(s: Cli, cap: Option<u32>): Cli
    requires Usable(s)
  {
    if s.chan.None? then s else FlushChannel(s.(chan := Some(s.chan.value.(wantEof := true))), cap)
  }

  // --- what the server sends --------------------------------------------------------------------

  /** The terminal request goes out before the session request, and both wait for an answer. */
  function AskPty(s: Cli): Cli {
    if s.wantPty.None? then s
    else SendAll(s, [PtyRequest(s.wantPty.value)]).(wantPty := None, replies := s.replies + [PtyReply])
  }

  function AskSession(s: Cli): Cli {
    if s.pending.None? then s
    else SendAll(s, [SessionRequest(s.pending.value)]).(pending := None, replies := s.replies + [SessionReply])
  }

  function OnConfirmation(s: Cli, window: u32, maxPacket: u32, cap: Option<u32>): Cli
    requires Usable(s)
  {
    if s.chan.None? then s
    else FlushChannel(AskSession(AskPty(Tell(s.(chan := Some(SetRemote(s.chan.value, window, maxPacket))), ChannelReady))), cap)
  }

  function OnOpenFailure(s: Cli): Cli { Tell(s.(chan := None, replies := []), OpenFailed) }

  /** Received data is acknowledged at once; an overrun window ends the connection. */
  function ReplenishWindow(s: Cli, len: u32): Cli
    requires Usable(s)
  {
    if s.chan.None? then s
    else
      match Replenish(s.chan.value, len)
      case None => Disconnect(s)
      case Some((ms, c)) => SendAll(s.(chan := Some(c)), Channeled(ms))
  }

  function OnData(s: Cli, bytes: seq<byte>, ext: bool): Cli
    requires Usable(s) && |bytes| < 0x1_0000_0000
  {
    Tell(ReplenishWindow(s, |bytes|), if ext then Stderr(bytes) else Stdout(bytes))
  }

  function OnAdjust(s: Cli, n: u32, cap: Option<u32>): Cli
    requires Usable(s)
  {
    if s.chan.None? then s else FlushChannel(s.(chan := Some(AddRemoteWindow(s.chan.value, n))), cap)
  }

  /** The channel is given up, with a CLOSE if none went out. */
  function GiveUp(s: Cli): Cli {
    var t := if s.chan.Some? && !s.chan.value.sentClose then SendAll(s, [OnChannel(Close)]) else s;
    Tell(t.(chan := None, replies := []), ChannelGone)
  }

  function OnSuccess(s: Cli): Cli {
    if s.replies == [] then s
    else
      var t := s.(replies := s.replies[1..]);
      if s.replies[0].PtyReply? then Tell(t, PtyGranted) else t
  }

  /** A refused terminal is survivable; anything else refused ends the session. */
  function OnFailure(s: Cli): Cli {
    var t := if s.replies == [] then s else s.(replies := s.replies[1..]);
    if s.replies != [] && s.replies[0].PtyReply? then Tell(t, PtyRefused) else GiveUp(Tell(t, RequestFailed))
  }

  function OnClose(s: Cli): Cli { GiveUp(s) }

  // --- calls ------------------------------------------------------------------------------------

  /** What a driver may call and the server may send. */
  datatype Call =
    | Opens(request: Request)
    | WantsPty(pty: Pty)
    | Stdin(data: seq<byte>)
    | EndsStdin
    | Confirms(window: u32, maxPacket: u32)
    | RefusesOpen
    | Delivers(bytes: seq<byte>, ext: bool)
    | Grants(n: u32)
    | Succeeds
    | Fails
    | Closes

  predicate Sized(c: Call) { c.Delivers? ==> |c.bytes| < 0x1_0000_0000 }

  function Do(s: Cli, c: Call, cap: Option<u32>): Cli
    requires Usable(s) && Sized(c)
  {
    match c
    case Opens(request) => (match OpenSession(s, request) case Ok(t) => t case Err(_) => s)
    case WantsPty(pty) => s.(wantPty := Some(pty))
    case Stdin(data) => WriteStdin(s, data, cap)
    case EndsStdin => SendEof(s, cap)
    case Confirms(window, maxPacket) => OnConfirmation(s, window, maxPacket, cap)
    case RefusesOpen => OnOpenFailure(s)
    case Delivers(bytes, ext) => OnData(s, bytes, ext)
    case Grants(n) => OnAdjust(s, n, cap)
    case Succeeds => OnSuccess(s)
    case Fails => OnFailure(s)
    case Closes => OnClose(s)
  }
}
