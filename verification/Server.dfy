/** The server above the transport (RFC 4252, RFC 4254): authentication with its caps, then
    one session channel. Packets arrive decoded; what the policy handler and the signature
    check would answer about a request comes with it. */
module Server {
  import opened Bytes
  import opened Channels
  import opened Flow

  /** A user name. */
  type User = seq<byte>

  datatype Attempt =
    | NoMethod(allowed: bool)
    | Password(right: bool)
    | PublicKey(readable: bool, authorized: bool, proof: Option<bool>)
    | UnknownMethod
    | Unreadable

  datatype Program = Exec(command: seq<byte>) | Shell | Subsystem(name: seq<byte>)

  /** Channel requests that are not for a program. */
  datatype Ask =
    | Env
    | Terminal(term: seq<byte>, cols: u32, rows: u32, widthPx: u32, heightPx: u32, modes: seq<byte>)
    | Resize(cols: u32, rows: u32, widthPx: u32, heightPx: u32)
    | Unknown

  datatype Packet =
    | ServiceRequest(userauth: bool)
    | UserAuth(user: User, attempt: Attempt)
    | ChannelOpen(session: bool, window: u32, maxPacket: u32)
    | ProgramRequest(program: Program, wantReply: bool)
    | OtherRequest(ask: Ask, wantReply: bool)
    | ChannelData(bytes: seq<byte>)
    | WindowAdjust(n: u32)
    | ChannelEof
    | ChannelClose
    | BrokenService
    | BrokenChannel
    | Ignored

  datatype Event =
    | Authenticated(user: User)
    | ProgramAsked(program: Program)
    | DataIn(bytes: seq<byte>)
    | EofIn
    | Closed
    | WindowChange(cols: u16, rows: u16)
    | AuthExhausted

  /** What the server hands to its transport. */
  datatype Reply =
    | ServiceAccept
    | Banner
    | AuthFailure
    | PkOk
    | AuthSuccess
    | OpenFailure
    | Success
    | Failure
    | Conn(msg: Msg)
    | Goodbye

  /** The policy's limits, whether it grants terminals, and the chunk cap. */
  datatype Policy = Policy(maxAttempts: u32, maxRequests: u32, banner: bool, allowPty: bool, cap: Option<u32>)

  /** `consulted` counts the requests put to the policy handler. */
  datatype Srv = Srv(
    authenticated: Option<User>,
    bannerSent: bool,
    chan: Option<Chan>,
    pendingReply: bool,
    authFailures: nat,
    authRequests: nat,
    programStarted: bool,
    events: seq<Event>,
    sent: seq<Reply>,
    closing: bool,
    consulted: nat)

  function NewServer(): Srv {
    Srv(None, false, None, false, 0, 0, false, [], [], false, 0)
  }

  ghost predicate Usable(s: Srv) {
    s.chan.Some? ==> Unsent(s.chan.value.out) && s.chan.value.localWindow <= DEFAULT_WINDOW
  }

  /** The transport drops everything once it is closing. */
  function Send(s: Srv, r: Reply): Srv {
    if s.closing then s else s.(sent := s.sent + [r])
  }

  function SendAll(s: Srv, ms: seq<Msg>): Srv
    decreases |ms|
  {
    if ms == [] then s else SendAll(Send(s, Conn(ms[0])), ms[1..])
  }

  function Disconnect(s: Srv): Srv {
    if s.closing then s else s.(sent := s.sent + [Goodbye], closing := true)
  }

  function Note(s: Srv, e: Event): Srv { s.(events := s.events + [e]) }

  // --- authentication ------------------------------------------------------------------------

  function OnService(p: Policy, s: Srv, userauth: bool): Srv {
    if !userauth then Disconnect(s)
    else
      var t := Send(s, ServiceAccept);
      if t.bannerSent then t
      else
        var u := t.(bannerSent := true);
        if p.banner then Send(u, Banner) else u
  }

  function SendFailure(p: Policy, s: Srv): Srv {
    var t := s.(authFailures := s.authFailures + 1);
    if t.authFailures >= p.maxAttempts then Note(Disconnect(t), AuthExhausted) else Send(t, AuthFailure)
  }

  function FinishAuth(p: Policy, s: Srv, user: User, granted: bool): Srv {
    if granted then Note(Send(s, AuthSuccess).(authenticated := Some(user)), Authenticated(user))
    else SendFailure(p, s)
  }

  function Consult(s: Srv): Srv { s.(consulted := s.consulted + 1) }

  function OnPublicKey(p: Policy, s: Srv, user: User, a: Attempt): Srv
    requires a.PublicKey?
  {
    if !a.readable then SendFailure(p, s)
    else if !a.authorized then SendFailure(p, Consult(s))
    else if a.proof.None? then Send(Consult(s), PkOk)
    else FinishAuth(p, Consult(s), user, a.proof.value)
  }

  /** Probes count as requests even when they cannot fail. */
  function OnUserAuth(p: Policy, s: Srv, user: User, a: Attempt): Result<Srv> {
    var t := s.(authRequests := s.authRequests + 1);
    if t.authRequests > p.maxRequests then Ok(Note(Disconnect(t), AuthExhausted))
    else
      match a
      case Unreadable => Err(Encoding)
      case NoMethod(allowed) => Ok(FinishAuth(p, Consult(t), user, allowed))
      case Password(right) => Ok(FinishAuth(p, Consult(t), user, right))
      case UnknownMethod => Ok(FinishAuth(p, t, user, false))
      case PublicKey(_, _, _) => Ok(OnPublicKey(p, t, user, a))
  }

  function PreAuth(p: Policy, s: Srv, packet: Packet): Result<Srv> {
    match packet
    case ServiceRequest(userauth) => Ok(OnService(p, s, userauth))
    case BrokenService => Err(Encoding)
    case UserAuth(user, attempt) => OnUserAuth(p, s, user, attempt)
    case _ => Ok(s)
  }

  // --- the channel -----------------------------------------------------------------------------

  function OnOpen(s: Srv, session: bool, window: u32, maxPacket: u32): Srv {
    if !session || s.chan.Some? || maxPacket < MIN_REMOTE_MAX_PACKET then Send(s, OpenFailure)
    else
      Send(s.(chan := Some(SetRemote(Fresh(), window, maxPacket)), programStarted := false),
           Conn(Confirm(DEFAULT_WINDOW, MAX_PACKET)))
  }

  /** One program per channel: a second request is refused. */
  function OnProgram(s: Srv, program: Program, wantReply: bool): Srv {
    if s.programStarted then (if wantReply then Send(s, Failure) else s)
    else Note(s.(pendingReply := wantReply, programStarted := true), ProgramAsked(program))
  }

  /** Environment variables are granted and ignored; a terminal needs an open channel and the
      policy's leave; a resize needs a terminal. */
  predicate Granted(p: Policy, s: Srv, ask: Ask) {
    match ask
    case Env => true
    case Terminal(_, _, _, _, _, _) => p.allowPty && s.chan.Some?
    case Resize(_, _, _, _) => s.chan.Some? && s.chan.value.pty.Some?
    case Unknown => false
  }

  function Apply(s: Srv, ask: Ask): Srv {
    if s.chan.None? then s
    else
      match ask
      case Terminal(term, cols, rows, widthPx, heightPx, modes) =>
        s.(chan := Some(s.chan.value.(pty := Some(Pty(term, Cells(cols), Cells(rows), widthPx, heightPx, modes)))))
      case Resize(cols, rows, widthPx, heightPx) =>
        Note(s.(chan := Some(Resized(s.chan.value, Cells(cols), Cells(rows), widthPx, heightPx))), WindowChange(Cells(cols), Cells(rows)))
      case _ => s
  }

  function OnOtherRequest(p: Policy, s: Srv, ask: Ask, wantReply: bool): Srv {
    var granted := Granted(p, s, ask);
    var t := if granted then Apply(s, ask) else s;
    if !wantReply then t else Send(t, if granted then Success else Failure)
  }

  /** The driver's answer to a program request. */
  function Answer(s: Srv, accept: bool): Srv {
    if !s.pendingReply then s else Send(s.(pendingReply := false), if accept then Success else Failure)
  }

  function OnData(s: Srv, bytes: seq<byte>): Srv {
    if s.chan.Some? && ConsumeIncoming(s.chan.value, |bytes|).None? then Disconnect(s)
    else
      Note(if s.chan.Some? then s.(chan := ConsumeIncoming(s.chan.value, |bytes|)) else s, DataIn(bytes))
  }

  function FlushChannel(p: Policy, s: Srv): Srv
    requires Usable(s)
  {
    if s.chan.None? then s
    else
      var (ms, d) := ServerFlush(s.chan.value, p.cap);
      SendAll(s.(chan := Some(d)), ms)
  }

  function OnAdjust(p: Policy, s: Srv, n: u32): Srv
    requires Usable(s)
  {
    if s.chan.None? then s else FlushChannel(p, s.(chan := Some(AddRemoteWindow(s.chan.value, n))))
  }

  function OnClose(s: Srv): Srv {
    var t := if s.chan.Some? && !s.chan.value.sentClose then Send(s, Conn(Close)) else s;
    Note(t.(chan := None, programStarted := false), Closed)
  }

  function Connection(p: Policy, s: Srv, packet: Packet): Result<Srv>
    requires Usable(s)
  {
    match packet
    case ChannelOpen(session, window, maxPacket) => Ok(OnOpen(s, session, window, maxPacket))
    case ProgramRequest(program, wantReply) => Ok(OnProgram(s, program, wantReply))
    case OtherRequest(ask, wantReply) => Ok(OnOtherRequest(p, s, ask, wantReply))
    case ChannelData(bytes) => Ok(OnData(s, bytes))
    case WindowAdjust(n) => Ok(OnAdjust(p, s, n))
    case ChannelEof => Ok(Note(s, EofIn))
    case ChannelClose => Ok(OnClose(s))
    case BrokenChannel => Err(Encoding)
    case _ => Ok(s)
  }

  /** One packet of the peer, before or after authentication. */
  function OnPacket(p: Policy, s: Srv, packet: Packet): Result<Srv>
    requires Usable(s)
  {
    if s.authenticated.Some? then Connection(p, s, packet) else PreAuth(p, s, packet)
  }

  // --- the driver's calls -------------------------------------------------------------------------

  datatype Call =
    | Stdout(data: seq<byte>)
    | Stderr(data: seq<byte>)
    | Exited(status: u32)
    | Consumes(len: u32)
    | Accepts
    | Rejects
    | TakesFlushed
    | Receives(packet: Packet)

  function Output(p: Policy, s: Srv, ext: bool, data: seq<byte>): Srv
    requires Usable(s)
  {
    if s.chan.None? then s
    else
      EnqueueAppends(s.chan.value, ext, data);
      FlushChannel(p, s.(chan := Some(Enqueue(s.chan.value, ext, data))))
  }

  function OnExit(p: Policy, s: Srv, status: u32): Srv
    requires Usable(s)
  {
    if s.chan.None? then s
    else FlushChannel(p, s.(chan := Some(s.chan.value.(exitStatus := Some(status), wantClose := true))))
  }

  function OnConsumed(s: Srv, len: u32): Srv
    requires Usable(s)
  {
    if s.chan.None? then s
    else
      var (ms, d) := Consumed(s.chan.value, len);
      SendAll(s.(chan := Some(d)), ms)
  }

  function OnTake(s: Srv): Srv {
    if s.chan.None? then s else s.(chan := Some(s.chan.value.(flushedOut := 0)))
  }

  function Do(p: Policy, s: Srv, c: Call): Result<Srv>
    requires Usable(s)
  {
    match c
    case Stdout(data) => Ok(Output(p, s, false, data))
    case Stderr(data) => Ok(Output(p, s, true, data))
    case Exited(status) => Ok(OnExit(p, s, status))
    case Consumes(len) => Ok(OnConsumed(s, len))
    case Accepts => Ok(Answer(s, true))
    case Rejects => Ok(Answer(s, false))
    case TakesFlushed => Ok(OnTake(s))
    case Receives(packet) => OnPacket(p, s, packet)
  }
}
