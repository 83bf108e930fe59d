/** The ordering and flow-control results speak about a channel alone; the server's own calls
    act on its channel in exactly that way. */
module ServerChannel {
  import opened Bytes
  import opened Channels
  import opened Flow
  import opened Server
  import opened Closing

  /** The connection messages among what was handed to the transport. */
  function Conns(sent: seq<Reply>): seq<Msg> {
    if sent == [] then []
    else Conns(sent[..|sent| - 1]) + (if sent[|sent| - 1].Conn? then [sent[|sent| - 1].msg] else [])
  }

  lemma {:induction false} SendAllConns(s: Srv, ms: seq<Msg>)
    requires !s.closing
    ensures Conns(SendAll(s, ms).sent) == Conns(s.sent) + ms
    ensures SendAll(s, ms) == s.(sent := SendAll(s, ms).sent)
    decreases |ms|
  {
    if ms == [] {
      assert Conns(s.sent) + [] == Conns(s.sent);
    } else {
      var t := Send(s, Conn(ms[0]));
      assert t.sent[..|t.sent| - 1] == s.sent;
      SendAllConns(t, ms[1..]);
      assert ms == [ms[0]] + ms[1..];
    }
  }

  lemma ConnsSnoc(sent: seq<Reply>, m: Msg)
    ensures Conns(sent + [Conn(m)]) == Conns(sent) + [m]
  {
    assert (sent + [Conn(m)])[..|sent|] == sent;
  }

  /** The calls that act on the channel. */
  function DeedOf(c: Call): Option<Deed> {
    match c
    case Stdout(data) => Some(Write(false, data))
    case Stderr(data) => Some(Write(true, data))
    case Exited(status) => Some(Exit(status))
    case Consumes(len) => Some(Consume(len))
    case Receives(WindowAdjust(n)) => Some(PeerAdjust(n))
    case Receives(ChannelClose) => Some(PeerClose)
    case _ => None
  }

  lemma FlushSame(p: Policy, s: Srv, x: Session, c: Chan) returns (ms: seq<Msg>)
    requires !s.closing && Unsent(c.out) && c.localWindow <= DEFAULT_WINDOW
    ensures var t := FlushChannel(p, s.(chan := Some(c)));
            && t.chan == Flushed(x, c, p.cap).chan && Flushed(x, c, p.cap).sent == x.sent + ms
            && Conns(t.sent) == Conns(s.sent) + ms
  {
    hide ServerFlush, Unsent;
    var r := ServerFlush(c, p.cap);
    ms := r.0;
    SendAllConns(s.(chan := Some(r.1)), ms);
  }

  /** A handler write, on either stream, flushes what the session of the proof flushes. */
  lemma WriteSame(p: Policy, s: Srv, x: Session, ext: bool, data: seq<byte>) returns (ms: seq<Msg>)
    requires Usable(s) && !s.closing && x.chan == s.chan && s.chan.Some?
    ensures var t := Output(p, s, ext, data);
            var y := ServerDoes(x, Write(ext, data), p.cap);
            && t.chan == y.chan && y.sent == x.sent + ms && Conns(t.sent) == Conns(s.sent) + ms
  {
    hide FlushChannel, Flushed, Unsent, Enqueue, Conns, Tag;
    EnqueueAppends(s.chan.value, ext, data);
    EnqueueKeeps(s.chan.value, ext, data);
    ms := FlushSame(p, s, x.(written := x.written + Tag(ext, data)), Enqueue(s.chan.value, ext, data));
  }

  /** The peer's CLOSE, answered once. */
  lemma CloseSame(s: Srv, x: Session, cap: Option<u32>) returns (ms: seq<Msg>)
    requires Usable(s) && !s.closing && x.chan == s.chan && s.chan.Some?
    ensures var t := OnClose(s);
            var y := ServerDoes(x, PeerClose, cap);
            && t.chan == y.chan && y.sent == x.sent + ms && Conns(t.sent) == Conns(s.sent) + ms
  {
    hide Conns;
    ms := if s.chan.value.sentClose then [] else [Close];
    assert Conns(s.sent) + [] == Conns(s.sent) && x.sent + [] == x.sent;
    ConnsSnoc(s.sent, Close);
  }

  /** A call of the driver or a packet of the peer does to the channel, and sends on it, what
      the same deed does in the session whose ordering is proved. */
  lemma ServerDoesSame(p: Policy, s: Srv, c: Call, x: Session) returns (ms: seq<Msg>)
    requires Usable(s) && !s.closing && s.authenticated.Some? && x.chan == s.chan && s.chan.Some? && DeedOf(c).Some?
    ensures var t := Do(p, s, c);
            var y := ServerDoes(x, DeedOf(c).value, p.cap);
            && t.Ok? && t.value.chan == y.chan
            && y.sent == x.sent + ms && Conns(t.value.sent) == Conns(s.sent) + ms
  {
    hide Output, FlushChannel, Flushed, Unsent, AckIncoming, Enqueue, AddRemoteWindow, SendAll, Conns, Tag, OnClose;
    var ch := s.chan.value;
    match c
    case Stdout(data) => ms := WriteSame(p, s, x, false, data);
    case Stderr(data) => ms := WriteSame(p, s, x, true, data);
    case Exited(status) =>
      ms := FlushSame(p, s, x.(exits := x.exits + [status]), ch.(exitStatus := Some(status), wantClose := true));
    case Consumes(len) =>
      ms := Consumed(ch, len).0;
      SendAllConns(s.(chan := Some(Consumed(ch, len).1)), ms);
    case Receives(packet) =>
      if packet.WindowAdjust? {
        AdjustShape(ch, packet.n);
        ms := FlushSame(p, s, x, AddRemoteWindow(ch, packet.n));
      } else {
        ms := CloseSame(s, x, p.cap);
      }
  }
}
