/** The ordering results speak about a channel alone; the client's own calls act on its channel
    in exactly that way. */
module ClientChannel {
  import opened Bytes
  import opened Channels
  import opened Flow
  import opened Closing
  import opened ClientClosing
  import C = Client

  /** The channel messages among what was handed to the transport. */
  function Conns(sent: seq<C.Outgoing>): seq<Msg> {
    if sent == [] then []
    else Conns(sent[..|sent| - 1]) + (if sent[|sent| - 1].OnChannel? then [sent[|sent| - 1].msg] else [])
  }

  lemma ConnsSnoc(sent: seq<C.Outgoing>, o: C.Outgoing)
    ensures Conns(sent + [o]) == Conns(sent) + (if o.OnChannel? then [o.msg] else [])
  {
    assert (sent + [o])[..|sent|] == sent;
  }

  lemma {:induction false} ConnsChanneled(sent: seq<C.Outgoing>, ms: seq<Msg>)
    ensures Conns(sent + C.Channeled(ms)) == Conns(sent) + ms
    decreases |ms|
  {
    if ms == [] {
      assert sent + C.Channeled(ms) == sent && Conns(sent) + ms == Conns(sent);
    } else {
      var before, last := ms[..|ms| - 1], ms[|ms| - 1];
      assert sent + C.Channeled(ms) == (sent + C.Channeled(before)) + [C.OnChannel(last)];
      ConnsSnoc(sent + C.Channeled(before), C.OnChannel(last));
      ConnsChanneled(sent, before);
      assert Conns(sent) + before + [last] == Conns(sent) + ms by { assert before + [last] == ms; }
    }
  }

  /** The calls that act on the channel. */
  function DeedOf(c: C.Call): Option<Deed> {
    match c
    case Stdin(data) => Some(Write(false, data))
    case EndsStdin => Some(End)
    case Confirms(window, maxPacket) => Some(PeerConfirm(window, maxPacket))
    case Delivers(bytes, _) => Some(PeerData(|bytes|))
    case Grants(n) => Some(PeerAdjust(n))
    case Closes => Some(PeerClose)
    case _ => None
  }

  lemma FlushSame(s: C.Cli, x: Session, c: Chan, cap: Option<u32>) returns (ms: seq<Msg>)
    requires !s.closing && Unsent(c.out) && c.localWindow <= DEFAULT_WINDOW
    ensures var t, y := C.FlushChannel(s.(chan := Some(c)), cap), Sending(x, c, cap);
            t.chan == y.chan && y.sent == x.sent + ms && Conns(t.sent) == Conns(s.sent) + ms
  {
    hide ClientFlush, Unsent, Conns;
    ms := ClientFlush(c, cap).0;
    ConnsChanneled(s.sent, ms);
  }

  /** The requests that go out with the confirmation are no messages of the channel. */
  lemma AskingSame(s: C.Cli)
    requires !s.closing
    ensures var t := C.AskSession(C.AskPty(s)); !t.closing && t.chan == s.chan && Conns(t.sent) == Conns(s.sent)
  {
    hide Conns;
    if s.wantPty.Some? {
      ConnsSnoc(s.sent, C.PtyRequest(s.wantPty.value));
    }
    if s.pending.Some? {
      ConnsSnoc(C.AskPty(s).sent, C.SessionRequest(s.pending.value));
    }
  }

  lemma ReadSame(s: C.Cli, x: Session, len: u32, cap: Option<u32>) returns (ms: seq<Msg>)
    requires C.Usable(s) && !s.closing && x.chan == s.chan && s.chan.Some?
    ensures var t, y := C.ReplenishWindow(s, len), ClientDoes(x, PeerData(len), cap);
            t.chan == y.chan && y.sent == x.sent + ms && Conns(t.sent) == Conns(s.sent) + ms
  {
    hide Replenish, Unsent, Conns;
    ms := if Replenish(s.chan.value, len).Some? then Replenish(s.chan.value, len).value.0 else [];
    ConnsChanneled(s.sent, ms);
    ConnsSnoc(s.sent, C.Farewell);
    assert x.sent + [] == x.sent;
  }

  /** A call of the driver or a packet of the server does to the channel, and sends on it, what
      the same deed does in the session whose ordering is proved. */
  lemma ClientDoesSame(s: C.Cli, c: C.Call, cap: Option<u32>, x: Session) returns (ms: seq<Msg>)
    requires C.Usable(s) && C.Sized(c) && !s.closing && x.chan == s.chan && s.chan.Some? && DeedOf(c).Some?
    ensures var t, y := C.Do(s, c, cap), ClientDoes(x, DeedOf(c).value, cap);
            t.chan == y.chan && y.sent == x.sent + ms && Conns(t.sent) == Conns(s.sent) + ms
  {
    hide C.FlushChannel, C.ReplenishWindow, C.AskSession, C.AskPty, Sending, Unsent, Conns, Enqueue, AddRemoteWindow, Tag, Replenish;
    var ch := s.chan.value;
    match c
    case Stdin(data) =>
      EnqueueAppends(ch, false, data);
      EnqueueKeeps(ch, false, data);
      ms := FlushSame(s, x.(written := x.written + Tag(false, data)), Enqueue(ch, false, data), cap);
    case EndsStdin => ms := FlushSame(s, x, ch.(wantEof := true), cap);
    case Confirms(window, maxPacket) =>
      var u := C.Tell(s.(chan := Some(SetRemote(ch, window, maxPacket))), C.ChannelReady);
      AskingSame(u);
      ms := FlushSame(C.AskSession(C.AskPty(u)), x, SetRemote(ch, window, maxPacket), cap);
      assert C.AskSession(C.AskPty(u)).(chan := Some(SetRemote(ch, window, maxPacket))) == C.AskSession(C.AskPty(u));
    case Delivers(bytes, _) => ms := ReadSame(s, x, |bytes|, cap);
    case Grants(n) =>
      AdjustShape(ch, n);
      ms := FlushSame(s, x, AddRemoteWindow(ch, n), cap);
    case Closes =>
      ms := if ch.sentClose then [] else [Close];
      ConnsSnoc(s.sent, C.OnChannel(Close));
      assert x.sent + [] == x.sent && Conns(s.sent) + [] == Conns(s.sent);
  }
}
