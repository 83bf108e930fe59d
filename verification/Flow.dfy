/** Flow control on one channel, seen from both ends: the client and the server halves of a
    session channel joined by two message streams. Either application may write, consume or
    close at any time; each stream delivers its messages in order. */
module Flow {
  import opened Bytes
  import opened Channels

  // --- what each side does with its channel ------------------------------------------------

  /** Drain what the window allows; once all is out and a close was asked for, finish with
      exit status, EOF and CLOSE. */
  function ServerFlush(c: Chan, cap: Option<u32>): (seq<Msg>, Chan)
    requires Unsent(c.out)
  {
    var (ms, d) := Drain(c, cap);
    if d.out == [] && d.wantClose && !d.sentClose
    then (ms + [ExitStatus(if d.exitStatus.Some? then d.exitStatus.value else 0), Eof, Close],
          d.(sentEof := true, sentClose := true))
    else (ms, d)
  }

  /** Drain what the window allows; once all is out, the EOF that was asked for. */
  function ClientFlush(c: Chan, cap: Option<u32>): (seq<Msg>, Chan)
    requires Unsent(c.out)
  {
    var (ms, d) := Drain(c, cap);
    if d.out == [] && d.wantEof && !d.sentEof then (ms + [Eof], d.(sentEof := true)) else (ms, d)
  }

  function Grant(g: Option<u32>): seq<Msg> {
    if g.Some? then [Adjust(g.value)] else []
  }

  /** `channel_consumed`: the server's application has read `len` bytes. */
  function Consumed(c: Chan, len: u32): (seq<Msg>, Chan)
    requires c.localWindow <= DEFAULT_WINDOW
  {
    var (g, d) := AckIncoming(c, len);
    (Grant(g), d)
  }

  /** `replenish_window`: the client accounts for data and acknowledges it at once; nothing
      when the data overran the window. */
  function Replenish(c: Chan, len: nat): Option<(seq<Msg>, Chan)>
    requires c.localWindow <= DEFAULT_WINDOW
  {
    match ConsumeIncoming(c, len)
    case None => None
    case Some(d) => Some(Consumed(d, len))
  }

  // --- the two ends --------------------------------------------------------------------------

  /** `client` and `server` are the channel at each end while it exists; `up` and `down` are
      the messages under way; `overrun` tells that a receiver saw its window exceeded. */
  datatype Net = Net(
    client: Option<Chan>,
    server: Option<Chan>,
    up: seq<Msg>,
    down: seq<Msg>,
    asked: bool,
    accepted: bool,
    overrun: bool)

  datatype Move =
    | ClientOpens
    | ClientWrites(data: seq<byte>)
    | ClientEnds
    | ClientDrops
    | ServerWrites(ext: bool, data: seq<byte>)
    | ServerExits(status: u32)
    | ServerConsumes(len: u32)
    | ClientReads
    | ServerReads

  function ClientSends(n: Net, c: Chan, cap: Option<u32>): Net
    requires Unsent(c.out)
  {
    var (ms, d) := ClientFlush(c, cap);
    n.(client := Some(d), up := n.up + ms)
  }

  function ServerSends(n: Net, c: Chan, cap: Option<u32>): Net
    requires Unsent(c.out)
  {
    var (ms, d) := ServerFlush(c, cap);
    n.(server := Some(d), down := n.down + ms)
  }

  ghost predicate Sound(c: Option<Chan>) {
    c.Some? ==> Unsent(c.value.out) && Windowed(c.value)
  }

  /** The server handles a message. */
  function ServerTakes(n: Net, m: Msg, cap: Option<u32>): Net
    requires Sound(n.server)
  {
    match m
    case Open(window, maxPacket) =>
      if n.server.Some? || maxPacket < MIN_REMOTE_MAX_PACKET then n
      else n.(server := Some(SetRemote(Fresh(), window, maxPacket)), accepted := true,
              down := n.down + [Confirm(DEFAULT_WINDOW, MAX_PACKET)])
    case Data(_, bytes) =>
      if n.server.None? then n
      else
        var c := ConsumeIncoming(n.server.value, |bytes|);
        if c.None? then n.(overrun := true) else n.(server := c)
    case Adjust(k) => if n.server.None? then n else ServerSends(n, AddRemoteWindow(n.server.value, k), cap)
    case Close =>
      n.(server := None, down := n.down + if n.server.Some? && !n.server.value.sentClose then [Close] else [])
    case _ => n
  }

  /** The client handles a message. */
  function ClientTakes(n: Net, m: Msg, cap: Option<u32>): Net
    requires Sound(n.client)
  {
    match m
    case Confirm(window, maxPacket) =>
      if n.client.None? then n else ClientSends(n, SetRemote(n.client.value, window, maxPacket), cap)
    case Data(_, bytes) =>
      if n.client.None? then n
      else
        var r := Replenish(n.client.value, |bytes|);
        if r.None? then n.(overrun := true) else n.(client := Some(r.value.1), up := n.up + r.value.0)
    case Adjust(k) => if n.client.None? then n else ClientSends(n, AddRemoteWindow(n.client.value, k), cap)
    case Close =>
      n.(client := None, up := n.up + if n.client.Some? && !n.client.value.sentClose then [Close] else [])
    case _ => n
  }

  /** One move; `cap` is the chunk cap in force. Writes and closes on a channel that is gone do
      nothing. */
  function Step(n: Net, m: Move, cap: Option<u32>): Net
    requires Sound(n.client) && Sound(n.server)
  {
    match m
    case ClientOpens =>
      if n.asked then n
      else n.(asked := true, client := Some(Fresh()), up := n.up + [Open(DEFAULT_WINDOW, MAX_PACKET)])
    case ClientWrites(data) =>
      if n.client.None? then n
      else
        EnqueueAppends(n.client.value, false, data);
        ClientSends(n, Enqueue(n.client.value, false, data), cap)
    case ClientEnds => if n.client.None? then n else ClientSends(n, n.client.value.(wantEof := true), cap)
    case ClientDrops =>
      if n.client.None? then n
      else n.(client := None, up := n.up + if !n.client.value.sentClose then [Close] else [])
    case ServerWrites(ext, data) =>
      if n.server.None? then n
      else
        EnqueueAppends(n.server.value, ext, data);
        ServerSends(n, Enqueue(n.server.value, ext, data), cap)
    case ServerExits(status) =>
      if n.server.None? then n else ServerSends(n, n.server.value.(exitStatus := Some(status), wantClose := true), cap)
    case ServerConsumes(len) =>
      if n.server.None? then n
      else
        var (ms, c) := Consumed(n.server.value, len);
        n.(server := Some(c), down := n.down + ms)
    case ClientReads => if n.down == [] then n else ClientTakes(n.(down := n.down[1..]), n.down[0], cap)
    case ServerReads => if n.up == [] then n else ServerTakes(n.(up := n.up[1..]), n.up[0], cap)
  }

  // --- conservation ----------------------------------------------------------------------------

  /** Window a message uses up, and window it gives. */
  function Uses(m: Msg): nat { if m.Data? then |m.bytes| else 0 }

  function Gives(m: Msg): nat {
    match m
    case Adjust(n) => n
    case Open(w, _) => w
    case Confirm(w, _) => w
    case _ => 0
  }

  function Used(ms: seq<Msg>): nat {
    if ms == [] then 0 else Uses(ms[0]) + Used(ms[1..])
  }

  function Given(ms: seq<Msg>): nat {
    if ms == [] then 0 else Gives(ms[0]) + Given(ms[1..])
  }

  lemma {:induction false} SumsAppend(a: seq<Msg>, b: seq<Msg>)
    ensures Used(a + b) == Used(a) + Used(b) && Given(a + b) == Given(a) + Given(b)
  {
    if a == [] {
      assert a + b == b;
    } else {
      assert (a + b)[1..] == a[1..] + b;
      SumsAppend(a[1..], b);
    }
  }

  lemma {:induction false} UsedIsCarried(ms: seq<Msg>)
    ensures Used(ms) == |Carried(ms)|
  {
    if ms != [] {
      UsedIsCarried(ms[1..]);
    }
  }

  /** One direction: the receiver's window is what the sender may still send, plus the data
      under way, plus the grants under way back. */
  predicate Conserved(receiver: Chan, sender: Chan, data: seq<Msg>, grants: seq<Msg>) {
    receiver.localWindow == sender.remoteWindow + Used(data) + Given(grants)
  }

  /** A sender has drained: nothing waits while there is window, once the peer is known. */
  predicate Drained(c: Chan) {
    c.remoteMaxPacket > 0 ==> c.out == [] || c.remoteWindow == 0
  }

  /** Neither the opening nor the confirmation of a channel. */
  predicate Ordinary(ms: seq<Msg>) {
    forall i :: 0 <= i < |ms| ==> !ms[i].Open? && !ms[i].Confirm?
  }

  /** What a flush does to the windows: it pays for its data and touches nothing else. */
  ghost predicate Paid(c: Chan, ms: seq<Msg>, d: Chan) {
    && d.remoteWindow + Used(ms) == c.remoteWindow && Given(ms) == 0 && Ordinary(ms)
    && Drained(d) && Unsent(d.out)
    && d.localWindow == c.localWindow && d.unacked == c.unacked && d.remoteMaxPacket == c.remoteMaxPacket
  }

  lemma {:induction false} DataGivesNothing(ms: seq<Msg>)
    requires forall i :: 0 <= i < |ms| ==> ms[i].Data?
    ensures Given(ms) == 0
  {
    if ms != [] {
      DataGivesNothing(ms[1..]);
    }
  }

  lemma DrainPays(c: Chan, cap: Option<u32>)
    requires Unsent(c.out)
    ensures var (ms, d) := Drain(c, cap); Paid(c, ms, d) && d.wantEof == c.wantEof && d.wantClose == c.wantClose
  {
    hide Used, Drain, Carried, Pending, Given;
    DrainRefinesQueue(c, cap);
    var ms := Drain(c, cap).0;
    UsedIsCarried(ms);
    DataGivesNothing(ms);
  }

  lemma PaidAlso(c: Chan, ms: seq<Msg>, d: Chan, extra: seq<Msg>, e: Chan)
    requires Paid(c, ms, d) && Used(extra) == 0 && Given(extra) == 0 && Ordinary(extra)
    requires e.remoteWindow == d.remoteWindow && e.out == d.out && e.localWindow == d.localWindow && e.unacked == d.unacked
    requires e.remoteMaxPacket == d.remoteMaxPacket
    ensures Paid(c, ms + extra, e)
  {
    hide Used, Given, Unsent;
    SumsAppend(ms, extra);
  }

  lemma FlushPays(c: Chan, cap: Option<u32>)
    requires Unsent(c.out)
    ensures var (ms, d) := ServerFlush(c, cap); Paid(c, ms, d)
    ensures var (ms, d) := ClientFlush(c, cap); Paid(c, ms, d)
  {
    hide Drain, Paid, Unsent;
    DrainPays(c, cap);
    var (ms, d) := Drain(c, cap);
    var status := if d.exitStatus.Some? then d.exitStatus.value else 0;
    ClosingIsFree(status);
    PaidAlso(c, ms, d, [ExitStatus(status), Eof, Close], d.(sentEof := true, sentClose := true));
    PaidAlso(c, ms, d, [Eof], d.(sentEof := true));
  }

  lemma ClosingIsFree(status: u32)
    ensures Used([ExitStatus(status), Eof, Close]) == 0 && Given([ExitStatus(status), Eof, Close]) == 0
    ensures Used([Eof]) == 0 && Given([Eof]) == 0 && Used([Close]) == 0 && Given([Close]) == 0
    ensures Ordinary([ExitStatus(status), Eof, Close]) && Ordinary([Eof]) && Ordinary([Close])
  {
    assert [ExitStatus(status), Eof, Close][1..] == [Eof, Close] && [Eof, Close][1..] == [Close];
    var none: seq<Msg> := [];
    assert [Eof][1..] == none && [Close][1..] == none;
  }

  // --- the invariant -----------------------------------------------------------------------------

  /** How far the opening has got: not asked for, the OPEN under way, the confirmation under
      way, or both known. Until the client knows the server it has no window to use. */
  predicate Stage(n: Net) {
    && (n.client.Some? ==> n.asked) && (n.server.Some? ==> n.accepted && n.server.value.remoteMaxPacket > 0)
    && if !n.asked then !n.accepted && n.up == [] && n.down == []
       else if !n.accepted then
         && n.down == [] && n.up != [] && n.up[0] == Open(DEFAULT_WINDOW, MAX_PACKET)
         && Ordinary(n.up[1..]) && Used(n.up[1..]) == 0 && Given(n.up[1..]) == 0
         && (n.client.Some? ==> Unknown(n.client.value) && n.client.value.localWindow == DEFAULT_WINDOW)
       else
         && Ordinary(n.up)
         && if n.down != [] && n.down[0].Confirm? then
              n.down[0] == Confirm(DEFAULT_WINDOW, MAX_PACKET) && Ordinary(n.down[1..]) && (n.client.Some? ==> Unknown(n.client.value))
            else Ordinary(n.down) && (n.client.Some? ==> n.client.value.remoteMaxPacket > 0)
  }

  predicate Unknown(c: Chan) { c.remoteMaxPacket == 0 && c.remoteWindow == 0 }

  /** Both windows are conserved while both ends are open; once one end is gone, what is still
      under way to the other fits its window. */
  predicate Windows(n: Net) {
    n.accepted ==>
      (match (n.client, n.server)
       case (Some(c), Some(s)) => Conserved(s, c, n.up, n.down) && Conserved(c, s, n.down, n.up)
       case (None, Some(s)) => Used(n.up) <= s.localWindow
       case (Some(c), None) => Used(n.down) <= c.localWindow
       case _ => true)
  }

  /** The client acknowledges what it receives at once. */
  predicate Prompt(c: Chan) { c.localWindow + c.unacked == DEFAULT_WINDOW }

  /** All of it but the draining. */
  ghost predicate Fair(n: Net) {
    && !n.overrun && Sound(n.client) && Sound(n.server)
    && (n.client.Some? ==> Prompt(n.client.value))
    && Stage(n) && Windows(n)
  }

  ghost predicate Balanced(n: Net) {
    && Fair(n)
    && (n.client.Some? ==> Drained(n.client.value))
    && (n.server.Some? ==> Drained(n.server.value))
  }

  // --- every move keeps it -------------------------------------------------------------------------

  /** The client's channel changes without touching its windows, and is flushed. */
  lemma ClientSendsBalanced(n: Net, c: Chan, cap: Option<u32>)
    requires Fair(n) && (n.server.Some? ==> Drained(n.server.value)) && n.client.Some? && Unsent(c.out)
    requires c == n.client.value.(out := c.out, wantEof := c.wantEof)
    ensures Balanced(ClientSends(n, c, cap))
  {
    hide Used, Given, ClientFlush, Unsent;
    FlushPays(c, cap);
    var (ms, d) := ClientFlush(c, cap);
    SumsAppend(n.up, ms);
    if n.asked && !n.accepted {
      assert (n.up + ms)[1..] == n.up[1..] + ms;
      SumsAppend(n.up[1..], ms);
    }
  }

  lemma ServerSendsBalanced(n: Net, c: Chan, cap: Option<u32>)
    requires Fair(n) && (n.client.Some? ==> Drained(n.client.value)) && n.server.Some? && Unsent(c.out)
    requires c == n.server.value.(out := c.out, exitStatus := c.exitStatus, wantClose := c.wantClose)
    ensures Balanced(ServerSends(n, c, cap))
  {
    hide Used, Given, ServerFlush, Unsent;
    FlushPays(c, cap);
    var (ms, d) := ServerFlush(c, cap);
    SumsAppend(n.down, ms);
    if n.down != [] {
      assert (n.down + ms)[1..] == n.down[1..] + ms;
    }
  }

  lemma HeadCounts(ms: seq<Msg>)
    requires ms != []
    ensures Used(ms) == Uses(ms[0]) + Used(ms[1..]) && Given(ms) == Gives(ms[0]) + Given(ms[1..])
    ensures Ordinary(ms) ==> Ordinary(ms[1..])
  {
  }

  lemma OneCounts(ms: seq<Msg>, m: Msg)
    ensures Used(ms + [m]) == Used(ms) + Uses(m) && Given(ms + [m]) == Given(ms) + Gives(m)
    ensures Ordinary(ms) && !m.Open? && !m.Confirm? ==> Ordinary(ms + [m])
    ensures ms != [] ==> (ms + [m])[1..] == ms[1..] + [m]
  {
    SumsAppend(ms, [m]);
    var none: seq<Msg> := [];
    assert [m][1..] == none;
  }

  /** Messages that carry no window can be read without effect on the balance. */
  lemma SkipUp(n: Net)
    requires Balanced(n) && n.up != [] && Uses(n.up[0]) == 0 && Gives(n.up[0]) == 0
    ensures Balanced(n.(up := n.up[1..]))
  {
    hide Unsent, Used, Given;
    HeadCounts(n.up);
  }

  lemma SkipDown(n: Net)
    requires Balanced(n) && n.down != [] && Uses(n.down[0]) == 0 && Gives(n.down[0]) == 0
    ensures Balanced(n.(down := n.down[1..]))
  {
    hide Unsent, Used, Given;
    HeadCounts(n.down);
  }

  lemma AcceptBalanced(n: Net, cap: Option<u32>)
    requires Balanced(n) && n.up != [] && n.up[0].Open?
    ensures Balanced(ServerTakes(n.(up := n.up[1..]), n.up[0], cap))
  {
    hide Used, Given;
    var none: seq<Msg> := [];
    OneCounts(none, Confirm(DEFAULT_WINDOW, MAX_PACKET));
    assert none + [Confirm(DEFAULT_WINDOW, MAX_PACKET)] == [Confirm(DEFAULT_WINDOW, MAX_PACKET)];
    assert Used(none) == 0 && Given(none) == 0 by { NothingCounts(); }
  }

  lemma NothingCounts()
    ensures Used([]) == 0 && Given([]) == 0
  {
  }

  lemma ServerDataBalanced(n: Net, cap: Option<u32>)
    requires Balanced(n) && n.up != [] && n.up[0].Data?
    ensures Balanced(ServerTakes(n.(up := n.up[1..]), n.up[0], cap))
  {
    hide Used, Given, Unsent;
    HeadCounts(n.up);
  }

  lemma ServerAdjustBalanced(n: Net, cap: Option<u32>)
    requires Balanced(n) && n.up != [] && n.up[0].Adjust?
    ensures Balanced(ServerTakes(n.(up := n.up[1..]), n.up[0], cap))
  {
    hide Used, Given, Unsent, ServerSends;
    HeadCounts(n.up);
    if n.server.Some? {
      var c := AddRemoteWindow(n.server.value, n.up[0].n);
      ServerSendsBalanced(n.(up := n.up[1..], server := Some(c)), c, cap);
      assert ServerSends(n.(up := n.up[1..], server := Some(c)), c, cap) == ServerSends(n.(up := n.up[1..]), c, cap) by {
        ServerSendsSame(n.(up := n.up[1..], server := Some(c)), n.(up := n.up[1..]), c, cap);
      }
    }
  }

  lemma ServerSendsSame(m: Net, n: Net, c: Chan, cap: Option<u32>)
    requires Unsent(c.out) && m == n.(server := m.server)
    ensures ServerSends(m, c, cap) == ServerSends(n, c, cap)
  {
  }

  lemma ClientSendsSame(m: Net, n: Net, c: Chan, cap: Option<u32>)
    requires Unsent(c.out) && m == n.(client := m.client)
    ensures ClientSends(m, c, cap) == ClientSends(n, c, cap)
  {
  }

  lemma ServerCloseBalanced(n: Net, cap: Option<u32>)
    requires Balanced(n) && n.up != [] && n.up[0].Close?
    ensures Balanced(ServerTakes(n.(up := n.up[1..]), n.up[0], cap))
  {
    hide Used, Given, Unsent;
    HeadCounts(n.up);
    OneCounts(n.down, Close);
    assert n.down + [] == n.down;
  }

  lemma ClientConfirmBalanced(n: Net, cap: Option<u32>)
    requires Balanced(n) && n.down != [] && n.down[0].Confirm?
    ensures Balanced(ClientTakes(n.(down := n.down[1..]), n.down[0], cap))
  {
    hide Used, Given, Unsent, ClientSends;
    HeadCounts(n.down);
    if n.client.Some? {
      var c := SetRemote(n.client.value, DEFAULT_WINDOW, MAX_PACKET);
      ClientSendsBalanced(n.(down := n.down[1..], client := Some(c)), c, cap);
      ClientSendsSame(n.(down := n.down[1..], client := Some(c)), n.(down := n.down[1..]), c, cap);
    }
  }

  lemma ClientAdjustBalanced(n: Net, cap: Option<u32>)
    requires Balanced(n) && n.down != [] && n.down[0].Adjust?
    ensures Balanced(ClientTakes(n.(down := n.down[1..]), n.down[0], cap))
  {
    hide Used, Given, Unsent, ClientSends;
    HeadCounts(n.down);
    if n.client.Some? {
      var c := AddRemoteWindow(n.client.value, n.down[0].n);
      ClientSendsBalanced(n.(down := n.down[1..], client := Some(c)), c, cap);
      ClientSendsSame(n.(down := n.down[1..], client := Some(c)), n.(down := n.down[1..]), c, cap);
    }
  }

  lemma ClientDataBalanced(n: Net, cap: Option<u32>)
    requires Balanced(n) && n.down != [] && n.down[0].Data?
    ensures Balanced(ClientTakes(n.(down := n.down[1..]), n.down[0], cap))
  {
    hide Used, Given, Unsent, AckIncoming;
    HeadCounts(n.down);
    if n.client.Some? {
      var c, len := n.client.value, |n.down[0].bytes|;
      assert len <= c.localWindow;
      var d := ConsumeIncoming(c, len).value;
      AckKeepsWindow(d, len);
      AckExact(d, len);
      AckTouches(d, len);
      var (g, e) := AckIncoming(d, len);
      if g.Some? {
        OneCounts(n.up, Adjust(g.value));
      }
      assert n.up + [] == n.up;
    }
  }

  lemma ClientCloseBalanced(n: Net, cap: Option<u32>)
    requires Balanced(n) && n.down != [] && n.down[0].Close?
    ensures Balanced(ClientTakes(n.(down := n.down[1..]), n.down[0], cap))
  {
    hide Used, Given, Unsent;
    HeadCounts(n.down);
    OneCounts(n.up, Close);
    assert n.up + [] == n.up;
  }

  lemma ConsumesBalanced(n: Net, len: u32, cap: Option<u32>)
    requires Balanced(n)
    ensures Balanced(Step(n, ServerConsumes(len), cap))
  {
    hide Used, Given, Unsent, AckIncoming;
    if n.server.Some? {
      var c := n.server.value;
      AckKeepsWindow(c, len);
      AckTouches(c, len);
      var (g, d) := AckIncoming(c, len);
      if g.Some? {
        OneCounts(n.down, Adjust(g.value));
      }
      assert n.down + [] == n.down;
    }
  }

  lemma ClientOpensBalanced(n: Net, cap: Option<u32>)
    requires Balanced(n)
    ensures Balanced(Step(n, ClientOpens, cap))
  {
    hide Used, Given;
    NothingCounts();
    if !n.asked {
      var none: seq<Msg> := [];
      assert n.up + [Open(DEFAULT_WINDOW, MAX_PACKET)] == [Open(DEFAULT_WINDOW, MAX_PACKET)];
      assert [Open(DEFAULT_WINDOW, MAX_PACKET)][1..] == none;
    }
  }

  lemma ClientDropsBalanced(n: Net, cap: Option<u32>)
    requires Balanced(n)
    ensures Balanced(Step(n, ClientDrops, cap))
  {
    hide Used, Given, Unsent;
    OneCounts(n.up, Close);
    assert n.up + [] == n.up;
    if n.up != [] {
      OneCounts(n.up[1..], Close);
    }
  }

  lemma StepBalanced(n: Net, m: Move, cap: Option<u32>)
    requires Balanced(n)
    ensures Balanced(Step(n, m, cap))
  {
    hide ClientSends, ServerSends, Used, Given, Windows, Stage, Unsent;
    match m
    case ClientOpens => ClientOpensBalanced(n, cap);
    case ClientDrops => ClientDropsBalanced(n, cap);
    case ClientWrites(data) =>
      if n.client.Some? {
        EnqueueAppends(n.client.value, false, data);
        ClientSendsBalanced(n, Enqueue(n.client.value, false, data), cap);
      }
    case ClientEnds =>
      if n.client.Some? {
        ClientSendsBalanced(n, n.client.value.(wantEof := true), cap);
      }
    case ServerWrites(ext, data) =>
      if n.server.Some? {
        EnqueueAppends(n.server.value, ext, data);
        ServerSendsBalanced(n, Enqueue(n.server.value, ext, data), cap);
      }
    case ServerExits(status) =>
      if n.server.Some? {
        ServerSendsBalanced(n, n.server.value.(exitStatus := Some(status), wantClose := true), cap);
      }
    case ServerConsumes(len) => ConsumesBalanced(n, len, cap);
    case ClientReads => ClientReadsBalanced(n, cap);
    case ServerReads => ServerReadsBalanced(n, cap);
  }

  lemma ClientReadsBalanced(n: Net, cap: Option<u32>)
    requires Balanced(n)
    ensures Balanced(Step(n, ClientReads, cap))
  {
    hide ClientSends, Used, Given, Windows, Stage, Unsent;
    if n.down != [] {
      match n.down[0]
      case Confirm(_, _) => ClientConfirmBalanced(n, cap);
      case Data(_, _) => ClientDataBalanced(n, cap);
      case Adjust(_) => ClientAdjustBalanced(n, cap);
      case Close => ClientCloseBalanced(n, cap);
      case Open(_, _) => NoOpenDown(n);
      case _ => SkipDown(n);
    }
  }

  lemma NoOpenDown(n: Net)
    requires Balanced(n) && n.down != []
    ensures !n.down[0].Open?
  {
    hide Used, Given, Windows, Unsent;
  }

  lemma NoConfirmUp(n: Net)
    requires Balanced(n) && n.up != []
    ensures !n.up[0].Confirm?
  {
    hide Used, Given, Windows, Unsent;
  }

  lemma ServerReadsBalanced(n: Net, cap: Option<u32>)
    requires Balanced(n)
    ensures Balanced(Step(n, ServerReads, cap))
  {
    hide ServerSends, Used, Given, Windows, Stage, Unsent;
    if n.up != [] {
      match n.up[0]
      case Open(_, _) => AcceptBalanced(n, cap);
      case Data(_, _) => ServerDataBalanced(n, cap);
      case Adjust(_) => ServerAdjustBalanced(n, cap);
      case Close => ServerCloseBalanced(n, cap);
      case Confirm(_, _) => NoConfirmUp(n);
      case _ => SkipUp(n);
    }
  }

  // --- the results ---------------------------------------------------------------------------------

  function Start(): Net { Net(None, None, [], [], false, false, false) }

  /** Moves with the chunk cap in force at each. */
  function Run(n: Net, moves: seq<(Move, Option<u32>)>): Net
    requires Balanced(n)
    decreases |moves|
  {
    if moves == [] then n
    else
      StepBalanced(n, moves[0].0, moves[0].1);
      Run(Step(n, moves[0].0, moves[0].1), moves[1..])
  }

  lemma StartBalanced()
    ensures Balanced(Start())
  {
  }

  lemma {:induction false} RunBalanced(n: Net, moves: seq<(Move, Option<u32>)>)
    requires Balanced(n)
    ensures Balanced(Run(n, moves))
    decreases |moves|
  {
    hide Step, Windows, Stage, Unsent, Windowed, Used, Given;
    if moves != [] {
      StepBalanced(n, moves[0].0, moves[0].1);
      RunBalanced(Step(n, moves[0].0, moves[0].1), moves[1..]);
    }
  }

  function Reached(moves: seq<(Move, Option<u32>)>): (n: Net)
    ensures Balanced(n)
  {
    StartBalanced();
    RunBalanced(Start(), moves);
    Run(Start(), moves)
  }

  /** On one channel between this client and this server, in every interleaving and with any
      chunk caps: a receiver's window is always what its sender may still send plus the data
      and the grants under way, so neither side ever sees its window exceeded; and no window
      passes its initial size. */
  lemma WindowsConserved(moves: seq<(Move, Option<u32>)>)
    ensures var n := Reached(moves);
            && !n.overrun
            && (n.client.Some? && n.server.Some? ==>
                  && n.server.value.localWindow == n.client.value.remoteWindow + Used(n.up) + Given(n.down)
                  && n.client.value.localWindow == n.server.value.remoteWindow + Used(n.down) + Given(n.up))
            && (n.server.Some? ==> n.server.value.localWindow + n.server.value.unacked <= DEFAULT_WINDOW)
            && (n.client.Some? ==> n.client.value.localWindow + n.client.value.unacked == DEFAULT_WINDOW)
  {
    hide Reached, Used, Given, Unsent;
    var n := Reached(moves);
    if n.client.Some? && n.server.Some? {
      BothConserved(n);
    }
  }

  lemma BothConserved(n: Net)
    requires Balanced(n) && n.client.Some? && n.server.Some?
    ensures n.server.value.localWindow == n.client.value.remoteWindow + Used(n.up) + Given(n.down)
    ensures n.client.value.localWindow == n.server.value.remoteWindow + Used(n.down) + Given(n.up)
  {
    hide Used, Given, Unsent;
  }

  /** No deadlock. With nothing under way the server's output is all sent; and the client's
      stdin waits only for the server's application, which then has more than half a window
      to read and whose next acknowledgement grants window. With everything acknowledged,
      nothing waits at all. */
  lemma NothingStuck(moves: seq<(Move, Option<u32>)>, len: u32)
    requires var n := Reached(moves);
             n.client.Some? && n.server.Some? && n.up == [] && n.down == []
    ensures var n := Reached(moves);
            var c, s := n.client.value, n.server.value;
            && s.out == []
            && (c.out != [] ==> DEFAULT_WINDOW - s.localWindow - s.unacked > DEFAULT_WINDOW / 2)
            && (c.out != [] && len > 0 ==> Consumed(s, len).0 != [])
            && (s.localWindow + s.unacked == DEFAULT_WINDOW ==> c.out == [] && s.localWindow > DEFAULT_WINDOW / 2)
  {
    hide Reached, Used, Given, Unsent;
    var n := Reached(moves);
    NothingCounts();
    BothConserved(n);
    NeverStuck(n.server.value, len);
    NeverStuck(n.client.value, len);
    assert n.client.value.remoteMaxPacket > 0 by { Known(n); }
  }

  lemma Known(n: Net)
    requires Balanced(n) && n.client.Some? && n.server.Some? && n.down == []
    ensures n.client.value.remoteMaxPacket > 0 && n.server.value.remoteMaxPacket > 0
  {
    hide Used, Given, Unsent;
  }
}
