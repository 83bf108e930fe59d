/** What the client's driver hears: every byte the server sent on the channel, once, in order and
    on its stream; and how a session begins and ends on the wire. */
module ClientStreams {
  import opened Bytes
  import opened Channels
  import opened Flow
  import Seqs
  import C = Client
  import S = Server

  /** The bytes that surfaced, each with its stream. */
  function Heard(notices: seq<C.Notice>): seq<Tagged> {
    if notices == [] then [] else Heard(notices[..|notices| - 1]) + HeardIn(notices[|notices| - 1])
  }

  function HeardIn(n: C.Notice): seq<Tagged> {
    match n
    case Stdout(bytes) => Tag(false, bytes)
    case Stderr(bytes) => Tag(true, bytes)
    case _ => []
  }

  lemma HeardSnoc(notices: seq<C.Notice>, n: C.Notice)
    ensures Heard(notices + [n]) == Heard(notices) + HeardIn(n)
  {
    assert (notices + [n])[..|notices|] == notices;
  }

  function DeliveredBy(c: C.Call): seq<Tagged> { if c.Delivers? then Tag(c.ext, c.bytes) else [] }

  lemma FlushKeepsNotices(s: C.Cli, cap: Option<u32>)
    requires C.Usable(s)
    ensures C.Usable(C.FlushChannel(s, cap)) && C.FlushChannel(s, cap).notices == s.notices
  {
    hide Drain, Unsent;
    if s.chan.Some? {
      DrainKeeps(s.chan.value, cap);
    }
  }

  lemma DrainKeeps(c: Chan, cap: Option<u32>)
    requires Unsent(c.out) && c.localWindow <= DEFAULT_WINDOW
    ensures var d := ClientFlush(c, cap).1; Unsent(d.out) && d.localWindow <= DEFAULT_WINDOW
  {
    hide Drain, Unsent, Channels.Pending, Carried, Chunked;
    DrainRefinesQueue(c, cap);
  }

  lemma FlushedHeard(s: C.Cli, c: Chan, cap: Option<u32>)
    requires Unsent(c.out) && c.localWindow <= DEFAULT_WINDOW
    ensures var t := C.FlushChannel(s.(chan := Some(c)), cap); C.Usable(t) && t.notices == s.notices
  {
    hide Unsent, C.FlushChannel;
    FlushKeepsNotices(s.(chan := Some(c)), cap);
  }

  lemma AskingKeeps(s: C.Cli)
    ensures var t := C.AskSession(C.AskPty(s)); t.chan == s.chan && t.notices == s.notices
  {
  }

  lemma ReplenishKeeps(s: C.Cli, len: u32)
    requires C.Usable(s)
    ensures var t := C.ReplenishWindow(s, len); C.Usable(t) && t.notices == s.notices
  {
    hide AckIncoming, Unsent;
    if s.chan.Some? && ConsumeIncoming(s.chan.value, len).Some? {
      var c := ConsumeIncoming(s.chan.value, len).value;
      AckTouches(c, len);
      AckWithin(c, len);
    }
  }

  /** One call: data surfaces as it is, and nothing else surfaces as data. */
  lemma CallHeard(s: C.Cli, c: C.Call, cap: Option<u32>)
    requires C.Usable(s) && C.Sized(c)
    ensures var t := C.Do(s, c, cap); C.Usable(t) && Heard(t.notices) == Heard(s.notices) + DeliveredBy(c)
  {
    hide Heard, Tag, Unsent, C.FlushChannel, C.ReplenishWindow, C.OnConfirmation, C.OnFailure, C.OnClose, C.OnSuccess, C.OnOpenFailure,
         Enqueue, AddRemoteWindow;
    assert Heard(s.notices) + [] == Heard(s.notices);
    match c
    case Stdin(data) =>
      if s.chan.Some? {
        EnqueueAppends(s.chan.value, false, data);
        EnqueueKeeps(s.chan.value, false, data);
        FlushedHeard(s, Enqueue(s.chan.value, false, data), cap);
      }
    case EndsStdin =>
      if s.chan.Some? {
        FlushedHeard(s, s.chan.value.(wantEof := true), cap);
      }
    case Confirms(window, maxPacket) => ConfirmHeard(s, window, maxPacket, cap);
    case RefusesOpen => AnswerHeard(s);
    case Delivers(bytes, ext) =>
      ReplenishKeeps(s, |bytes|);
      HeardSnoc(s.notices, if ext then C.Stderr(bytes) else C.Stdout(bytes));
    case Grants(n) =>
      if s.chan.Some? {
        AdjustShape(s.chan.value, n);
        FlushedHeard(s, AddRemoteWindow(s.chan.value, n), cap);
      }
    case Succeeds => AnswerHeard(s);
    case Fails => FailHeard(s);
    case Closes => AnswerHeard(s);
    case Opens(request) => assert Unsent([]) by { NothingUnsent(); }
    case _ =>
  }

  lemma NothingUnsent()
    ensures Unsent([])
  {
  }

  lemma ConfirmHeard(s: C.Cli, window: u32, maxPacket: u32, cap: Option<u32>)
    requires C.Usable(s)
    ensures var t := C.OnConfirmation(s, window, maxPacket, cap); C.Usable(t) && Heard(t.notices) == Heard(s.notices)
  {
    hide Heard, Unsent, C.FlushChannel, C.AskPty, C.AskSession;
    assert Heard(s.notices) + [] == Heard(s.notices);
    if s.chan.Some? {
      var u := C.Tell(s.(chan := Some(SetRemote(s.chan.value, window, maxPacket))), C.ChannelReady);
      HeardSnoc(s.notices, C.ChannelReady);
      AskingKeeps(u);
      FlushKeepsNotices(C.AskSession(C.AskPty(u)), cap);
    }
  }

  lemma AnswerHeard(s: C.Cli)
    requires C.Usable(s)
    ensures C.Usable(C.OnOpenFailure(s)) && Heard(C.OnOpenFailure(s).notices) == Heard(s.notices)
    ensures C.Usable(C.OnSuccess(s)) && Heard(C.OnSuccess(s).notices) == Heard(s.notices)
    ensures C.Usable(C.OnClose(s)) && Heard(C.OnClose(s).notices) == Heard(s.notices)
  {
    hide Heard, Unsent;
    assert Heard(s.notices) + [] == Heard(s.notices);
    HeardSnoc(s.notices, C.OpenFailed);
    HeardSnoc(s.notices, C.PtyGranted);
    HeardSnoc(s.notices, C.ChannelGone);
  }

  lemma FailHeard(s: C.Cli)
    requires C.Usable(s)
    ensures C.Usable(C.OnFailure(s)) && Heard(C.OnFailure(s).notices) == Heard(s.notices)
  {
    hide Heard, Unsent;
    assert Heard(s.notices) + [] == Heard(s.notices);
    HeardSnoc(s.notices, C.PtyRefused);
    HeardSnoc(s.notices, C.RequestFailed);
    HeardSnoc(s.notices + [C.RequestFailed], C.ChannelGone);
  }

  predicate AllSized(calls: seq<C.Call>) {
    forall i :: 0 <= i < |calls| ==> C.Sized(calls[i])
  }

  function Run(s: C.Cli, calls: seq<C.Call>, cap: Option<u32>): C.Cli
    requires C.Usable(s) && AllSized(calls)
    decreases |calls|
  {
    if calls == [] then s
    else
      CallHeard(s, calls[0], cap);
      Run(C.Do(s, calls[0], cap), calls[1..], cap)
  }

  function Delivered(calls: seq<C.Call>): seq<Tagged> {
    if calls == [] then [] else DeliveredBy(calls[0]) + Delivered(calls[1..])
  }

  /** Through any calls, before, during and after the session: what surfaces is what was
      delivered, in order and on its stream. */
  lemma {:induction false} HearsAll(s: C.Cli, calls: seq<C.Call>, cap: Option<u32>)
    requires C.Usable(s) && AllSized(calls)
    ensures Heard(Run(s, calls, cap).notices) == Heard(s.notices) + Delivered(calls)
    decreases |calls|
  {
    hide C.Do, Heard, DeliveredBy, C.Usable;
    if calls == [] {
      assert Heard(s.notices) + [] == Heard(s.notices);
    } else {
      CallHeard(s, calls[0], cap);
      HearsAll(C.Do(s, calls[0], cap), calls[1..], cap);
      Seqs.Assoc(Heard(s.notices), DeliveredBy(calls[0]), Delivered(calls[1..]));
    }
  }

  /** A server's channel message as its client gets it. */
  function Arrives(m: Msg): seq<C.Call> {
    match m
    case Data(ext, bytes) => [C.Delivers(bytes, ext)]
    case Adjust(n) => [C.Grants(n)]
    case Confirm(window, maxPacket) => [C.Confirms(window, maxPacket)]
    case Close => [C.Closes]
    case _ => []
  }

  function Arriving(ms: seq<Msg>): seq<C.Call> {
    if ms == [] then [] else Arrives(ms[0]) + Arriving(ms[1..])
  }

  lemma DeliveredCons(a: seq<C.Call>, rest: seq<C.Call>)
    requires |a| <= 1
    ensures Delivered(a + rest) == (if a == [] then [] else DeliveredBy(a[0])) + Delivered(rest)
  {
    hide DeliveredBy;
    if a == [] {
      assert a + rest == rest;
    } else {
      assert (a + rest)[1..] == rest;
    }
  }

  lemma {:induction false} DeliveredIsCarried(ms: seq<Msg>)
    ensures Delivered(Arriving(ms)) == Carried(ms)
  {
    hide Tag, Delivered;
    if ms != [] {
      DeliveredIsCarried(ms[1..]);
      DeliveredCons(Arrives(ms[0]), Arriving(ms[1..]));
    } else {
      NothingDelivered();
    }
  }

  lemma NothingDelivered()
    ensures Delivered([]) == []
  {
  }

  /** End to end: a client that gets a server's messages surfaces exactly the bytes they carry. */
  lemma HearsWhatIsCarried(s: C.Cli, ms: seq<Msg>, cap: Option<u32>)
    requires C.Usable(s) && AllSized(Arriving(ms))
    ensures Heard(Run(s, Arriving(ms), cap).notices) == Heard(s.notices) + Carried(ms)
  {
    HearsAll(s, Arriving(ms), cap);
    DeliveredIsCarried(ms);
  }

  /** How a session begins: the client's request is one the server confirms, and each end then
      has for its sending window what the other has for its receiving window. */
  lemma SessionOpens(c: C.Cli, s: S.Srv, request: C.Request, cap: Option<u32>)
    requires c.authenticated && !c.closing && s.chan.None? && !s.closing
    ensures var d := C.OpenSession(c, request);
            && d.Ok? && d.value.chan.Some? && |d.value.sent| == |c.sent| + 1 && d.value.pending == Some(request)
            && var asked := d.value.sent[|c.sent|];
               && asked.OnChannel? && asked.msg.Open?
               && var t := S.OnOpen(s, true, asked.msg.window, asked.msg.maxPacket);
                  && t.chan.Some? && |t.sent| == |s.sent| + 1
                  && var answer := t.sent[|s.sent|];
                     && answer.Conn? && answer.msg.Confirm?
                     && var mine := SetRemote(d.value.chan.value, answer.msg.window, answer.msg.maxPacket);
                        && mine.remoteWindow == t.chan.value.localWindow && t.chan.value.remoteWindow == mine.localWindow
                        && mine.localWindow == 0x10_0000 && mine.remoteWindow == 0x10_0000
                        && mine.remoteMaxPacket == 32768 && t.chan.value.remoteMaxPacket == 32768
  {
  }

  /** How it ends: a client gives its channel up with one CLOSE, unless one went out before, and
      says so; the requests that still waited are forgotten. */
  lemma SessionEnds(s: C.Cli)
    requires !s.closing
    ensures var t := C.OnClose(s);
            && t.chan.None? && t.replies == [] && t.notices == s.notices + [C.ChannelGone]
            && t.sent == s.sent + (if s.chan.Some? && !s.chan.value.sentClose then [C.OnChannel(Close)] else [])
    ensures var t := C.OnOpenFailure(s);
            t.chan.None? && t.replies == [] && t.notices == s.notices + [C.OpenFailed] && t.sent == s.sent
  {
    assert s.sent + [] == s.sent;
  }
}
