/** The order in which a channel ends (RFC 4254 section 5.3), for any peer: the server sends
    all output, then exit status, EOF and CLOSE; the client's EOF follows all its stdin; and
    no side sends CLOSE twice. */
module Closing {
  import opened Bytes
  import opened Channels
  import opened Flow
  import Seqs

  /** One end of an open channel: the channel while it exists, the messages sent on it, what
      was written to it, and the exit statuses given. */
  datatype Session = Session(chan: Option<Chan>, sent: seq<Msg>, written: seq<Tagged>, exits: seq<u32>)

  datatype Deed =
    | Write(ext: bool, data: seq<byte>)
    | Exit(status: u32)
    | End
    | Consume(len: u32)
    | PeerData(size: nat)
    | PeerAdjust(n: u32)
    | PeerConfirm(window: u32, maxPacket: u32)
    | PeerClose

  /** Everything but window grants. */
  function Story(ms: seq<Msg>): seq<Msg> {
    if ms == [] then []
    else (if ms[0].Adjust? then [] else [ms[0]]) + Story(ms[1..])
  }

  predicate AllData(ms: seq<Msg>) {
    forall i :: 0 <= i < |ms| ==> ms[i].Data?
  }

  function Closes(ms: seq<Msg>): nat {
    if ms == [] then 0 else (if ms[0].Close? then 1 else 0) + Closes(ms[1..])
  }

  lemma {:induction false} StoryAppends(a: seq<Msg>, b: seq<Msg>)
    ensures Story(a + b) == Story(a) + Story(b)
  {
    if a == [] {
      assert a + b == b;
    } else {
      assert (a + b)[1..] == a[1..] + b;
      StoryAppends(a[1..], b);
    }
  }

  lemma {:induction false} CarriedAppends(a: seq<Msg>, b: seq<Msg>)
    ensures Carried(a + b) == Carried(a) + Carried(b)
  {
    hide Tag;
    if a == [] {
      assert a + b == b;
    } else {
      assert (a + b)[1..] == a[1..] + b;
      CarriedAppends(a[1..], b);
    }
  }

  lemma {:induction false} ClosesAppends(a: seq<Msg>, b: seq<Msg>)
    ensures Closes(a + b) == Closes(a) + Closes(b)
  {
    if a == [] {
      assert a + b == b;
    } else {
      assert (a + b)[1..] == a[1..] + b;
      ClosesAppends(a[1..], b);
    }
  }

  lemma StoryAppend(a: seq<Msg>, b: seq<Msg>)
    ensures Story(a + b) == Story(a) + Story(b) && Carried(a + b) == Carried(a) + Carried(b)
    ensures Closes(a + b) == Closes(a) + Closes(b)
  {
    hide Story, Carried, Closes;
    StoryAppends(a, b);
    CarriedAppends(a, b);
    ClosesAppends(a, b);
  }

  lemma {:induction false} StoryOfData(ms: seq<Msg>)
    requires AllData(ms)
    ensures Story(ms) == ms && Closes(ms) == 0
  {
    if ms != [] {
      StoryOfData(ms[1..]);
      assert [ms[0]] + ms[1..] == ms;
    }
  }

  lemma {:induction false} StoryCarries(ms: seq<Msg>)
    ensures Carried(Story(ms)) == Carried(ms)
  {
    hide Tag;
    if ms != [] {
      StoryCarries(ms[1..]);
      assert ms == [ms[0]] + ms[1..];
      CarriedCons(ms[0], ms[1..]);
      CarriedCons(ms[0], Story(ms[1..]));
      assert [] + Carried(ms[1..]) == Carried(ms[1..]) && [] + Story(ms[1..]) == Story(ms[1..]);
    }
  }

  // --- the server ----------------------------------------------------------------------------

  function Flushed(s: Session, c: Chan, cap: Option<u32>): Session
    requires Unsent(c.out)
  {
    var (ms, d) := ServerFlush(c, cap);
    s.(chan := Some(d), sent := s.sent + ms)
  }

  ghost predicate Sane(s: Session) {
    s.chan.Some? ==> Unsent(s.chan.value.out) && s.chan.value.localWindow <= DEFAULT_WINDOW
  }

  /** What the server does on its channel; nothing once it is gone. */
  function ServerDoes(s: Session, m: Deed, cap: Option<u32>): Session
    requires Sane(s)
  {
    if s.chan.None? then s
    else
      var c := s.chan.value;
      match m
      case Write(ext, data) =>
        EnqueueAppends(c, ext, data);
        Flushed(s.(written := s.written + Tag(ext, data)), Enqueue(c, ext, data), cap)
      case Exit(status) =>
        Flushed(s.(exits := s.exits + [status]), c.(exitStatus := Some(status), wantClose := true), cap)
      case Consume(len) => var (ms, d) := Consumed(c, len); s.(chan := Some(d), sent := s.sent + ms)
      case PeerData(len) => var d := ConsumeIncoming(c, len); if d.Some? then s.(chan := d) else s
      case PeerAdjust(n) => Flushed(s, AddRemoteWindow(c, n), cap)
      case PeerClose => s.(chan := None, sent := s.sent + if c.sentClose then [] else [Close])
      case _ => s
  }

  /** Not yet finished: only data so far, and with what is queued it is all that was written;
      something is queued or no exit has been reported. */
  predicate Open(s: Session) {
    && s.chan.Some? && !s.chan.value.sentClose
    && AllData(Story(s.sent))
    && Carried(s.sent) + Pending(s.chan.value.out) == s.written
    && (s.chan.value.wantClose ==> s.chan.value.out != [])
    && (s.chan.value.wantClose <==> s.exits != [])
    && (s.exits != [] ==> s.chan.value.exitStatus == Some(s.exits[|s.exits| - 1]))
  }

  /** All that was written, then the ending. */
  ghost predicate Finished(s: Session) {
    && s.chan.Some? && s.chan.value.sentClose && s.chan.value.out == []
    && exists data, status :: Complete(s, data, status)
  }

  predicate Complete(s: Session, data: seq<Msg>, status: u32) {
    && Story(s.sent) == data + [ExitStatus(status), Eof, Close]
    && AllData(data) && Carried(data) == s.written && status in s.exits
  }

  /** The peer closed first: a prefix of the output, then our CLOSE. */
  predicate CutShort(s: Session, data: seq<Msg>) {
    s.chan.None? && Story(s.sent) == data + [Close] && AllData(data) && Carried(data) <= s.written
  }

  ghost predicate Gone(s: Session) {
    s.chan.None? && ((exists data, status :: Complete(s, data, status)) || (exists data :: CutShort(s, data)))
  }

  ghost predicate InOrder(s: Session) {
    Sane(s) && (Open(s) || Finished(s) || Gone(s))
  }

  /** Output written after the CLOSE went out. */
  predicate Late(s: Session, m: Deed) {
    m.Write? && m.data != [] && s.chan.Some? && s.chan.value.sentClose
  }

  lemma FlushOpen(s: Session, c: Chan, cap: Option<u32>)
    requires Unsent(c.out) && !c.sentClose && c.localWindow <= DEFAULT_WINDOW
    requires AllData(Story(s.sent)) && Carried(s.sent) + Pending(c.out) == s.written
    requires c.wantClose <==> s.exits != []
    requires s.exits != [] ==> c.exitStatus == Some(s.exits[|s.exits| - 1])
    ensures InOrder(Flushed(s, c, cap))
  {
    hide Drain, Pending, Carried, Tag, Story, Unsent, Chunked;
    DrainRefinesQueue(c, cap);
    var (ms, d) := Drain(c, cap);
    assert AllData(ms) by { ChunkedIsData(ms, c.remoteMaxPacket, cap); }
    StoryOfData(ms);
    StoryAppend(s.sent, ms);
    Seqs.Assoc(Carried(s.sent), Carried(ms), Pending(d.out));
    if d.out == [] && d.wantClose {
      var status := d.exitStatus.value;
      var tail := [ExitStatus(status), Eof, Close];
      var r := Flushed(s, c, cap);
      UnsentPending(d.out);
      StoryCarries(s.sent);
      StoryAppend(Story(s.sent), ms);
      StoryAppend(s.sent, ms + tail);
      StoryAppend(ms, tail);
      TailStory(status);
      Seqs.Assoc(Story(s.sent), ms, tail);
      assert Carried(s.sent) + Carried(ms) + [] == Carried(s.sent) + Carried(ms);
      assert Complete(r, Story(s.sent) + ms, status);
    }
  }

  lemma ChunkedIsData(ms: seq<Msg>, maxPacket: u32, cap: Option<u32>)
    requires Chunked(ms, maxPacket, cap)
    ensures AllData(ms)
  {
  }

  lemma TailStory(status: u32)
    ensures var tail := [ExitStatus(status), Eof, Close];
            Story(tail) == tail && Carried(tail) == [] && Closes(tail) == 1
    ensures Story([Close]) == [Close] && Carried([Close]) == [] && Closes([Close]) == 1
    ensures Story([Eof]) == [Eof] && Carried([Eof]) == [] && Closes([Eof]) == 0
  {
    var none: seq<Msg> := [];
    assert [Close][1..] == none && [Eof, Close][1..] == [Close] && [Eof][1..] == none;
    assert [ExitStatus(status), Eof, Close][1..] == [Eof, Close];
    assert [Close] + none == [Close] && [Eof] + [Close] == [Eof, Close] && [Eof] + none == [Eof];
    assert [ExitStatus(status)] + [Eof, Close] == [ExitStatus(status), Eof, Close];
  }

  /** Once all is sent, a flush has nothing to do. */
  lemma FlushNothing(s: Session, c: Chan, cap: Option<u32>)
    requires c.out == [] && c.sentClose
    ensures Flushed(s, c, cap) == s.(chan := Some(c))
  {
    assert s.sent + [] == s.sent;
  }

  lemma StoryOfGrant(g: Option<u32>)
    ensures Story(Grant(g)) == [] && Carried(Grant(g)) == [] && Closes(Grant(g)) == 0
  {
    if g.Some? {
      var none: seq<Msg> := [];
      assert [Adjust(g.value)][1..] == none;
    }
  }

  /** The parts of a session the order depends on. */
  lemma InOrderSame(s: Session, r: Session)
    requires InOrder(s) && Sane(r) && Story(r.sent) == Story(s.sent) && Carried(r.sent) == Carried(s.sent)
    requires r.written == s.written && r.exits == s.exits && s.chan.Some? && r.chan.Some?
    requires var c, d := s.chan.value, r.chan.value;
             d.out == c.out && d.sentClose == c.sentClose && d.wantClose == c.wantClose && d.exitStatus == c.exitStatus
    ensures InOrder(r)
  {
    hide Story, Carried, Pending, Unsent;
    if Finished(s) {
      var data, status :| Complete(s, data, status);
      assert Complete(r, data, status);
    }
  }

  lemma ConsumeInOrder(s: Session, len: u32, cap: Option<u32>)
    requires InOrder(s)
    ensures InOrder(ServerDoes(s, Consume(len), cap))
  {
    hide Story, Carried, Pending, Unsent, InOrder, AckIncoming, Grant;
    assert Sane(s) by { InOrderSane(s); }
    if s.chan.Some? {
      var c := s.chan.value;
      var (g, d) := AckIncoming(c, len);
      AckTouches(c, len);
      AckWithin(c, len);
      StoryAppend(s.sent, Grant(g));
      StoryOfGrant(g);
      assert Story(s.sent) + [] == Story(s.sent) && Carried(s.sent) + [] == Carried(s.sent);
      InOrderSame(s, ServerDoes(s, Consume(len), cap));
    }
  }

  lemma InOrderSane(s: Session)
    requires InOrder(s)
    ensures Sane(s)
  {
  }

  lemma PeerDataInOrder(s: Session, size: nat, cap: Option<u32>)
    requires InOrder(s)
    ensures InOrder(ServerDoes(s, PeerData(size), cap))
  {
    hide Story, Carried, Pending, InOrder;
    InOrderSane(s);
    if s.chan.Some? {
      InOrderSame(s, ServerDoes(s, PeerData(size), cap));
    }
  }

  lemma PeerAdjustInOrder(s: Session, n: u32, cap: Option<u32>)
    requires InOrder(s)
    ensures InOrder(ServerDoes(s, PeerAdjust(n), cap))
  {
    hide Story, Carried, Pending, Unsent, Flushed;
    if s.chan.Some? {
      var c := AddRemoteWindow(s.chan.value, n);
      if Open(s) {
        FlushOpen(s, c, cap);
      } else {
        FlushNothing(s, c, cap);
        InOrderSame(s, s.(chan := Some(c)));
      }
    }
  }

  lemma PeerCloseInOrder(s: Session, cap: Option<u32>)
    requires InOrder(s)
    ensures InOrder(ServerDoes(s, PeerClose, cap))
  {
    hide Story, Carried, Pending, Unsent;
    if s.chan.Some? {
      var r := ServerDoes(s, PeerClose, cap);
      assert s.sent + [] == s.sent;
      if Open(s) {
        StoryAppend(s.sent, [Close]);
        TailStory(0);
        StoryCarries(s.sent);
        assert Carried(s.sent) <= s.written;
        assert CutShort(r, Story(s.sent));
      } else {
        var data, status :| Complete(s, data, status);
        assert Complete(r, data, status);
      }
    }
  }

  lemma ExitInOrder(s: Session, status: u32, cap: Option<u32>)
    requires InOrder(s)
    ensures InOrder(ServerDoes(s, Exit(status), cap))
  {
    hide Story, Carried, Pending, Unsent, Flushed;
    if s.chan.Some? {
      var c := s.chan.value.(exitStatus := Some(status), wantClose := true);
      var e := s.(exits := s.exits + [status]);
      if Open(s) {
        FlushOpen(e, c, cap);
      } else {
        FlushNothing(e, c, cap);
        var data, st :| Complete(s, data, st);
        assert Complete(e.(chan := Some(c)), data, st);
      }
    }
  }

  lemma WriteOpen(s: Session, ext: bool, data: seq<byte>, cap: Option<u32>)
    requires InOrder(s) && Open(s)
    ensures InOrder(ServerDoes(s, Write(ext, data), cap))
  {
    hide Story, Carried, Pending, Unsent, Flushed, Tag;
    var c := s.chan.value;
    EnqueueAppends(c, ext, data);
    Seqs.Assoc(Carried(s.sent), Pending(c.out), Tag(ext, data));
    EnqueueKeeps(c, ext, data);
    FlushOpen(s.(written := s.written + Tag(ext, data)), Enqueue(c, ext, data), cap);
  }

  lemma WriteNothing(s: Session, ext: bool, cap: Option<u32>)
    requires InOrder(s) && s.chan.Some? && s.chan.value.sentClose
    ensures ServerDoes(s, Write(ext, []), cap) == s
  {
    hide Story, Carried, Pending;
    EnqueueKeeps(s.chan.value, ext, []);
    FlushNothing(s, s.chan.value, cap);
    assert s.written + Tag(ext, []) == s.written;
  }

  /** Output accepted after CLOSE can no longer be sent in order. */
  lemma LateBreaks(s: Session, ext: bool, data: seq<byte>, cap: Option<u32>)
    requires InOrder(s) && s.chan.Some? && s.chan.value.sentClose && data != []
    ensures !InOrder(ServerDoes(s, Write(ext, data), cap))
  {
    hide Story, Pending, Unsent, Drain, Tag;
    var c := s.chan.value;
    var e := Enqueue(c, ext, data);
    EnqueueAppends(c, ext, data);
    DrainRefinesQueue(e, cap);
    var r := ServerDoes(s, Write(ext, data), cap);
    var (ms, d) := Drain(e, cap);
    var was, st :| Complete(s, was, st);
    if InOrder(r) {
      assert r.chan.Some? && r.chan.value.sentClose;
      assert Finished(r);
      var now, status :| Complete(r, now, status);
      UnsentPending(d.out);
      assert Pending(d.out) == [];
      StoryAppend(s.sent, ms);
      ChunkedIsData(ms, e.remoteMaxPacket, cap);
      StoryOfData(ms);
      assert Carried(ms) + [] == Carried(ms);
      assert |Carried(ms)| > 0 by { assert |Tag(ext, data)| > 0; assert Pending(c.out) == [] by { UnsentPending(c.out); } }
      EndsWithData(was + [ExitStatus(st), Eof, Close], ms);
      assert false;
    }
  }

  lemma EndsWithData(a: seq<Msg>, ms: seq<Msg>)
    requires AllData(ms) && Carried(ms) != []
    ensures (a + ms) != [] && (a + ms)[|a + ms| - 1].Data?
  {
    assert ms != [];
    assert (a + ms)[|a + ms| - 1] == ms[|ms| - 1];
  }

  /** Any deed of the server's driver or its peer keeps the order, but for output written
      after the CLOSE went out: that breaks it, always. */
  lemma OrderKeptExactly(s: Session, m: Deed, cap: Option<u32>)
    requires InOrder(s)
    ensures InOrder(ServerDoes(s, m, cap)) <==> !Late(s, m)
  {
    hide InOrder, ServerDoes;
    InOrderSane(s);
    match m
    case Exit(status) => ExitInOrder(s, status, cap);
    case Consume(len) => ConsumeInOrder(s, len, cap);
    case PeerData(size) => PeerDataInOrder(s, size, cap);
    case PeerAdjust(n) => PeerAdjustInOrder(s, n, cap);
    case PeerClose => PeerCloseInOrder(s, cap);
    case End => OtherInOrder(s, m, cap);
    case PeerConfirm(_, _) => OtherInOrder(s, m, cap);
    case Write(ext, data) =>
      if Late(s, m) {
        LateBreaks(s, ext, data, cap);
      } else {
        WriteInOrder(s, ext, data, cap);
      }
  }

  lemma OtherInOrder(s: Session, m: Deed, cap: Option<u32>)
    requires InOrder(s) && (m.End? || m.PeerConfirm?)
    ensures InOrder(ServerDoes(s, m, cap))
  {
    hide Story, Carried, Pending, Unsent;
  }

  lemma WriteInOrder(s: Session, ext: bool, data: seq<byte>, cap: Option<u32>)
    requires InOrder(s) && !Late(s, Write(ext, data))
    ensures InOrder(ServerDoes(s, Write(ext, data), cap))
  {
    hide Story, Carried, Pending, Unsent, Flushed, Tag;
    if s.chan.Some? {
      if Open(s) {
        WriteOpen(s, ext, data, cap);
      } else {
        WriteNothing(s, ext, cap);
      }
    }
  }

  /** The server's side of a channel the client has just opened. */
  function Opening(window: u32, maxPacket: u32): (s: Session)
    ensures InOrder(s)
  {
    var s := Session(Some(SetRemote(Fresh(), window, maxPacket)), [], [], []);
    assert Open(s);
    s
  }

  /** Deeds with the chunk cap in force at each; none of them late. */
  ghost predicate NeverLate(s: Session, deeds: seq<(Deed, Option<u32>)>)
    requires InOrder(s)
    decreases |deeds|
  {
    if deeds == [] then true
    else
      OrderKeptExactly(s, deeds[0].0, deeds[0].1);
      !Late(s, deeds[0].0) && NeverLate(ServerDoes(s, deeds[0].0, deeds[0].1), deeds[1..])
  }

  function ServerRun(s: Session, deeds: seq<(Deed, Option<u32>)>): Session
    requires InOrder(s) && NeverLate(s, deeds)
    decreases |deeds|
  {
    if deeds == [] then s
    else
      OrderKeptExactly(s, deeds[0].0, deeds[0].1);
      ServerRun(ServerDoes(s, deeds[0].0, deeds[0].1), deeds[1..])
  }

  lemma {:induction false} RunInOrder(s: Session, deeds: seq<(Deed, Option<u32>)>)
    requires InOrder(s) && NeverLate(s, deeds)
    ensures InOrder(ServerRun(s, deeds))
    decreases |deeds|
  {
    hide InOrder, ServerDoes, Late;
    InOrderSane(s);
    if deeds != [] {
      OrderKeptExactly(s, deeds[0].0, deeds[0].1);
      RunInOrder(ServerDoes(s, deeds[0].0, deeds[0].1), deeds[1..]);
    }
  }

  /** Through any run without late output, whatever the peer sends and grants: an ending that
      is out was preceded by all that was written, and came once and in full; until then only
      output is out, and an exit that was reported waits only for output that is queued. */
  lemma EndsInOrder(window: u32, maxPacket: u32, deeds: seq<(Deed, Option<u32>)>)
    requires NeverLate(Opening(window, maxPacket), deeds)
    ensures var s := ServerRun(Opening(window, maxPacket), deeds);
            && (s.chan.Some? && s.chan.value.sentClose ==> exists data, status :: Complete(s, data, status))
            && (s.chan.Some? && !s.chan.value.sentClose ==>
                  AllData(Story(s.sent)) && Carried(s.sent) + Pending(s.chan.value.out) == s.written
                  && (s.exits != [] ==> s.chan.value.out != []))
            && (s.chan.None? ==> (exists data, status :: Complete(s, data, status)) || (exists data :: CutShort(s, data)))
  {
    hide ServerRun, Late, ServerDoes, Complete, CutShort;
    RunInOrder(Opening(window, maxPacket), deeds);
  }

  // --- one CLOSE -------------------------------------------------------------------------------

  /** The CLOSE messages sent so far: none while the channel is open, one ever after. */
  ghost predicate OneClose(s: Session) {
    && Sane(s)
    && Closes(s.sent) == (if s.chan.Some? && !s.chan.value.sentClose then 0 else 1)
  }

  lemma FlushOnce(s: Session, c: Chan, cap: Option<u32>)
    requires OneClose(s) && s.chan.Some? && Unsent(c.out) && c.localWindow <= DEFAULT_WINDOW
    requires c.sentClose == s.chan.value.sentClose
    ensures OneClose(Flushed(s, c, cap))
  {
    hide Drain, Pending, Carried, Closes, Story, Unsent, Chunked;
    DrainRefinesQueue(c, cap);
    var (ms, d) := Drain(c, cap);
    ChunkedIsData(ms, c.remoteMaxPacket, cap);
    StoryOfData(ms);
    ClosesAppends(s.sent, ms);
    var status := if d.exitStatus.Some? then d.exitStatus.value else 0;
    TailStory(status);
    ClosesAppends(ms, [ExitStatus(status), Eof, Close]);
    ClosesAppends(s.sent, ms + [ExitStatus(status), Eof, Close]);
  }

  lemma OneCloseKept(s: Session, m: Deed, cap: Option<u32>)
    requires OneClose(s)
    ensures OneClose(ServerDoes(s, m, cap))
  {
    hide Closes, Unsent, Flushed, AckIncoming, Grant, Tag;
    if s.chan.Some? {
      var c := s.chan.value;
      match m
      case Write(ext, data) =>
        EnqueueAppends(c, ext, data);
        EnqueueKeeps(c, ext, data);
        FlushOnce(s.(written := s.written + Tag(ext, data)), Enqueue(c, ext, data), cap);
      case Exit(status) => FlushOnce(s.(exits := s.exits + [status]), c.(exitStatus := Some(status), wantClose := true), cap);
      case Consume(len) =>
        AckWithin(c, len);
        AckTouches(c, len);
        ClosesAppends(s.sent, Grant(AckIncoming(c, len).0));
        StoryOfGrant(AckIncoming(c, len).0);
      case PeerAdjust(n) => FlushOnce(s, AddRemoteWindow(c, n), cap);
      case PeerClose =>
        TailStory(0);
        ClosesAppends(s.sent, [Close]);
        assert s.sent + [] == s.sent;
      case _ =>
    }
  }

  /** Any run at all, late output included. */
  function AnyRun(s: Session, deeds: seq<(Deed, Option<u32>)>): Session
    requires OneClose(s)
    decreases |deeds|
  {
    if deeds == [] then s
    else
      OneCloseKept(s, deeds[0].0, deeds[0].1);
      AnyRun(ServerDoes(s, deeds[0].0, deeds[0].1), deeds[1..])
  }

  lemma {:induction false} AnyRunOnce(s: Session, deeds: seq<(Deed, Option<u32>)>)
    requires OneClose(s)
    ensures OneClose(AnyRun(s, deeds))
    decreases |deeds|
  {
    hide Closes, ServerDoes;
    if deeds != [] {
      OneCloseKept(s, deeds[0].0, deeds[0].1);
      AnyRunOnce(ServerDoes(s, deeds[0].0, deeds[0].1), deeds[1..]);
    }
  }

  /** Whatever either side does, late writes and repeated exits included: the server sends one
      CLOSE on a channel once it is closed, and none before. */
  lemma ServerClosesOnce(window: u32, maxPacket: u32, deeds: seq<(Deed, Option<u32>)>)
    ensures OneClose(Opening(window, maxPacket))
    ensures var s := AnyRun(Opening(window, maxPacket), deeds);
            Closes(s.sent) == if s.chan.Some? && !s.chan.value.sentClose then 0 else 1
  {
    hide AnyRun;
    AnyRunOnce(Opening(window, maxPacket), deeds);
  }
}
