/** The client's side of the same ordering: its EOF never overtakes stdin, however late the
    window opens. */
module ClientClosing {
  import opened Bytes
  import opened Channels
  import opened Flow
  import opened Closing
  import Seqs

  function Sending(s: Session, c: Chan, cap: Option<u32>): Session
    requires Unsent(c.out)
  {
    var (ms, d) := ClientFlush(c, cap);
    s.(chan := Some(d), sent := s.sent + ms)
  }

  /** What the client does on its channel: stdin is written before or after the server has
      confirmed the channel; data it reads is acknowledged at once. */
  function ClientDoes(s: Session, m: Deed, cap: Option<u32>): Session
    requires Sane(s)
  {
    if s.chan.None? then s
    else
      var c := s.chan.value;
      match m
      case Write(_, data) =>
        EnqueueAppends(c, false, data);
        Sending(s.(written := s.written + Tag(false, data)), Enqueue(c, false, data), cap)
      case End => Sending(s, c.(wantEof := true), cap)
      case PeerConfirm(window, maxPacket) => Sending(s, SetRemote(c, window, maxPacket), cap)
      case PeerData(size) =>
        var r := Replenish(c, size);
        if r.Some? then s.(chan := Some(r.value.1), sent := s.sent + r.value.0) else s
      case PeerAdjust(n) => Sending(s, AddRemoteWindow(c, n), cap)
      case PeerClose => s.(chan := None, sent := s.sent + if c.sentClose then [] else [Close])
      case _ => s
  }

  /** Stdin still flowing: with what is queued it is all that was written, and an end that was
      asked for waits for what is queued. */
  predicate Flowing(s: Session) {
    && s.chan.Some? && !s.chan.value.sentEof && !s.chan.value.sentClose
    && AllData(Story(s.sent))
    && Carried(s.sent) + Pending(s.chan.value.out) == s.written
    && (s.chan.value.wantEof ==> s.chan.value.out != [])
  }

  predicate AllThenEof(s: Session, data: seq<Msg>, rest: seq<Msg>) {
    Story(s.sent) == data + [Eof] + rest && AllData(data) && Carried(data) == s.written
  }

  ghost predicate Ended(s: Session) {
    && s.chan.Some? && s.chan.value.sentEof && !s.chan.value.sentClose && s.chan.value.out == []
    && exists data :: AllThenEof(s, data, [])
  }

  ghost predicate Left(s: Session) {
    s.chan.None? && ((exists data :: AllThenEof(s, data, [Close])) || (exists data :: CutShort(s, data)))
  }

  ghost predicate StdinInOrder(s: Session) {
    Sane(s) && (Flowing(s) || Ended(s) || Left(s))
  }

  /** Stdin written after the EOF went out. */
  predicate AfterEof(s: Session, m: Deed) {
    m.Write? && m.data != [] && s.chan.Some? && s.chan.value.sentEof
  }

  lemma SendFlowing(s: Session, c: Chan, cap: Option<u32>)
    requires Unsent(c.out) && !c.sentEof && !c.sentClose && c.localWindow <= DEFAULT_WINDOW
    requires AllData(Story(s.sent)) && Carried(s.sent) + Pending(c.out) == s.written
    ensures StdinInOrder(Sending(s, c, cap))
  {
    hide Drain, Pending, Carried, Tag, Story, Unsent, Chunked;
    DrainRefinesQueue(c, cap);
    var (ms, d) := Drain(c, cap);
    ChunkedIsData(ms, c.remoteMaxPacket, cap);
    StoryOfData(ms);
    StoryAppend(s.sent, ms);
    Seqs.Assoc(Carried(s.sent), Carried(ms), Pending(d.out));
    if d.out == [] && d.wantEof {
      var r := Sending(s, c, cap);
      UnsentPending(d.out);
      StoryCarries(s.sent);
      CarriedAppends(Story(s.sent), ms);
      TailStory(0);
      StoryAppends(s.sent, ms + [Eof]);
      StoryAppends(ms, [Eof]);
      Seqs.Assoc(Story(s.sent), ms, [Eof]);
      assert Carried(s.sent) + Carried(ms) + [] == Carried(s.sent) + Carried(ms);
      assert Story(s.sent) + ms + [Eof] + [] == Story(s.sent) + ms + [Eof];
      assert AllThenEof(r, Story(s.sent) + ms, []);
    }
  }

  lemma SendNothing(s: Session, c: Chan, cap: Option<u32>)
    requires c.out == [] && c.sentEof
    ensures Sending(s, c, cap) == s.(chan := Some(c))
  {
    assert s.sent + [] == s.sent;
  }

  /** The parts of a session the order depends on. */
  lemma StdinSame(s: Session, r: Session)
    requires StdinInOrder(s) && Sane(r) && Story(r.sent) == Story(s.sent) && Carried(r.sent) == Carried(s.sent)
    requires r.written == s.written && s.chan.Some? && r.chan.Some?
    requires var c, d := s.chan.value, r.chan.value;
             d.out == c.out && d.sentEof == c.sentEof && d.sentClose == c.sentClose && d.wantEof == c.wantEof
    ensures StdinInOrder(r)
  {
    hide Story, Carried, Pending, Unsent;
    if Ended(s) {
      var data :| AllThenEof(s, data, []);
      assert AllThenEof(r, data, []);
    }
  }

  /** A change of the channel that leaves its queue and its flags alone, then a flush. */
  lemma ChangeInOrder(s: Session, c: Chan, cap: Option<u32>)
    requires StdinInOrder(s) && s.chan.Some?
    requires c == s.chan.value.(remoteWindow := c.remoteWindow, remoteMaxPacket := c.remoteMaxPacket, wantEof := c.wantEof)
    ensures StdinInOrder(Sending(s, c, cap))
  {
    hide Story, Carried, Pending, Unsent, Sending;
    if Flowing(s) {
      SendFlowing(s, c, cap);
    } else {
      SendNothing(s, c, cap);
      var data :| AllThenEof(s, data, []);
      assert AllThenEof(s.(chan := Some(c)), data, []);
    }
  }

  lemma ReadInOrder(s: Session, size: nat, cap: Option<u32>)
    requires StdinInOrder(s)
    ensures StdinInOrder(ClientDoes(s, PeerData(size), cap))
  {
    hide Story, Carried, Pending, Unsent, StdinInOrder, AckIncoming, Grant;
    StdinSane(s);
    if s.chan.Some? && ConsumeIncoming(s.chan.value, size).Some? {
      var c := ConsumeIncoming(s.chan.value, size).value;
      var (g, d) := AckIncoming(c, size);
      AckTouches(c, size);
      AckWithin(c, size);
      StoryAppend(s.sent, Grant(g));
      StoryOfGrant(g);
      assert Story(s.sent) + [] == Story(s.sent) && Carried(s.sent) + [] == Carried(s.sent);
      StdinSame(s, ClientDoes(s, PeerData(size), cap));
    }
  }

  lemma StdinSane(s: Session)
    requires StdinInOrder(s)
    ensures Sane(s)
  {
  }

  lemma CloseInOrder(s: Session, cap: Option<u32>)
    requires StdinInOrder(s)
    ensures StdinInOrder(ClientDoes(s, PeerClose, cap))
  {
    hide Story, Carried, Pending, Unsent;
    if s.chan.Some? {
      var r := ClientDoes(s, PeerClose, cap);
      StoryAppends(s.sent, [Close]);
      TailStory(0);
      if Flowing(s) {
        StoryCarries(s.sent);
        assert Carried(s.sent) <= s.written;
        assert CutShort(r, Story(s.sent));
      } else {
        var data :| AllThenEof(s, data, []);
        assert data + [Eof] + [] == data + [Eof];
        assert AllThenEof(r, data, [Close]);
      }
    }
  }

  lemma WriteInOrder(s: Session, ext: bool, data: seq<byte>, cap: Option<u32>)
    requires StdinInOrder(s) && !AfterEof(s, Write(ext, data))
    ensures StdinInOrder(ClientDoes(s, Write(ext, data), cap))
  {
    hide Story, Carried, Pending, Unsent, Sending, Tag;
    if s.chan.Some? {
      var c := s.chan.value;
      EnqueueKeeps(c, false, data);
      if Flowing(s) {
        EnqueueAppends(c, false, data);
        Seqs.Assoc(Carried(s.sent), Pending(c.out), Tag(false, data));
        SendFlowing(s.(written := s.written + Tag(false, data)), Enqueue(c, false, data), cap);
      } else {
        SendNothing(s, c, cap);
        assert s.written + Tag(false, []) == s.written;
      }
    }
  }

  lemma AfterEofBreaks(s: Session, ext: bool, data: seq<byte>, cap: Option<u32>)
    requires StdinInOrder(s) && s.chan.Some? && s.chan.value.sentEof && data != []
    ensures !StdinInOrder(ClientDoes(s, Write(ext, data), cap))
  {
    hide Story, Pending, Unsent, Drain, Tag;
    var c := s.chan.value;
    var e := Enqueue(c, false, data);
    EnqueueAppends(c, false, data);
    DrainRefinesQueue(e, cap);
    var r := ClientDoes(s, Write(ext, data), cap);
    var (ms, d) := Drain(e, cap);
    var was :| AllThenEof(s, was, []);
    if StdinInOrder(r) {
      var now :| AllThenEof(r, now, []);
      UnsentPending(d.out);
      UnsentPending(c.out);
      StoryAppends(s.sent, ms);
      ChunkedIsData(ms, e.remoteMaxPacket, cap);
      StoryOfData(ms);
      assert Carried(ms) + [] == Carried(ms);
      assert |Carried(ms)| > 0 by { assert |Tag(false, data)| > 0; }
      EndsWithData(was + [Eof] + [], ms);
      assert false;
    }
  }

  /** Any deed of the client's driver or its peer keeps EOF behind all stdin, but for stdin
      written after the EOF went out: that breaks it, always. */
  lemma StdinKeptExactly(s: Session, m: Deed, cap: Option<u32>)
    requires StdinInOrder(s)
    ensures StdinInOrder(ClientDoes(s, m, cap)) <==> !AfterEof(s, m)
  {
    hide StdinInOrder, ClientDoes;
    StdinSane(s);
    match m
    case Write(ext, data) =>
      if AfterEof(s, m) {
        AfterEofBreaks(s, ext, data, cap);
      } else {
        WriteInOrder(s, ext, data, cap);
      }
    case PeerData(size) => ReadInOrder(s, size, cap);
    case PeerClose => CloseInOrder(s, cap);
    case _ => ChangesInOrder(s, m, cap);
  }

  lemma ChangesInOrder(s: Session, m: Deed, cap: Option<u32>)
    requires StdinInOrder(s) && !m.Write? && !m.PeerData? && !m.PeerClose?
    ensures StdinInOrder(ClientDoes(s, m, cap))
  {
    hide Story, Carried, Pending, Unsent, Sending, StdinInOrder;
    StdinSane(s);
    if s.chan.Some? {
      var c := s.chan.value;
      match m
      case End => ChangeInOrder(s, c.(wantEof := true), cap);
      case PeerConfirm(window, maxPacket) => ChangeInOrder(s, SetRemote(c, window, maxPacket), cap);
      case PeerAdjust(n) => ChangeInOrder(s, AddRemoteWindow(c, n), cap);
      case _ =>
    }
  }

  /** A channel the client has just asked for. */
  function Asked(): (s: Session)
    ensures StdinInOrder(s)
  {
    var s := Session(Some(Fresh()), [], [], []);
    assert Flowing(s);
    s
  }

  ghost predicate NeverAfterEof(s: Session, deeds: seq<(Deed, Option<u32>)>)
    requires StdinInOrder(s)
    decreases |deeds|
  {
    if deeds == [] then true
    else
      StdinKeptExactly(s, deeds[0].0, deeds[0].1);
      !AfterEof(s, deeds[0].0) && NeverAfterEof(ClientDoes(s, deeds[0].0, deeds[0].1), deeds[1..])
  }

  function ClientRun(s: Session, deeds: seq<(Deed, Option<u32>)>): Session
    requires StdinInOrder(s) && NeverAfterEof(s, deeds)
    decreases |deeds|
  {
    if deeds == [] then s
    else
      StdinKeptExactly(s, deeds[0].0, deeds[0].1);
      ClientRun(ClientDoes(s, deeds[0].0, deeds[0].1), deeds[1..])
  }

  lemma {:induction false} RunStdin(s: Session, deeds: seq<(Deed, Option<u32>)>)
    requires StdinInOrder(s) && NeverAfterEof(s, deeds)
    ensures StdinInOrder(ClientRun(s, deeds))
    decreases |deeds|
  {
    hide StdinInOrder, ClientDoes, AfterEof;
    StdinSane(s);
    if deeds != [] {
      StdinKeptExactly(s, deeds[0].0, deeds[0].1);
      RunStdin(ClientDoes(s, deeds[0].0, deeds[0].1), deeds[1..]);
    }
  }

  /** Through any run without stdin after EOF: when the EOF is out, all that was written went
      out before it; until then nothing but stdin has gone out, in order, and an end that was
      asked for waits only for stdin that is queued. */
  lemma EofFollowsStdin(deeds: seq<(Deed, Option<u32>)>)
    requires NeverAfterEof(Asked(), deeds)
    ensures var s := ClientRun(Asked(), deeds);
            && (s.chan.Some? && s.chan.value.sentEof ==> exists data :: AllThenEof(s, data, []))
            && (s.chan.Some? && !s.chan.value.sentEof ==> Flowing(s))
            && (s.chan.None? ==> (exists data :: AllThenEof(s, data, [Close])) || (exists data :: CutShort(s, data)))
  {
    hide ClientRun, AfterEof, ClientDoes, AllThenEof, CutShort, Asked;
    RunStdin(Asked(), deeds);
  }

  // --- one CLOSE -------------------------------------------------------------------------------

  lemma SendOnce(s: Session, c: Chan, cap: Option<u32>)
    requires OneClose(s) && s.chan.Some? && Unsent(c.out) && c.localWindow <= DEFAULT_WINDOW
    requires c.sentClose == s.chan.value.sentClose
    ensures OneClose(Sending(s, c, cap))
  {
    hide Drain, Pending, Carried, Closes, Story, Unsent, Chunked;
    DrainRefinesQueue(c, cap);
    var (ms, d) := Drain(c, cap);
    ChunkedIsData(ms, c.remoteMaxPacket, cap);
    StoryOfData(ms);
    TailStory(0);
    ClosesAppends(s.sent, ms);
    ClosesAppends(ms, [Eof]);
    ClosesAppends(s.sent, ms + [Eof]);
  }

  lemma ClientOneCloseKept(s: Session, m: Deed, cap: Option<u32>)
    requires OneClose(s)
    ensures OneClose(ClientDoes(s, m, cap))
  {
    hide Closes, Unsent, Sending, AckIncoming, Grant, Tag;
    if s.chan.Some? {
      var c := s.chan.value;
      match m
      case Write(_, data) =>
        EnqueueAppends(c, false, data);
        EnqueueKeeps(c, false, data);
        SendOnce(s.(written := s.written + Tag(false, data)), Enqueue(c, false, data), cap);
      case End => SendOnce(s, c.(wantEof := true), cap);
      case PeerConfirm(window, maxPacket) => SendOnce(s, SetRemote(c, window, maxPacket), cap);
      case PeerAdjust(n) => SendOnce(s, AddRemoteWindow(c, n), cap);
      case PeerData(size) =>
        if ConsumeIncoming(c, size).Some? {
          var d := ConsumeIncoming(c, size).value;
          AckWithin(d, size);
          AckTouches(d, size);
          ClosesAppends(s.sent, Grant(AckIncoming(d, size).0));
          StoryOfGrant(AckIncoming(d, size).0);
        }
      case PeerClose =>
        TailStory(0);
        ClosesAppends(s.sent, [Close]);
        assert s.sent + [] == s.sent;
      case _ =>
    }
  }

  function AnyClientRun(s: Session, deeds: seq<(Deed, Option<u32>)>): Session
    requires OneClose(s)
    decreases |deeds|
  {
    if deeds == [] then s
    else
      ClientOneCloseKept(s, deeds[0].0, deeds[0].1);
      AnyClientRun(ClientDoes(s, deeds[0].0, deeds[0].1), deeds[1..])
  }

  lemma {:induction false} AnyClientRunOnce(s: Session, deeds: seq<(Deed, Option<u32>)>)
    requires OneClose(s)
    ensures OneClose(AnyClientRun(s, deeds))
    decreases |deeds|
  {
    hide Closes, ClientDoes;
    if deeds != [] {
      ClientOneCloseKept(s, deeds[0].0, deeds[0].1);
      AnyClientRunOnce(ClientDoes(s, deeds[0].0, deeds[0].1), deeds[1..]);
    }
  }

  /** Whatever either side does, the client sends one CLOSE once its channel is closed, and
      none before. */
  lemma ClientClosesOnce(deeds: seq<(Deed, Option<u32>)>)
    ensures OneClose(Asked())
    ensures var s := AnyClientRun(Asked(), deeds);
            Closes(s.sent) == if s.chan.Some? && !s.chan.value.sentClose then 0 else 1
  {
    hide AnyClientRun;
    AnyClientRunOnce(Asked(), deeds);
  }
}
