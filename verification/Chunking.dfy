/** How the peer's bytes are cut into reads makes no difference. */
module Chunking {
  import opened Bytes
  import opened Framing
  import opened Transport
  import opened Runs
  import Version

  /** Two receive loops ended alike: same state, same error; the unread bytes matter only
      to an endpoint that will read on. */
  predicate SameEnd(a: Driven, b: Driven) {
    && a.state == b.state
    && a.error == b.error
    && (a.error.None? && !a.state.out.closing ==> a.rest == b.rest)
  }

  lemma DriveOnceStable(c: Suite, s: State, rx: seq<byte>, more: seq<byte>)
    requires !DriveOnce(c, s, rx).Wait?
    ensures DriveOnce(c, s, rx + more) == DriveOnce(c, s, rx)
  {
    hide Open, Accept, Version.Parse;
    if s.phase.NeedPeerVersion? {
      Version.ParseStable(rx, more, s.cfg.role.Client?);
    } else {
      OpenStable(c.prim, s.inn.cipher, s.inn.seqNr, rx, more);
    }
  }

  /** Continue after a first read: what `on_input` does with the second. */
  function Continue(c: Suite, d: Driven, data: seq<byte>): Driven {
    if d.error.Some? then d else OnInput(c, d.state, d.rest, data)
  }

  lemma {:induction false} DriveSplit(c: Suite, s: State, rx: seq<byte>, more: seq<byte>)
    ensures SameEnd(Continue(c, Drive(c, s, rx), more), Drive(c, s, rx + more))
    decreases |rx|
  {
    hide DriveOnce;
    if !s.out.closing && !DriveOnce(c, s, rx).Wait? {
      DriveOnceStable(c, s, rx, more);
      match DriveOnce(c, s, rx)
      case Took(t, n) =>
        assert (rx + more)[n..] == rx[n..] + more;
        DriveSplit(c, t, rx[n..], more);
      case _ =>
    }
  }

  /** Two reads end like one read of both. */
  lemma TwoReadsAreOne(c: Suite, s: State, rx: seq<byte>, a: seq<byte>, b: seq<byte>)
    ensures SameEnd(Continue(c, OnInput(c, s, rx, a), b), OnInput(c, s, rx, a + b))
  {
    hide Drive;
    assert rx + (a + b) == rx + a + b;
    if !s.out.closing {
      DriveSplit(c, s, rx + a, b);
    }
  }

  function Concat(chunks: seq<seq<byte>>): seq<byte> {
    if chunks == [] then [] else chunks[0] + Concat(chunks[1..])
  }

  function ReadAll(c: Suite, d: Driven, chunks: seq<seq<byte>>): Driven
    decreases |chunks|
  {
    if chunks == [] then d else ReadAll(c, Continue(c, d, chunks[0]), chunks[1..])
  }

  /** A loop that has stopped to wait stays stopped on the same bytes. */
  lemma {:induction false} DriveRests(c: Suite, s: State, rx: seq<byte>)
    ensures var d := Drive(c, s, rx);
            d.error.None? && !d.state.out.closing ==> DriveOnce(c, d.state, d.rest).Wait?
    decreases |rx|
  {
    hide DriveOnce;
    if !s.out.closing {
      match DriveOnce(c, s, rx)
      case Took(t, n) => DriveRests(c, t, rx[n..]);
      case _ =>
    }
  }

  lemma ContinueSame(c: Suite, a: Driven, b: Driven, data: seq<byte>)
    requires SameEnd(a, b)
    ensures SameEnd(Continue(c, a, data), Continue(c, b, data))
  {
    hide Drive;
  }

  lemma {:induction false} ReadAllSame(c: Suite, a: Driven, b: Driven, chunks: seq<seq<byte>>)
    requires SameEnd(a, b)
    ensures SameEnd(ReadAll(c, a, chunks), ReadAll(c, b, chunks))
    decreases |chunks|
  {
    hide Continue;
    if chunks != [] {
      ContinueSame(c, a, b, chunks[0]);
      ReadAllSame(c, Continue(c, a, chunks[0]), Continue(c, b, chunks[0]), chunks[1..]);
    }
  }

  lemma {:induction false} ReadsFromRest(c: Suite, s: State, rx: seq<byte>, chunks: seq<seq<byte>>)
    ensures SameEnd(ReadAll(c, Drive(c, s, rx), chunks), Drive(c, s, rx + Concat(chunks)))
    decreases |chunks|
  {
    hide Drive, Continue;
    if chunks == [] {
      assert rx + Concat(chunks) == rx;
    } else {
      DriveSplit(c, s, rx, chunks[0]);
      var one := Drive(c, s, rx + chunks[0]);
      ReadAllSame(c, Continue(c, Drive(c, s, rx), chunks[0]), one, chunks[1..]);
      ReadsFromRest(c, s, rx + chunks[0], chunks[1..]);
      assert rx + Concat(chunks) == rx + chunks[0] + Concat(chunks[1..]);
    }
  }

  /** However a stream is cut into reads, an endpoint that started by waiting ends as if it
      had arrived whole: same state, same events and packets written, same error. */
  lemma ReadsDoNotMatter(c: Suite, s: State, rx: seq<byte>, chunks: seq<seq<byte>>, chunks': seq<seq<byte>>)
    requires Concat(chunks) == Concat(chunks')
    requires s.out.closing || DriveOnce(c, s, rx).Wait?
    ensures SameEnd(ReadAll(c, Driven(s, rx, None), chunks), ReadAll(c, Driven(s, rx, None), chunks'))
  {
    hide Continue, DriveOnce;
    assert Drive(c, s, rx) == Driven(s, rx, None);
    ReadsFromRest(c, s, rx, chunks);
    ReadsFromRest(c, s, rx, chunks');
  }
}
