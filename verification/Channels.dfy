/** One session channel (RFC 4254 section 5): flow-control windows, batched
    acknowledgements, and the queue of output that waits for window. */
module Channels {
  import opened Bytes
  import Seqs

  const DEFAULT_WINDOW: u32 := 0x10_0000
  const MAX_PACKET: u32 := 32768
  const MIN_REMOTE_MAX_PACKET: u32 := 256

  /** Connection-layer messages about the one channel, as values. */
  datatype Msg =
    | Open(window: u32, maxPacket: u32)
    | Confirm(window: u32, maxPacket: u32)
    | Data(ext: bool, bytes: seq<byte>)
    | Adjust(n: u32)
    | ExitStatus(status: u32)
    | Eof
    | Close
    | Other

  /** A queued buffer; `sent` bytes of it have gone out. `ext` marks stderr. */
  datatype OutItem = OutItem(ext: bool, buf: seq<byte>, sent: nat)

  /** A terminal (RFC 4254 section 6.2). */
  datatype Pty = Pty(term: seq<byte>, cols: u16, rows: u16, widthPx: u32, heightPx: u32, modes: seq<byte>)

  datatype Chan = Chan(
    localWindow: u32,
    remoteWindow: u32,
    remoteMaxPacket: u32,
    unacked: u32,
    flushedOut: nat,
    out: seq<OutItem>,
    sentEof: bool,
    sentClose: bool,
    recvClose: bool,
    exitStatus: Option<u32>,
    wantClose: bool,
    wantEof: bool,
    pty: Option<Pty>)

  function Fresh(): Chan {
    Chan(DEFAULT_WINDOW, 0, 0, 0, 0, [], false, false, false, None, false, false, None)
  }

  function Min(a: nat, b: nat): (m: nat)
    ensures m <= a && m <= b && (m == a || m == b)
  {
    if a <= b then a else b
  }

  function SetRemote(c: Chan, window: u32, maxPacket: u32): Chan {
    c.(remoteWindow := window, remoteMaxPacket := if maxPacket == 0 then 1 else maxPacket)
  }

  function Enqueue(c: Chan, ext: bool, data: seq<byte>): Chan {
    if data == [] then c else c.(out := c.out + [OutItem(ext, data, 0)])
  }

  function AddRemoteWindow(c: Chan, n: u32): Chan {
    c.(remoteWindow := Min(c.remoteWindow + n, 0xFFFF_FFFF))
  }

  /** A size in cells, kept in 16 bits. */
  function Cells(n: u32): u16 { Min(n, 0xFFFF) }

  /** A new size for the terminal, if there is one. */
  function Resized(c: Chan, cols: u16, rows: u16, widthPx: u32, heightPx: u32): Chan {
    if c.pty.None? then c
    else c.(pty := Some(c.pty.value.(cols := cols, rows := rows, widthPx := widthPx, heightPx := heightPx)))
  }

  /** Largest data message that may go out now. */
  function Limit(c: Chan, cap: Option<u32>): nat {
    var limit := Min(c.remoteWindow, c.remoteMaxPacket);
    if cap.Some? then Min(limit, if cap.value == 0 then 1 else cap.value) else limit
  }

  /** Every queued buffer has something left to send. */
  ghost predicate Unsent(out: seq<OutItem>) {
    forall i :: 0 <= i < |out| ==> out[i].sent < |out[i].buf|
  }

  /** How much of the front buffer goes into the next message. */
  function Taken(c: Chan, cap: Option<u32>): (n: nat)
    requires c.out != [] && c.out[0].sent < |c.out[0].buf|
    ensures c.out[0].sent + n <= |c.out[0].buf| && n <= Limit(c, cap) <= c.remoteWindow
    ensures Limit(c, cap) > 0 ==> n > 0
  {
    Min(|c.out[0].buf| - c.out[0].sent, Limit(c, cap))
  }

  function Piece(front: OutItem, n: nat): Msg
    requires front.sent + n <= |front.buf|
  {
    Data(front.ext, front.buf[front.sent..front.sent + n])
  }

  /** The queue with `n` more bytes of its front buffer sent. */
  function Shortened(out: seq<OutItem>, n: nat): seq<OutItem>
    requires out != []
  {
    if out[0].sent + n == |out[0].buf| then out[1..] else [out[0].(sent := out[0].sent + n)] + out[1..]
  }

  /** One data message taken from the front of the queue. */
  function Emit(c: Chan, cap: Option<u32>): (r: (Msg, Chan))
    requires c.out != [] && c.out[0].sent < |c.out[0].buf| && Limit(c, cap) > 0
    ensures r.1.remoteWindow < c.remoteWindow
  {
    var n := Taken(c, cap);
    (Piece(c.out[0], n),
     c.(out := Shortened(c.out, n), remoteWindow := c.remoteWindow - n, flushedOut := c.flushedOut + n))
  }

  lemma EmitKeepsUnsent(c: Chan, cap: Option<u32>)
    requires Unsent(c.out) && c.out != [] && Limit(c, cap) > 0
    ensures Unsent(Emit(c, cap).1.out)
  {
  }

  /** `drain_output`: messages until the queue is empty or nothing may be sent. */
  function Drain(c: Chan, cap: Option<u32>): (seq<Msg>, Chan)
    requires Unsent(c.out)
    decreases c.remoteWindow
  {
    if c.out == [] || Limit(c, cap) == 0 then ([], c)
    else
      EmitKeepsUnsent(c, cap);
      var (m, d) := Emit(c, cap);
      var (ms, e) := Drain(d, cap);
      ([m] + ms, e)
  }

  function ConsumeIncoming(c: Chan, len: nat): Option<Chan> {
    if len > c.localWindow then None else Some(c.(localWindow := c.localWindow - len))
  }

  /** The part of the window the peer has used and not been granted again. */
  predicate Windowed(c: Chan) {
    c.localWindow + c.unacked <= DEFAULT_WINDOW && c.unacked < DEFAULT_WINDOW / 2
  }

  /** `ack_incoming`: the grant to announce, if any. */
  function AckIncoming(c: Chan, len: u32): (r: (Option<u32>, Chan))
    requires c.localWindow <= DEFAULT_WINDOW
  {
    var unacked := Min(Min(c.unacked + len, 0xFFFF_FFFF), DEFAULT_WINDOW - c.localWindow);
    if unacked >= DEFAULT_WINDOW / 2 || (c.localWindow == 0 && unacked > 0)
    then (Some(unacked), c.(unacked := 0, localWindow := c.localWindow + unacked))
    else (None, c.(unacked := unacked))
  }

  // --- what the windows promise ------------------------------------------------------------

  /** However the application acknowledges, the window never passes its initial size and no
      counter wraps: a grant moves bytes from `unacked` to the window and nothing else. */
  lemma AckKeepsWindow(c: Chan, len: u32)
    requires Windowed(c)
    ensures var (grant, d) := AckIncoming(c, len);
            && Windowed(d)
            && d.localWindow + d.unacked <= c.localWindow + c.unacked + len
            && d.localWindow + d.unacked >= c.localWindow + c.unacked
            && d.localWindow == c.localWindow + (if grant.Some? then grant.value else 0)
            && (grant.Some? ==> grant.value > 0 && d.unacked == 0)
  {
  }

  /** Acknowledging touches nothing but the window and its pending part. */
  lemma AckTouches(c: Chan, len: u32)
    requires c.localWindow <= DEFAULT_WINDOW
    ensures var (g, d) := AckIncoming(c, len); d == c.(localWindow := d.localWindow, unacked := d.unacked)
  {
  }

  lemma AckWithin(c: Chan, len: u32)
    requires c.localWindow <= DEFAULT_WINDOW
    ensures AckIncoming(c, len).1.localWindow <= DEFAULT_WINDOW
  {
  }

  /** Acknowledging exactly what was received and not yet acknowledged is never clamped. */
  lemma AckExact(c: Chan, len: u32)
    requires Windowed(c) && c.localWindow + c.unacked + len <= DEFAULT_WINDOW
    ensures var (_, d) := AckIncoming(c, len); d.localWindow + d.unacked == c.localWindow + c.unacked + len
  {
  }

  /** Grants come in batches: none while some window is left and less than half a window is due;
      all that is due once it is half a window. */
  lemma AckBatches(c: Chan, len: u32)
    requires Windowed(c) && c.localWindow + c.unacked + len <= DEFAULT_WINDOW
    ensures var (grant, d) := AckIncoming(c, len);
            && (c.localWindow > 0 && c.unacked + len < DEFAULT_WINDOW / 2 ==> grant.None? && d == c.(unacked := c.unacked + len))
            && (c.unacked + len >= DEFAULT_WINDOW / 2 ==>
                  grant == Some(c.unacked + len) && d == c.(unacked := 0, localWindow := c.localWindow + c.unacked + len))
  {
  }

  /** With everything acknowledged the peer may send more than half a window; with no window
      left, more than half a window awaits consumption, and any acknowledgement grants. */
  lemma NeverStuck(c: Chan, len: u32)
    requires Windowed(c)
    ensures c.localWindow + c.unacked == DEFAULT_WINDOW ==> c.localWindow > DEFAULT_WINDOW / 2
    ensures c.localWindow == 0 ==> DEFAULT_WINDOW - c.localWindow - c.unacked > DEFAULT_WINDOW / 2
    ensures c.localWindow == 0 && len > 0 ==> AckIncoming(c, len).0.Some? && AckIncoming(c, len).0.value > 0
  {
  }

  // --- draining is a simple queue --------------------------------------------------------------

  /** A byte and the stream it belongs to. */
  datatype Tagged = Tagged(ext: bool, value: byte)

  function Tag(ext: bool, bytes: seq<byte>): (t: seq<Tagged>)
    ensures |t| == |bytes|
    ensures forall i :: 0 <= i < |bytes| ==> t[i] == Tagged(ext, bytes[i])
  {
    seq(|bytes|, i requires 0 <= i < |bytes| => Tagged(ext, bytes[i]))
  }

  /** What the queue still has to send, in order. */
  function Pending(out: seq<OutItem>): seq<Tagged> {
    if out == [] then []
    else (if out[0].sent <= |out[0].buf| then Tag(out[0].ext, out[0].buf[out[0].sent..]) else []) + Pending(out[1..])
  }

  /** What a list of messages carries. */
  function Carried(ms: seq<Msg>): seq<Tagged> {
    if ms == [] then []
    else (if ms[0].Data? then Tag(ms[0].ext, ms[0].bytes) else []) + Carried(ms[1..])
  }

  /** Every message is non-empty data within the packet size and the chunk cap. */
  ghost predicate Chunked(ms: seq<Msg>, maxPacket: u32, cap: Option<u32>) {
    forall i :: 0 <= i < |ms| ==>
      && ms[i].Data? && 0 < |ms[i].bytes| <= maxPacket
      && (cap.Some? ==> |ms[i].bytes| <= cap.value || |ms[i].bytes| == 1)
  }

  lemma TagSplit(ext: bool, bytes: seq<byte>, from: nat, cut: nat)
    requires from <= cut <= |bytes|
    ensures Tag(ext, bytes[from..]) == Tag(ext, bytes[from..cut]) + Tag(ext, bytes[cut..])
  {
  }

  lemma PendingCons(item: OutItem, rest: seq<OutItem>)
    requires item.sent <= |item.buf|
    ensures Pending([item] + rest) == Tag(item.ext, item.buf[item.sent..]) + Pending(rest)
  {
    hide Tag;
    assert ([item] + rest)[1..] == rest;
  }

  lemma PendingFront(front: OutItem, after: nat, rest: seq<OutItem>)
    requires front.sent <= after <= |front.buf|
    ensures Tag(front.ext, front.buf[front.sent..after])
          + Pending(if after == |front.buf| then rest else [front.(sent := after)] + rest)
         == Pending([front] + rest)
  {
    hide Tag, Pending;
    PendingCons(front, rest);
    if after < |front.buf| {
      TagSplit(front.ext, front.buf, front.sent, after);
      PendingCons(front.(sent := after), rest);
      Seqs.Assoc(Tag(front.ext, front.buf[front.sent..after]), Tag(front.ext, front.buf[after..]), Pending(rest));
    }
  }

  lemma LimitBounds(c: Chan, cap: Option<u32>)
    ensures Limit(c, cap) <= c.remoteWindow && Limit(c, cap) <= c.remoteMaxPacket
    ensures cap.Some? ==> Limit(c, cap) <= cap.value || Limit(c, cap) == 1
  {
  }

  lemma EmitShape(c: Chan, cap: Option<u32>)
    requires c.out != [] && c.out[0].sent < |c.out[0].buf| && Limit(c, cap) > 0
    ensures var (m, d) := Emit(c, cap);
            && m.Data? && 0 < |m.bytes| <= c.remoteMaxPacket
            && (cap.Some? ==> |m.bytes| <= cap.value || |m.bytes| == 1)
            && d.remoteWindow == c.remoteWindow - |m.bytes|
            && d == c.(out := d.out, remoteWindow := d.remoteWindow, flushedOut := c.flushedOut + |m.bytes|)
  {
    hide Limit;
    LimitBounds(c, cap);
  }

  lemma EmitTakesFront(c: Chan, cap: Option<u32>)
    requires c.out != [] && c.out[0].sent < |c.out[0].buf| && Limit(c, cap) > 0
    ensures var (m, d) := Emit(c, cap); m.Data? && Tag(m.ext, m.bytes) + Pending(d.out) == Pending(c.out)
  {
    hide Pending, Tag, Limit;
    var front := c.out[0];
    assert c.out == [front] + c.out[1..];
    PendingFront(front, front.sent + Taken(c, cap), c.out[1..]);
  }

  lemma {:induction false} UnsentPending(out: seq<OutItem>)
    requires Unsent(out)
    ensures Pending(out) == [] <==> out == []
  {
    if out != [] {
      assert out[0].sent < |out[0].buf|;
      UnsentPending(out[1..]);
    }
  }

  lemma ChunkedCons(m: Msg, ms: seq<Msg>, maxPacket: u32, cap: Option<u32>)
    requires m.Data? && 0 < |m.bytes| <= maxPacket && (cap.Some? ==> |m.bytes| <= cap.value || |m.bytes| == 1)
    requires Chunked(ms, maxPacket, cap)
    ensures Chunked([m] + ms, maxPacket, cap)
    ensures Carried([m] + ms) == Tag(m.ext, m.bytes) + Carried(ms)
  {
    hide Carried, Tag;
    CarriedCons(m, ms);
  }

  lemma CarriedCons(m: Msg, ms: seq<Msg>)
    ensures Carried([m] + ms) == (if m.Data? then Tag(m.ext, m.bytes) else []) + Carried(ms)
  {
    assert ([m] + ms)[1..] == ms;
  }

  lemma NoLimit(c: Chan, cap: Option<u32>)
    requires Limit(c, cap) == 0 && c.remoteMaxPacket > 0
    ensures c.remoteWindow == 0
  {
  }

  /** What was emitted followed by what is left is what was queued, byte for byte with its
      stream tag; exactly the bytes the window allows go out; and draining stops only when
      the queue is empty or the window is. */
  lemma {:induction false} DrainRefinesQueue(c: Chan, cap: Option<u32>)
    requires Unsent(c.out)
    ensures var (ms, d) := Drain(c, cap);
            && Carried(ms) + Pending(d.out) == Pending(c.out)
            && Chunked(ms, c.remoteMaxPacket, cap)
            && d.remoteWindow == c.remoteWindow - |Carried(ms)|
            && d == c.(out := d.out, remoteWindow := d.remoteWindow, flushedOut := c.flushedOut + |Carried(ms)|)
            && Unsent(d.out)
            && (c.remoteMaxPacket > 0 ==> d.out == [] || d.remoteWindow == 0)
    decreases c.remoteWindow
  {
    hide Emit, Pending, Chunked, Limit, Tag, Unsent;
    if c.out == [] || Limit(c, cap) == 0 {
      if c.remoteMaxPacket > 0 && Limit(c, cap) == 0 {
        NoLimit(c, cap);
      }
      NothingChunked(c.remoteMaxPacket, cap);
    } else {
      FrontUnsent(c.out);
      EmitKeepsUnsent(c, cap);
      EmitShape(c, cap);
      EmitTakesFront(c, cap);
      var (m, d) := Emit(c, cap);
      DrainRefinesQueue(d, cap);
      var (ms, e) := Drain(d, cap);
      ChunkedCons(m, ms, c.remoteMaxPacket, cap);
      Seqs.Assoc(Tag(m.ext, m.bytes), Carried(ms), Pending(e.out));
    }
  }

  lemma NothingChunked(maxPacket: u32, cap: Option<u32>)
    ensures Chunked([], maxPacket, cap) && Carried([]) == []
  {
  }

  lemma FrontUnsent(out: seq<OutItem>)
    requires Unsent(out) && out != []
    ensures out[0].sent < |out[0].buf|
  {
  }

  /** Draining sends the longest prefix of the queue that fits the window. */
  lemma DrainSendsAll(c: Chan, cap: Option<u32>)
    requires Unsent(c.out) && c.remoteMaxPacket > 0
    ensures var n := Min(c.remoteWindow, |Pending(c.out)|);
            Carried(Drain(c, cap).0) == Pending(c.out)[..n] && Pending(Drain(c, cap).1.out) == Pending(c.out)[n..]
  {
    hide Drain, Pending, Carried, Chunked, Unsent;
    DrainRefinesQueue(c, cap);
    var (ms, d) := Drain(c, cap);
    assert |Pending(c.out)| == |Carried(ms)| + |Pending(d.out)|;
    UnsentPending(d.out);
    Seqs.DropPrefix(Carried(ms), Pending(d.out));
  }

  /** Once the peer's window and packet size are known, whatever they are, draining is held up by
      the window alone. */
  lemma DrainsOnceRemote(c: Chan, window: u32, maxPacket: u32, cap: Option<u32>)
    requires Unsent(c.out)
    ensures var d := Drain(SetRemote(c, window, maxPacket), cap).1; d.out == [] || d.remoteWindow == 0
  {
    hide Drain, Pending, Carried, Chunked, Unsent;
    DrainRefinesQueue(SetRemote(c, window, maxPacket), cap);
  }

  lemma {:induction false} PendingAppend(a: seq<OutItem>, b: seq<OutItem>)
    ensures Pending(a + b) == Pending(a) + Pending(b)
  {
    if a == [] {
      assert a + b == b;
    } else {
      hide Tag;
      assert (a + b)[1..] == a[1..] + b;
      PendingAppend(a[1..], b);
      assert (a + b)[0] == a[0];
    }
  }

  lemma PendingOne(ext: bool, data: seq<byte>)
    ensures Pending([OutItem(ext, data, 0)]) == Tag(ext, data)
  {
    hide Tag;
    var item := OutItem(ext, data, 0);
    var none: seq<OutItem> := [];
    assert [item][1..] == none;
    assert data[0..] == data;
    assert Pending(none) == [];
    assert Tag(ext, data) + [] == Tag(ext, data);
  }

  lemma EnqueueKeeps(c: Chan, ext: bool, data: seq<byte>)
    ensures Enqueue(c, ext, data) == c.(out := Enqueue(c, ext, data).out)
    ensures data == [] ==> Enqueue(c, ext, data) == c
  {
  }

  lemma AdjustShape(c: Chan, n: u32)
    ensures AddRemoteWindow(c, n) == c.(remoteWindow := AddRemoteWindow(c, n).remoteWindow)
  {
  }

  /** Enqueueing appends to what is pending, whatever is half sent in front of it. */
  lemma EnqueueAppends(c: Chan, ext: bool, data: seq<byte>)
    requires Unsent(c.out)
    ensures Pending(Enqueue(c, ext, data).out) == Pending(c.out) + Tag(ext, data)
    ensures Unsent(Enqueue(c, ext, data).out)
  {
    hide Pending;
    PendingAppend(c.out, [OutItem(ext, data, 0)]);
    PendingOne(ext, data);
    if data == [] {
      assert Pending(c.out) + Tag(ext, data) == Pending(c.out);
    }
  }

  lemma LimitIs(c: Chan, cap: Option<u32>)
    ensures Limit(c, cap) == (if cap.Some? then Min(Min(c.remoteWindow, c.remoteMaxPacket), if cap.value == 0 then 1 else cap.value)
                              else Min(c.remoteWindow, c.remoteMaxPacket))
  {
  }
}
