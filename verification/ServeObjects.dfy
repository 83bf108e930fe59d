/** The handler's two halves and the serve loop as objects over the wires they share, their
    methods proved against the steps of module Serve. */
module ServeObjects {
  import opened Bytes
  import opened Channels
  import opened Server
  import opened Serve
  import opened ServerObject
  import Seqs

  /** What handler and loop share: the budget, the two queues and the count of bytes read. */
  class Wires {
    var permits: nat
    var outbound: seq<Outbound>
    var stdin: seq<seq<byte>>
    var stdinOpen: bool
    var consumed: nat

    constructor (limit: nat)
      ensures permits == limit && outbound == [] && stdin == [] && stdinOpen && consumed == 0
    {
      permits, outbound, stdin, stdinOpen, consumed := limit, [], [], true, 0;
    }
  }

  // --- reading ---------------------------------------------------------------------------------

  class SessionReader {
    const wires: Wires
    var chunk: seq<byte>
    var pos: nat

    constructor (wires: Wires)
      ensures this.wires == wires && chunk == [] && pos == 0
    {
      this.wires, chunk, pos := wires, [], 0;
    }

    /** The reader's part of a world. */
    ghost predicate Shows(w: World)
      reads this, wires
    {
      w.stdin == wires.stdin && w.consumed == wires.consumed && w.chunk == chunk && w.pos == pos
    }

    /** Reads into a buffer with room for `room` bytes, skipping empty chunks. */
    method PollRead(room: nat, ghost w: World) returns (r: Option<seq<byte>>)
      requires Shows(w)
      modifies this, wires`stdin, wires`consumed
      ensures Shows(Serve.PollRead(w, room).0) && r == Serve.PollRead(w, room).1
    {
      while pos >= |chunk|
        invariant pos < |chunk| ==> Serve.PollRead(w, room) == Served(w.(chunk := chunk, pos := pos, stdin := wires.stdin), room)
        invariant pos >= |chunk| ==> chunk == w.chunk && pos == w.pos && w.pos >= |w.chunk|
                                     && NextChunk(wires.stdin) == NextChunk(w.stdin)
        invariant wires.consumed == w.consumed
        decreases |chunk| <= pos, |wires.stdin|
      {
        if wires.stdin == [] {
          return None;
        }
        var next := wires.stdin[0];
        wires.stdin := wires.stdin[1..];
        if next != [] {
          chunk, pos := next, 0;
        }
      }
      var n := Min(|chunk| - pos, room);
      r := Some(chunk[pos..pos + n]);
      pos := pos + n;
      wires.consumed := wires.consumed + n;
    }
  }

  // --- writing ----------------------------------------------------------------------------------

  /** Data cut into pieces of at most `MAX_RESERVE` bytes. */
  function Pieces(ext: bool, data: seq<byte>): seq<Outbound>
    decreases |data|
  {
    if data == [] then []
    else var n := Min(|data|, MAX_RESERVE); [Out(ext, data[..n])] + Pieces(ext, data[n..])
  }

  /** A whole number of pieces off the front, then the rest. */
  lemma {:induction false} PiecesOfPrefix(ext: bool, data: seq<byte>, cut: nat, next: nat)
    requires cut <= next <= |data| && cut % MAX_RESERVE == 0
    requires next == cut + Min(|data| - cut, MAX_RESERVE) && cut < |data|
    ensures Pieces(ext, data[..next]) == Pieces(ext, data[..cut]) + [Out(ext, data[cut..next])]
    decreases cut
  {
    if cut == 0 {
      var none: seq<byte> := [];
      assert data[..next][next..] == none && data[..next][..next] == data[cut..next] && data[..cut] == none;
      assert Pieces(ext, none) == [];
    } else {
      var d := data[MAX_RESERVE..];
      PiecesOfPrefix(ext, d, cut - MAX_RESERVE, next - MAX_RESERVE);
      assert data[..next][MAX_RESERVE..] == d[..next - MAX_RESERVE] && data[..next][..MAX_RESERVE] == data[..MAX_RESERVE];
      assert data[..cut][MAX_RESERVE..] == d[..cut - MAX_RESERVE] && data[..cut][..MAX_RESERVE] == data[..MAX_RESERVE];
      assert d[cut - MAX_RESERVE..next - MAX_RESERVE] == data[cut..next];
      Seqs.Assoc([Out(ext, data[..MAX_RESERVE])], Pieces(ext, d[..cut - MAX_RESERVE]), [Out(ext, data[cut..next])]);
    }
  }

  lemma {:induction false} PiecesCarryAll(ext: bool, data: seq<byte>)
    ensures OutBytes(Pieces(ext, data)) == |data|
    ensures forall i :: 0 <= i < |Pieces(ext, data)| ==>
              Pieces(ext, data)[i].Out? && Pieces(ext, data)[i].ext == ext && 0 < |Pieces(ext, data)[i].data| <= MAX_RESERVE
    decreases |data|
  {
    if data != [] {
      var n := Min(|data|, MAX_RESERVE);
      PiecesCarryAll(ext, data[n..]);
      assert ([Out(ext, data[..n])] + Pieces(ext, data[n..]))[1..] == Pieces(ext, data[n..]);
    }
  }

  class SessionWriter {
    const wires: Wires
    var reserving: Option<nat>

    constructor (wires: Wires)
      ensures this.wires == wires && reserving == None
    {
      this.wires, reserving := wires, None;
    }

    ghost predicate Shows(w: World)
      reads this, wires
    {
      w.permits == wires.permits && w.outbound == wires.outbound && w.reserving == reserving
    }

    /** One poll of a write: none when it must wait for budget. */
    method PollWrite(data: seq<byte>, ghost w: World) returns (r: Option<nat>)
      requires Shows(w)
      modifies this, wires`permits, wires`outbound
      ensures Shows(Serve.PollWrite(w, data).0) && r == Serve.PollWrite(w, data).1
    {
      if data == [] {
        return Some(0);
      }
      if reserving.None? {
        reserving := Some(Min(|data|, MAX_RESERVE));
      }
      var want := reserving.value;
      if wires.permits < want {
        return None;
      }
      wires.permits := wires.permits - want;
      reserving := None;
      var n := Min(want, |data|);
      if n < want {
        wires.permits := wires.permits + (want - n);
      }
      wires.outbound := wires.outbound + [Out(false, data[..n])];
      return Some(n);
    }

    /** Sends piece after piece, each once the budget has it; suspended at the first piece that
        does not fit, `sent` bytes along. */
    method ReserveAndSend(data: seq<byte>, ext: bool) returns (sent: nat)
      modifies wires`permits, wires`outbound
      ensures sent <= |data| && wires.permits == old(wires.permits) - sent
      ensures wires.outbound == old(wires.outbound) + Pieces(ext, data[..sent])
      ensures sent == |data| || wires.permits < Min(|data| - sent, MAX_RESERVE)
    {
      sent := 0;
      var none: seq<byte> := [];
      assert data[..0] == none && Pieces(ext, none) == [];
      while sent < |data|
        invariant sent <= |data| && (sent < |data| ==> sent % MAX_RESERVE == 0)
        invariant wires.permits == old(wires.permits) - sent
        invariant wires.outbound == old(wires.outbound) + Pieces(ext, data[..sent])
      {
        var n := Min(|data| - sent, MAX_RESERVE);
        if wires.permits < n {
          return;
        }
        wires.permits := wires.permits - n;
        wires.outbound := wires.outbound + [Out(ext, data[sent..sent + n])];
        PiecesOfPrefix(ext, data, sent, sent + n);
        Seqs.Assoc(old(wires.outbound), Pieces(ext, data[..sent]), [Out(ext, data[sent..sent + n])]);
        sent := sent + n;
      }
    }
  }

  // --- the loop ------------------------------------------------------------------------------------

  class ServeLoop {
    const connection: ServerConnection
    const wires: Wires
    var outInflight: nat
    var lastConsumed: nat
    var handlerRunning: bool

    constructor (connection: ServerConnection, wires: Wires)
      ensures this.connection == connection && this.wires == wires && outInflight == 0 && lastConsumed == 0
      ensures handlerRunning
    {
      this.connection, this.wires, outInflight, lastConsumed, handlerRunning := connection, wires, 0, 0, true;
    }

    /** The loop's part of a world. */
    ghost predicate Shows(w: World)
      reads this, wires, connection, connection.channel
    {
      && w.policy == connection.policy && w.srv == connection.View()
      && w.permits == wires.permits && w.outbound == wires.outbound && w.inflight == outInflight
      && w.consumed == wires.consumed && w.last == lastConsumed
    }

    /** Hands the handler's next message to the channel. */
    method TakeOutbound(ghost w: World)
      requires Shows(w) && Usable(w.srv) && wires.outbound != []
      modifies this`outInflight, wires`outbound, connection, connection.channel
      ensures Shows(Serve.TakeOutbound(w))
    {
      hide Output, OnExit, Usable;
      var m := wires.outbound[0];
      wires.outbound := wires.outbound[1..];
      match m
      case Out(ext, data) =>
        outInflight := outInflight + |data|;
        connection.ChannelOutput(ext, data);
      case ExitWith(status) =>
        connection.ChannelExit(status);
    }

    /** Frees as much budget as was flushed. */
    method Credit(ghost w: World)
      requires Shows(w)
      modifies this`outInflight, wires`permits, connection.channel
      ensures Shows(Serve.Credit(w))
    {
      hide OnTake;
      var flushed := connection.TakeFlushedOutput();
      var credit := Min(flushed, outInflight);
      if credit > 0 {
        outInflight := outInflight - credit;
        wires.permits := wires.permits + credit;
      }
    }

    /** Refills the client's window by what the handler has read since last time. */
    method Refill(ghost w: World)
      requires Shows(w) && Usable(w.srv) && w.last <= w.consumed
      modifies this`lastConsumed, connection, connection.channel
      ensures Shows(Serve.Refill(w))
    {
      hide OnConsumed, Usable;
      var total := wires.consumed;
      var delta := total - lastConsumed;
      lastConsumed := total;
      if delta > 0 {
        connection.ChannelConsumed(Min(delta, 0xFFFF_FFFF));
      }
    }

    /** What routing an event touches. */
    ghost predicate Routes(w: World)
      reads this, wires, connection, connection.channel
    {
      && w.srv == connection.View() && w.running == handlerRunning
      && w.stdin == wires.stdin && w.stdinOpen == wires.stdinOpen
    }

    /** One event: data and its end go to the handler's stdin, the answer to a program request
        to the client; a granted program or a close ends this handler. */
    method RouteEvent(e: Event, grants: bool, ghost w: World)
      requires Routes(w)
      modifies this`handlerRunning, wires`stdin, wires`stdinOpen, connection`sent, connection`pendingReply
      ensures Routes(OnEvent(w, e, grants))
    {
      hide Answer;
      match e {
        case DataIn(bytes) =>
          if bytes != [] && wires.stdinOpen {
            wires.stdin := wires.stdin + [bytes];
          }
        case EofIn => wires.stdinOpen := false;
        case Closed => wires.stdinOpen, handlerRunning := false, false;
        case ProgramAsked(_) =>
          connection.AnswerChannel(grants);
          handlerRunning := handlerRunning && !grants;
        case _ =>
      }
    }

    method RouteEvents(events: seq<Event>, grants: bool, ghost w: World)
      requires Routes(w)
      modifies this`handlerRunning, wires`stdin, wires`stdinOpen, connection`sent, connection`pendingReply
      ensures Routes(OnEvents(w, events, grants))
    {
      hide Routes, OnEvent;
      ghost var v := w;
      for i := 0 to |events|
        invariant Routes(v)
        invariant OnEvents(v, events[i..], grants) == OnEvents(w, events, grants)
      {
        assert events[i..][1..] == events[i + 1..];
        RouteEvent(events[i], grants, v);
        v := OnEvent(v, events[i], grants);
      }
      assert events[|events|..] == [];
    }
  }
}
