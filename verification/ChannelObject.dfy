/** The channel as the object it is, its methods proved against module Channels. */
module ChannelObject {
  import opened Bytes
  import opened Channels
  import Seqs

  class Channel {
    var localWindow: u32
    var remoteWindow: u32
    var remoteMaxPacket: u32
    var unacked: u32
    var flushedOut: nat
    var out: seq<OutItem>
    var sentEof: bool
    var sentClose: bool
    var recvClose: bool
    var exitStatus: Option<u32>
    var wantClose: bool
    var wantEof: bool
    var pty: Option<Pty>

    /** The abstract state. */
    ghost function View(): Chan
      reads this
    {
      Chan(localWindow, remoteWindow, remoteMaxPacket, unacked, flushedOut, out, sentEof, sentClose, recvClose,
           exitStatus, wantClose, wantEof, pty)
    }

    constructor ()
      ensures View() == Fresh()
    {
      localWindow, remoteWindow, remoteMaxPacket, unacked, flushedOut, out := DEFAULT_WINDOW, 0, 0, 0, 0, [];
      sentEof, sentClose, recvClose, exitStatus, wantClose, wantEof, pty := false, false, false, None, false, false, None;
    }

    method SetRemote(window: u32, maxPacket: u32)
      modifies this`remoteWindow, this`remoteMaxPacket
      ensures View() == Channels.SetRemote(old(View()), window, maxPacket)
    {
      remoteWindow := window;
      remoteMaxPacket := if maxPacket == 0 then 1 else maxPacket;
    }

    method EnqueueStdout(data: seq<byte>)
      modifies this`out
      ensures View() == Enqueue(old(View()), false, data)
    {
      if data != [] {
        out := out + [OutItem(false, data, 0)];
      }
    }

    method EnqueueStderr(data: seq<byte>)
      modifies this`out
      ensures View() == Enqueue(old(View()), true, data)
    {
      if data != [] {
        out := out + [OutItem(true, data, 0)];
      }
    }

    method AddRemoteWindow(n: u32)
      modifies this`remoteWindow
      ensures View() == Channels.AddRemoteWindow(old(View()), n)
    {
      remoteWindow := if remoteWindow + n <= 0xFFFF_FFFF then remoteWindow + n else 0xFFFF_FFFF;
    }

    method RequestClose(status: u32)
      modifies this`exitStatus, this`wantClose
      ensures View() == old(View()).(exitStatus := Some(status), wantClose := true)
    {
      exitStatus, wantClose := Some(status), true;
    }

    method RequestEof()
      modifies this`wantEof
      ensures View() == old(View()).(wantEof := true)
    {
      wantEof := true;
    }

    method SetPty(granted: Pty)
      modifies this`pty
      ensures View() == old(View()).(pty := Some(granted))
    {
      pty := Some(granted);
    }

    /** False when no terminal was ever granted. */
    method UpdatePtySize(cols: u16, rows: u16, widthPx: u32, heightPx: u32) returns (applied: bool)
      modifies this`pty
      ensures applied == old(pty).Some? && View() == Resized(old(View()), cols, rows, widthPx, heightPx)
    {
      match pty
      case None => return false;
      case Some(t) =>
        pty := Some(t.(cols := cols, rows := rows, widthPx := widthPx, heightPx := heightPx));
        return true;
    }

    /** Largest data message that may go out now. */
    method SendLimit(cap: Option<u32>) returns (limit: nat)
      ensures limit == Limit(View(), cap)
    {
      hide Limit;
      limit := Min(remoteWindow, remoteMaxPacket);
      if cap.Some? {
        limit := Min(limit, if cap.value == 0 then 1 else cap.value);
      }
      LimitIs(View(), cap);
    }

    /** Cuts up to `limit` bytes off the front buffer, which is dropped when it is used up. */
    method Cut(limit: nat) returns (m: Msg, n: nat)
      requires out != [] && out[0].sent < |out[0].buf|
      modifies this`out
      ensures n == Min(|old(out)[0].buf| - old(out)[0].sent, limit)
      ensures m == Piece(old(out)[0], n)
      ensures out == Shortened(old(out), n)
    {
      var front := out[0];
      n := Min(|front.buf| - front.sent, limit);
      m := Data(front.ext, front.buf[front.sent..front.sent + n]);
      if front.sent + n == |front.buf| {
        out := out[1..];
      } else {
        out := [front.(sent := front.sent + n)] + out[1..];
      }
    }

    /** One message off the front of the queue, paid for from the window. */
    method EmitOne(limit: nat, ghost cap: Option<u32>) returns (m: Msg)
      requires out != [] && out[0].sent < |out[0].buf| && limit == Limit(View(), cap) > 0
      modifies this`out, this`remoteWindow, this`flushedOut
      ensures m == Emit(old(View()), cap).0
      ensures View() == Emit(old(View()), cap).1
    {
      hide Limit, Piece, Shortened, Min;
      var n;
      m, n := Cut(limit);
      assert n == Taken(old(View()), cap);
      remoteWindow, flushedOut := remoteWindow - n, flushedOut + n;
    }

    /** Emits as many data messages as the window and the packet size allow. */
    method DrainOutput(cap: Option<u32>) returns (emitted: seq<Msg>)
      requires Unsent(out)
      modifies this`out, this`remoteWindow, this`flushedOut
      ensures emitted == Drain(old(View()), cap).0
      ensures View() == Drain(old(View()), cap).1
    {
      hide Limit, Emit;
      emitted := [];
      while out != []
        invariant Unsent(out)
        invariant emitted + Drain(View(), cap).0 == Drain(old(View()), cap).0
        invariant Drain(View(), cap).1 == Drain(old(View()), cap).1
        decreases remoteWindow
      {
        var limit := SendLimit(cap);
        if limit == 0 {
          break;
        }
        EmitKeepsUnsent(View(), cap);
        ghost var rest := Drain(Emit(View(), cap).1, cap).0;
        var m := EmitOne(limit, cap);
        Seqs.Assoc(emitted, [m], rest);
        emitted := emitted + [m];
      }
      assert emitted + [] == emitted;
    }

    /** False when the peer sent more than its window. */
    method ConsumeIncoming(len: nat) returns (ok: bool)
      modifies this`localWindow
      ensures match Channels.ConsumeIncoming(old(View()), len)
              case None => !ok && View() == old(View())
              case Some(c) => ok && View() == c
    {
      if len > localWindow {
        return false;
      }
      localWindow := localWindow - len;
      return true;
    }

    /** Credits consumed bytes; the grant to announce, if it is time for one. */
    method AckIncoming(len: u32) returns (grant: Option<u32>)
      requires localWindow <= DEFAULT_WINDOW
      modifies this`localWindow, this`unacked
      ensures (grant, View()) == Channels.AckIncoming(old(View()), len)
    {
      var outstanding := DEFAULT_WINDOW - localWindow;
      unacked := Min(Min(unacked + len, 0xFFFF_FFFF), outstanding);
      if unacked >= DEFAULT_WINDOW / 2 || (localWindow == 0 && unacked > 0) {
        var add := unacked;
        unacked := 0;
        localWindow := localWindow + add;
        return Some(add);
      }
      return None;
    }

    method TakeFlushedOut() returns (n: nat)
      modifies this`flushedOut
      ensures n == old(flushedOut) && View() == old(View()).(flushedOut := 0)
    {
      n, flushedOut := flushedOut, 0;
    }
  }
}
