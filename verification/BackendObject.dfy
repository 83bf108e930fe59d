/** The backend as the object it is: a frame buffer appended to in place, the tracked cursor
    and the current style. */
module BackendObject {
  import opened Bytes
  import opened Seqs
  import opened Ansi
  import R = Renderer

  class SshBackend {
    var buf: seq<byte>
    var cursor: Option<R.Position>
    var style: R.Style
    /** Frames already taken. */
    ghost var taken: seq<byte>

    /** The backend with every byte it ever emitted. */
    ghost function View(): R.Back
      reads this
    {
      R.Back(taken + buf, cursor, style)
    }

    constructor ()
      ensures View() == R.NewBackend() && buf == []
    {
      buf, cursor, style, taken := [], None, R.ResetStyle(), [];
    }

    /** Appends to the frame. */
    method Put(bytes: seq<byte>)
      modifies this`buf
      ensures View() == R.Emit(old(View()), bytes)
    {
      Assoc(taken, buf, bytes);
      buf := buf + bytes;
    }

    method Sgr(codes: seq<nat>)
      modifies this`buf
      ensures View() == R.Sgr(old(View()), codes)
    {
      hide R.Params;
      ghost var b := View();
      Put([ESC, 0x5b]);
      Put(R.Params(codes));
      Put([0x6d]);
      EmitJoins(b, codes, 0x6d);
    }

    method MoveTo(p: R.Position)
      modifies this`buf, this`cursor
      ensures View() == R.MoveTo(old(View()), p)
    {
      hide R.CsiSeq;
      Put(R.CsiSeq([p.y + 1, p.x + 1], 0x48));
      cursor := Some(p);
    }

    /** The codes of the modifiers that are set, in numerical order. */
    method AddMods(m: R.Modifier)
      modifies this`buf
      ensures View() == R.AddMods(old(View()), m, 1)
    {
      hide R.Sgr;
      var n := 1;
      while n <= 9
        invariant 1 <= n <= 10
        invariant R.AddMods(View(), m, n) == R.AddMods(old(View()), m, 1)
        decreases 10 - n
      {
        if n in m {
          Sgr([n]);
        }
        n := n + 1;
      }
    }

    /** Emits the codes from the current style to another one. */
    method SetStyle(s: R.Style)
      modifies this`buf, this`style
      ensures View() == R.SetStyle(old(View()), s)
    {
      hide R.Sgr, R.AddMods, R.ColorCode;
      if s.mods != style.mods {
        Sgr([0]);
        AddMods(s.mods);
        if s.fg != R.Reset {
          Sgr(R.ColorCode(s.fg, 30));
        }
        if s.bg != R.Reset {
          Sgr(R.ColorCode(s.bg, 40));
        }
      } else {
        if s.fg != style.fg {
          Sgr(R.ColorCode(s.fg, 30));
        }
        if s.bg != style.bg {
          Sgr(R.ColorCode(s.bg, 40));
        }
      }
      style := s;
    }

    /** One frame: every cell, its symbol unchecked, then back to the reset style. */
    method Draw(cells: seq<R.Cell>)
      modifies this
      ensures taken == old(taken)
      ensures View() == R.Draw(old(View()), cells)
    {
      hide R.SetStyle, R.MoveTo, R.Sgr;
      for i := 0 to |cells|
        invariant taken == old(taken)
        invariant R.DrawCells(View(), cells[i..]) == R.DrawCells(old(View()), cells)
      {
        assert cells[i..][1..] == cells[i + 1..];
        ghost var b := View();
        var c := cells[i];
        if cursor != Some(c.at) {
          MoveTo(c.at);
        }
        SetStyle(c.style);
        Put(c.symbol);
        cursor := if |c.symbol| == 1 && 0x20 <= c.symbol[0] < 0x7f then Some(R.Position(c.at.x + 1, c.at.y)) else None;
        assert View() == R.DrawCell(b, c);
      }
      assert cells[|cells|..] == [];
      if style != R.ResetStyle() {
        ghost var b := View();
        Sgr([0]);
        style := R.ResetStyle();
        assert View() == R.Settle(b);
      }
    }

    /** One frame, ready for the channel. */
    method TakeFrame() returns (frame: seq<byte>)
      modifies this`buf, this`taken
      ensures frame == old(buf) && buf == [] && taken == old(taken) + frame
      ensures View() == old(View())
    {
      frame := buf;
      taken, buf := taken + buf, [];
      assert taken + buf == old(taken + buf);
    }
  }

  lemma EmitJoins(b: R.Back, codes: seq<nat>, final: byte)
    ensures R.Emit(R.Emit(R.Emit(b, [ESC, 0x5b]), R.Params(codes)), [final]) == R.Emit(b, R.CsiSeq(codes, final))
  {
    hide R.Params;
    var open: seq<byte> := [ESC, 0x5b];
    var p := R.Params(codes);
    Assoc(b.bytes, open, p);
    Assoc(b.bytes, open + p, [final]);
  }
}
