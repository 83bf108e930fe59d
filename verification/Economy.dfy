/** What the backend leaves out: no cursor sequence where the cursor already is, no style codes
    where the style is the same. */
module Economy {
  import opened Bytes
  import opened Renderer
  import Seqs

  /** A style that is in force already costs nothing; a change of colours alone resets nothing. */
  lemma StyleCosts(b: Back, s: Style)
    ensures s == b.style ==> SetStyle(b, s) == b
    ensures s.mods == b.style.mods ==>
              SetStyle(b, s).bytes == b.bytes + (if s.fg == b.style.fg then [] else CsiSeq(ColorCode(s.fg, 30), 0x6d))
                                              + (if s.bg == b.style.bg then [] else CsiSeq(ColorCode(s.bg, 40), 0x6d))
  {
    hide CsiSeq, ColorCode;
    assert b.bytes + [] == b.bytes;
  }

  /** A cell in the current style, where the cursor is, costs its symbol and nothing else. */
  lemma CellCosts(b: Back, c: Cell)
    ensures c.style == b.style ==>
              DrawCell(b, c).bytes
              == b.bytes + (if b.cursor == Some(c.at) then [] else CsiSeq([c.at.y + 1, c.at.x + 1], 0x48)) + c.symbol
  {
    hide CsiSeq, SetStyle;
    StyleCosts(MoveTo(b, c.at), c.style);
    StyleCosts(b, c.style);
    assert b.bytes + [] == b.bytes;
  }

  /** Text of one style along a row, from where the cursor is. */
  ghost predicate Text(b: Back, cells: seq<Cell>, at: Position) {
    forall i :: 0 <= i < |cells| ==>
      cells[i].at == Position(at.x + i, at.y) && cells[i].style == b.style && Printable(cells[i].symbol)
  }

  function Symbols(cells: seq<Cell>): seq<byte> {
    if cells == [] then [] else cells[0].symbol + Symbols(cells[1..])
  }

  /** It goes out as it is, without a single code. */
  lemma {:induction false} TextIsBare(b: Back, cells: seq<Cell>, at: Position)
    requires Text(b, cells, at) && b.cursor == Some(at)
    ensures DrawCells(b, cells).bytes == b.bytes + Symbols(cells)
    decreases |cells|
  {
    hide SetStyle, CsiSeq;
    if cells == [] {
      assert b.bytes + [] == b.bytes;
    } else {
      var d := DrawCell(b, cells[0]);
      StyleCosts(b, cells[0].style);
      TextIsBare(d, cells[1..], Position(at.x + 1, at.y));
      Seqs.Assoc(b.bytes, cells[0].symbol, Symbols(cells[1..]));
    }
  }

  /** A frame that leaves the reset style in force needs no reset behind it. */
  lemma SettleCosts(b: Back)
    ensures Settle(b).style == ResetStyle()
    ensures Settle(b).bytes == b.bytes + (if b.style == ResetStyle() then [] else CsiSeq([0], 0x6d))
  {
    hide CsiSeq;
    assert b.bytes + [] == b.bytes;
  }
}
