/** What the terminal shows after the bytes of a frame: exactly the cells drawn, whatever codes
    were skipped, and exactly when every symbol is one glyph. */
module Drawing {
  import opened Bytes
  import opened Ansi
  import opened Renderer
  import opened Screen

  /** The terminal after every byte the backend has emitted. */
  function At(t: Term, f: Font, b: Back): Term { Show(t, f, b.bytes) }

  /** The same terminal, but that a combining character would join nothing. */
  function Closed(t: Term): Term { t.(last := None) }

  lemma EmitAt(t: Term, f: Font, b: Back, ns: seq<nat>, final: byte)
    requires At(t, f, b).partial == [] && ns != [] && Final(final)
    ensures At(t, f, Emit(b, CsiSeq(ns, final))) == Execute(Closed(At(t, f, b)), Params(ns), final)
  {
    hide Show, Params, CsiSeq, Execute;
    ShowAppend(t, f, b.bytes, CsiSeq(ns, final));
    SequenceShown(At(t, f, b), f, ns, final);
  }

  lemma SgrAt(t: Term, f: Font, b: Back, ns: seq<nat>)
    requires At(t, f, b).partial == [] && ns != []
    ensures var a := At(t, f, b); At(t, f, Sgr(b, ns)) == Closed(a).(style := Rendition(a.style, ns))
  {
    hide Show, Params, CsiSeq, Numbers, Rendition;
    EmitAt(t, f, b, ns, 0x6d);
    ParamsRead(ns);
  }

  lemma MoveAt(t: Term, f: Font, b: Back, p: Position)
    requires At(t, f, b).partial == []
    ensures var a := At(t, f, b);
            At(t, f, MoveTo(b, p)) == Closed(a).(cursor := Position(Clamp(p.x, a.cols), Clamp(p.y, a.rows)))
  {
    hide Show, Params, CsiSeq, Numbers;
    EmitAt(t, f, b, [p.y + 1, p.x + 1], 0x48);
    ParamsRead([p.y + 1, p.x + 1]);
  }

  // --- style -----------------------------------------------------------------------------------

  lemma RenditionNone(s: Style)
    ensures Rendition(s, []) == s
  {
  }

  lemma BasicChosen(c: Color, base: nat)
    requires Basic(c).Some? && (base == 30 || base == 40)
    ensures ColorCode(c, base) != [] && ChosenColor(ColorCode(c, base)[0], base) == Some(c)
    ensures |ColorCode(c, base)| == 1 && 30 <= ColorCode(c, base)[0] <= 107
    ensures ColorCode(c, base)[0] != 38 && ColorCode(c, base)[0] != 48
    ensures base == 40 ==> ChosenColor(ColorCode(c, base)[0], 30).None?
  {
  }

  /** A colour's code selects that colour. */
  lemma FgSelected(s: Style, c: Color)
    ensures ColorCode(c, 30) != [] && Rendition(s, ColorCode(c, 30)) == s.(fg := c)
  {
    var ns := ColorCode(c, 30);
    hide ColorCode;
    var t := s.(fg := c);
    RenditionNone(t);
    CodeShape(c, 30);
    if Basic(c).Some? {
      BasicChosen(c, 30);
      assert ns[1..] == [];
    } else if c == Reset {
      assert ns[1..] == [];
    } else if c.Indexed? {
      assert ns[3..] == [];
    } else {
      assert ns[5..] == [];
    }
  }

  lemma CodeShape(c: Color, base: nat)
    ensures c == Reset ==> ColorCode(c, base) == [base + 9]
    ensures c.Indexed? ==> ColorCode(c, base) == [base + 8, 5, c.i]
    ensures c.Rgb? ==> ColorCode(c, base) == [base + 8, 2, c.r, c.g, c.b]
    ensures Basic(c).None? ==> c == Reset || c.Indexed? || c.Rgb?
  {
  }

  lemma BgSelected(s: Style, c: Color)
    ensures ColorCode(c, 40) != [] && Rendition(s, ColorCode(c, 40)) == s.(bg := c)
  {
    var ns := ColorCode(c, 40);
    hide ColorCode;
    var t := s.(bg := c);
    RenditionNone(t);
    CodeShape(c, 40);
    if Basic(c).Some? {
      BasicChosen(c, 40);
      assert ns[1..] == [];
    } else if c == Reset {
      assert ns[1..] == [];
    } else if c.Indexed? {
      assert ns[3..] == [];
    } else {
      assert ns[5..] == [];
    }
  }

  lemma ResetSelected(s: Style)
    ensures Rendition(s, [0]) == ResetStyle()
  {
    RenditionNone(ResetStyle());
    assert [0 as nat][1..] == [];
  }

  lemma ModSelected(s: Style, n: nat)
    requires 1 <= n <= 9
    ensures Rendition(s, [n]) == s.(mods := s.mods + {n})
  {
    RenditionNone(s.(mods := s.mods + {n}));
    assert [n][1..] == [];
  }

  function From(m: Modifier, n: nat): Modifier { set k | k in m && n <= k }

  lemma {:induction false} AddModsAt(t: Term, f: Font, b: Back, m: Modifier, n: nat)
    requires At(t, f, b).partial == [] && 1 <= n <= 10
    ensures var a := Closed(At(t, f, b));
            Closed(At(t, f, AddMods(b, m, n))) == a.(style := a.style.(mods := a.style.mods + From(m, n)))
    ensures var d := AddMods(b, m, n); d.cursor == b.cursor && d.style == b.style
    decreases 10 - n
  {
    hide At, Sgr, Rendition;
    var a := At(t, f, b);
    if n > 9 {
      assert From(m, n) == {};
      assert a.style.mods + {} == a.style.mods;
    } else {
      if n in m {
        SgrAt(t, f, b, [n]);
        ModSelected(a.style, n);
        SgrKeeps(b, [n]);
        AddModsAt(t, f, Sgr(b, [n]), m, n + 1);
        assert a.style.mods + {n} + From(m, n + 1) == a.style.mods + From(m, n);
      } else {
        AddModsAt(t, f, b, m, n + 1);
        assert From(m, n + 1) == From(m, n);
      }
    }
  }

  lemma SgrKeeps(b: Back, ns: seq<nat>)
    ensures Sgr(b, ns).cursor == b.cursor && Sgr(b, ns).style == b.style
  {
  }

  lemma SetColorsAt(t: Term, f: Font, b: Back, fg: Color, bg: Color, skipFg: bool, skipBg: bool)
    requires At(t, f, b).partial == []
    requires skipFg ==> At(t, f, b).style.fg == fg
    requires skipBg ==> At(t, f, b).style.bg == bg
    ensures var a := Closed(At(t, f, b));
            Closed(At(t, f, SetBg(SetFg(b, fg, skipFg), bg, skipBg))) == a.(style := a.style.(fg := fg, bg := bg))
    ensures SetBg(SetFg(b, fg, skipFg), bg, skipBg).cursor == b.cursor
  {
    hide At, Sgr, Rendition, ColorCode;
    var a := At(t, f, b);
    FgSelected(a.style, fg);
    if !skipFg {
      SgrAt(t, f, b, ColorCode(fg, 30));
      SgrKeeps(b, ColorCode(fg, 30));
    }
    var c := SetFg(b, fg, skipFg);
    assert Closed(At(t, f, c)) == Closed(a).(style := a.style.(fg := fg));
    BgSelected(At(t, f, c).style, bg);
    if !skipBg {
      SgrAt(t, f, c, ColorCode(bg, 40));
      SgrKeeps(c, ColorCode(bg, 40));
    }
  }

  /** From a style the terminal is in, the codes lead to exactly the style asked for. */
  lemma SetStyleAt(t: Term, f: Font, b: Back, s: Style)
    requires At(t, f, b).partial == [] && At(t, f, b).style == b.style
    ensures Closed(At(t, f, SetStyle(b, s))) == Closed(At(t, f, b)).(style := s)
    ensures SetStyle(b, s).cursor == b.cursor && SetStyle(b, s).style == s
  {
    hide Show, Sgr, SetFg, SetBg, AddMods, Rendition;
    var a := At(t, f, b);
    if s.mods != b.style.mods {
      SgrAt(t, f, b, [0]);
      ResetSelected(a.style);
      SgrKeeps(b, [0]);
      var c := Sgr(b, [0]);
      AddModsAt(t, f, c, s.mods, 1);
      var d := AddMods(c, s.mods, 1);
      assert From(s.mods, 1) == s.mods && {} + s.mods == s.mods;
      SetColorsAt(t, f, d, s.fg, s.bg, s.fg == Reset, s.bg == Reset);
    } else {
      SetColorsAt(t, f, b, s.fg, s.bg, s.fg == b.style.fg, s.bg == b.style.bg);
    }
  }

  // --- cells -----------------------------------------------------------------------------------------

  /** Backend and terminal agree: nothing is begun, the style is the tracked one, and a
      tracked cursor that is on the screen is the terminal's. */
  ghost predicate InSync(t: Term, f: Font, b: Back) {
    var a := At(t, f, b);
    && a.partial == [] && a.style == b.style && Proper(f, a)
    && (b.cursor.Some? && b.cursor.value.x < a.cols && b.cursor.value.y < a.rows ==> a.cursor == b.cursor.value)
  }

  /** The columns of the cell are on the screen. */
  predicate OnScreen(f: Font, t: Term, c: Cell) {
    c.at.x + Span(f, c.symbol) <= t.cols && c.at.y < t.rows
  }

  predicate AllOnScreen(f: Font, t: Term, cells: seq<Cell>) {
    forall i :: 0 <= i < |cells| ==> OnScreen(f, t, cells[i])
  }

  predicate AllWhole(f: Font, cells: seq<Cell>) {
    forall i :: 0 <= i < |cells| ==> Whole(f, cells[i].symbol)
  }

  function PaintCell(f: Font, m: Grid, c: Cell): Grid {
    Put(m, c.at, Glyph(c.symbol, c.style), Span(f, c.symbol))
  }

  function PaintAll(f: Font, m: Grid, cells: seq<Cell>): Grid
    decreases |cells|
  {
    if cells == [] then m else PaintAll(f, PaintCell(f, m, cells[0]), cells[1..])
  }

  lemma MoveKeeps(b: Back, p: Position)
    ensures MoveTo(b, p).style == b.style && MoveTo(b, p).cursor == Some(p)
  {
  }

  /** Before its symbol is written, the cell's position and style are the terminal's. */
  lemma ReadyAt(t: Term, f: Font, b: Back, c: Cell)
    requires InSync(t, f, b) && OnScreen(f, At(t, f, b), c)
    ensures var d := SetStyle(if b.cursor == Some(c.at) then b else MoveTo(b, c.at), c.style);
            && Closed(At(t, f, d)) == Closed(At(t, f, b)).(cursor := c.at, style := c.style)
            && d.style == c.style
  {
    hide Show, MoveTo, SetStyle, Proper;
    var moved := if b.cursor == Some(c.at) then b else MoveTo(b, c.at);
    if b.cursor != Some(c.at) {
      MoveAt(t, f, b, c.at);
      MoveKeeps(b, c.at);
    }
    SetStyleAt(t, f, moved, c.style);
  }

  lemma DrawCellAt(t: Term, f: Font, b: Back, c: Cell)
    requires InSync(t, f, b) && OnScreen(f, At(t, f, b), c) && Whole(f, c.symbol)
    ensures var a, d := At(t, f, b), DrawCell(b, c);
            && InSync(t, f, d) && At(t, f, d).cols == a.cols && At(t, f, d).rows == a.rows
            && At(t, f, d).grid == PaintCell(f, a.grid, c)
  {
    hide Show, MoveTo, SetStyle, Whole, Put, Proper;
    ReadyAt(t, f, b, c);
    var styled := SetStyle(if b.cursor == Some(c.at) then b else MoveTo(b, c.at), c.style);
    var ready := At(t, f, styled);
    ShowAppend(t, f, styled.bytes, c.symbol);
    SymbolShown(ready, f, c.symbol);
    assert Proper(f, ready) by { SameGrid(f, At(t, f, b), ready); }
    ShowProper(f, ready, c.symbol);
  }

  lemma SameGrid(f: Font, t: Term, u: Term)
    requires Proper(f, t) && u.grid == t.grid && u.partial == t.partial
    ensures Proper(f, u)
  {
  }

  lemma {:induction false} DrawCellsAt(t: Term, f: Font, b: Back, cells: seq<Cell>)
    requires InSync(t, f, b) && AllOnScreen(f, At(t, f, b), cells) && AllWhole(f, cells)
    ensures var a, d := At(t, f, b), DrawCells(b, cells);
            && InSync(t, f, d) && At(t, f, d).cols == a.cols && At(t, f, d).rows == a.rows
            && At(t, f, d).grid == PaintAll(f, a.grid, cells)
    decreases |cells|
  {
    hide At, DrawCell, PaintCell, Whole;
    if cells != [] {
      DrawCellAt(t, f, b, cells[0]);
      DrawCellsAt(t, f, DrawCell(b, cells[0]), cells[1..]);
    }
  }

  /** For any frame of on-screen cells in any order whose symbols are whole glyphs: the bytes
      make the terminal show exactly those cells with exactly their colours and modifiers on
      top of what it showed, end in the reset style, and leave its cursor where the backend
      tracks it, even though glyphs that are not printable ASCII leave it anywhere. */
  lemma DrawPaintsExactly(t: Term, f: Font, b: Back, cells: seq<Cell>)
    requires InSync(t, f, b) && AllOnScreen(f, At(t, f, b), cells) && AllWhole(f, cells)
    ensures var d := Draw(b, cells);
            && InSync(t, f, d) && d.style == ResetStyle() && At(t, f, d).style == ResetStyle()
            && At(t, f, d).grid == PaintAll(f, At(t, f, b).grid, cells)
  {
    hide Show, Sgr, DrawCells, PaintAll, Rendition, Proper;
    DrawCellsAt(t, f, b, cells);
    var d := DrawCells(b, cells);
    if d.style != ResetStyle() {
      SgrAt(t, f, d, [0]);
      ResetSelected(d.style);
      SgrKeeps(d, [0]);
      SameGrid(f, At(t, f, d), At(t, f, Sgr(d, [0])));
    }
  }

  // --- what a frame touches ----------------------------------------------------------------------

  /** Neither on the cell nor next to it: what lies next to it may be half of a glyph the
      cell overwrites. */
  predicate Apart(f: Font, c: Cell, p: Position) {
    c.at.y != p.y || p.x + 1 < c.at.x || p.x > c.at.x + Span(f, c.symbol)
  }

  /** A frame leaves every position apart from its cells alone. */
  lemma {:induction false} Untouched(f: Font, m: Grid, cells: seq<Cell>, p: Position)
    requires forall i :: 0 <= i < |cells| ==> Apart(f, cells[i], p)
    ensures (p in PaintAll(f, m, cells) <==> p in m) && (p in m ==> PaintAll(f, m, cells)[p] == m[p])
    decreases |cells|
  {
    hide Span;
    if cells != [] {
      Untouched(f, PaintCell(f, m, cells[0]), cells[1..], p);
    }
  }

  /** No column of one cell is a column of the other. */
  predicate Separate(f: Font, c: Cell, d: Cell) {
    c.at.y != d.at.y || c.at.x + Span(f, c.symbol) <= d.at.x || d.at.x + Span(f, d.symbol) <= c.at.x
  }

  predicate AllSeparate(f: Font, cells: seq<Cell>) {
    forall i, j :: 0 <= i < j < |cells| ==> Separate(f, cells[i], cells[j])
  }

  predicate HalfAt(m: Grid, p: Position) { p in m && m[p].RightHalf? }

  /** What shows a cell: its glyph, and its right half in the next column if it is wide;
      nothing of it in the column after. */
  predicate ShowsCell(f: Font, m: Grid, c: Cell) {
    var n := Span(f, c.symbol);
    && c.at in m && m[c.at] == Glyph(c.symbol, c.style)
    && (n == 2 ==> HalfAt(m, Right(c.at, 1)))
    && !HalfAt(m, Right(c.at, n))
  }

  lemma PaintedShows(f: Font, m: Grid, c: Cell)
    ensures ShowsCell(f, PaintCell(f, m, c), c)
  {
    hide Span;
  }

  lemma StillShows(f: Font, m: Grid, c: Cell, d: Cell)
    requires ShowsCell(f, m, c) && Separate(f, c, d)
    ensures ShowsCell(f, PaintCell(f, m, d), c)
  {
    hide Span;
  }

  lemma {:induction false} RestStillShows(f: Font, m: Grid, c: Cell, cells: seq<Cell>)
    requires ShowsCell(f, m, c) && forall i :: 0 <= i < |cells| ==> Separate(f, c, cells[i])
    ensures ShowsCell(f, PaintAll(f, m, cells), c)
    decreases |cells|
  {
    hide Span, Separate, ShowsCell, PaintCell;
    if cells != [] {
      StillShows(f, m, c, cells[0]);
      RestStillShows(f, PaintCell(f, m, cells[0]), c, cells[1..]);
    }
  }

  /** A cell shows if no later one overlaps it; a wide one covers the next column too. */
  lemma {:induction false} LastShows(f: Font, m: Grid, cells: seq<Cell>, i: nat)
    requires i < |cells| && forall j :: i < j < |cells| ==> Separate(f, cells[i], cells[j])
    ensures ShowsCell(f, PaintAll(f, m, cells), cells[i])
    decreases |cells|
  {
    hide Span, Separate, ShowsCell, PaintCell;
    var n := PaintCell(f, m, cells[0]);
    if i == 0 {
      PaintedShows(f, m, cells[0]);
      RestStillShows(f, n, cells[0], cells[1..]);
    } else {
      LastShows(f, n, cells[1..], i - 1);
    }
  }

  // --- exactly when --------------------------------------------------------------------------------

  /** For any frame of on-screen cells that do not overlap: the terminal shows exactly them if
      and only if every symbol is one whole glyph, a character that is neither a control nor
      a combining one, and what combines with it. */
  lemma FrameShownExactly(t: Term, f: Font, b: Back, cells: seq<Cell>)
    requires InSync(t, f, b) && AllOnScreen(f, At(t, f, b), cells) && AllSeparate(f, cells)
    ensures At(t, f, Draw(b, cells)).grid == PaintAll(f, At(t, f, b).grid, cells) <==> AllWhole(f, cells)
  {
    hide Show, PaintAll, Draw, Whole, OnScreen, Separate;
    if AllWhole(f, cells) {
      DrawPaintsExactly(t, f, b, cells);
    } else {
      var i :| 0 <= i < |cells| && !Whole(f, cells[i].symbol);
      LastShows(f, At(t, f, b).grid, cells, i);
      DrawGrows(b, cells);
      var rest := Draw(b, cells).bytes[|b.bytes|..];
      assert Draw(b, cells).bytes == b.bytes + rest;
      ShowAppend(t, f, b.bytes, rest);
      ShowProper(f, At(t, f, b), rest);
    }
  }

  lemma AddModsGrows(b: Back, m: Modifier, n: nat)
    ensures b.bytes <= AddMods(b, m, n).bytes
    decreases 10 - n
  {
    hide CsiSeq;
    if n <= 9 {
      AddModsGrows(if n in m then Sgr(b, [n]) else b, m, n + 1);
    }
  }

  lemma DrawCellGrows(b: Back, c: Cell)
    ensures b.bytes <= DrawCell(b, c).bytes
  {
    hide CsiSeq, AddMods, ColorCode;
    var moved := if b.cursor == Some(c.at) then b else MoveTo(b, c.at);
    AddModsGrows(Sgr(moved, [0]), c.style.mods, 1);
  }

  lemma {:induction false} DrawCellsGrow(b: Back, cells: seq<Cell>)
    ensures b.bytes <= DrawCells(b, cells).bytes
    decreases |cells|
  {
    hide DrawCell;
    if cells != [] {
      DrawCellGrows(b, cells[0]);
      DrawCellsGrow(DrawCell(b, cells[0]), cells[1..]);
    }
  }

  lemma DrawGrows(b: Back, cells: seq<Cell>)
    ensures b.bytes <= Draw(b, cells).bytes
  {
    hide DrawCells, CsiSeq;
    DrawCellsGrow(b, cells);
  }

  /** A symbol that is itself a control sequence. */
  function EraseAll(): seq<byte> { CsiSeq([2], 0x4a) }

  lemma EraseCellAt(t: Term, f: Font, b: Back, c: Cell)
    requires InSync(t, f, b) && OnScreen(f, At(t, f, b), c) && c.symbol == EraseAll()
    ensures var a, d := At(t, f, b), DrawCell(b, c);
            && InSync(t, f, d) && At(t, f, d).grid == map[] && At(t, f, d).cols == a.cols && At(t, f, d).rows == a.rows
  {
    hide Show, MoveTo, SetStyle, Numbers, CsiSeq, Params;
    ReadyAt(t, f, b, c);
    var styled := SetStyle(if b.cursor == Some(c.at) then b else MoveTo(b, c.at), c.style);
    EmitAt(t, f, styled, [2], 0x4a);
    ParamsRead([2]);
    assert |c.symbol| > 1 by { SequenceLong([2], 0x4a); }
  }

  lemma SequenceLong(ns: seq<nat>, final: byte)
    ensures |CsiSeq(ns, final)| > 1
  {
    hide Params;
  }

  lemma {:induction false} DrawCellsAppend(b: Back, xs: seq<Cell>, ys: seq<Cell>)
    ensures DrawCells(b, xs + ys) == DrawCells(DrawCells(b, xs), ys)
    decreases |xs|
  {
    hide DrawCell;
    if xs == [] {
      assert xs + ys == ys;
    } else {
      assert (xs + ys)[1..] == xs[1..] + ys;
      DrawCellsAppend(DrawCell(b, xs[0]), xs[1..], ys);
    }
  }

  /** A frame with an erase sequence for a symbol: everything the terminal showed, and every
      cell drawn before it, is gone. The backend writes symbols unchecked. */
  lemma EscapeErases(t: Term, f: Font, b: Back, cells: seq<Cell>, i: nat)
    requires InSync(t, f, b) && AllOnScreen(f, At(t, f, b), cells)
    requires i < |cells| && cells[i].symbol == EraseAll()
    requires AllWhole(f, cells[..i]) && AllWhole(f, cells[i + 1..])
    ensures At(t, f, Draw(b, cells)).grid == PaintAll(f, map[], cells[i + 1..])
  {
    hide At, DrawCells, DrawCell, InSync, OnScreen, Whole, Sgr, PaintAll;
    var before, after := cells[..i], cells[i + 1..];
    assert cells == before + ([cells[i]] + after);
    DrawCellsAppend(b, before, [cells[i]] + after);
    DrawCellsAppend(DrawCells(b, before), [cells[i]], after);
    DrawCellsAt(t, f, b, before);
    var d := DrawCells(b, before);
    assert OnScreen(f, At(t, f, d), cells[i]) by { SameScreen(f, At(t, f, b), At(t, f, d), cells[i]); }
    EraseCellAt(t, f, d, cells[i]);
    DrawCellsOne(d, cells[i]);
    var e := DrawCell(d, cells[i]);
    forall j | 0 <= j < |after| ensures OnScreen(f, At(t, f, e), after[j]) {
      SameScreen(f, At(t, f, b), At(t, f, e), cells[i + 1 + j]);
    }
    DrawPaintsExactly(t, f, e, after);
  }

  lemma SameScreen(f: Font, t: Term, u: Term, c: Cell)
    requires OnScreen(f, t, c) && u.cols == t.cols && u.rows == t.rows
    ensures OnScreen(f, u, c)
  {
  }

  lemma DrawCellsOne(b: Back, c: Cell)
    ensures DrawCells(b, [c]) == DrawCell(b, c)
  {
    hide DrawCell;
    var none: seq<Cell> := [];
    assert [c][1..] == none;
  }

  /** A fresh backend and a terminal in the reset style agree, and moving the cursor or
      clearing keeps them so. */
  lemma OthersKeepSync(t: Term, f: Font, b: Back, p: Position)
    requires t.partial == [] && t.style == ResetStyle() && Proper(f, t)
    ensures InSync(t, f, NewBackend())
    ensures InSync(t, f, b) ==>
              InSync(t, f, MoveTo(b, p)) && (p.x < At(t, f, b).cols && p.y < At(t, f, b).rows ==> At(t, f, MoveTo(b, p)).cursor == p)
    ensures InSync(t, f, b) ==> InSync(t, f, Clear(b)) && At(t, f, Clear(b)).grid == map[]
  {
    hide Params, CsiSeq, Numbers, Whole;
    if InSync(t, f, b) {
      MoveAt(t, f, b, p);
      EmitAt(t, f, b, [2], 0x4a);
      ParamsRead([2]);
    }
  }
}
