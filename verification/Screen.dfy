/** A terminal reading bytes: control sequences (ECMA-48) and UTF-8 characters. It has a grid of
    glyphs, a cursor and a graphic rendition. What it makes of characters beyond ASCII is its
    own affair: which of them are two columns wide, which combine with the one before, and
    where they leave the cursor. */
module Screen {
  import opened Bytes
  import opened Ansi
  import opened Renderer

  /** What a position shows: the start of a glyph, or the right half of a wide one. */
  datatype Shown = Glyph(symbol: seq<byte>, style: Style) | RightHalf

  type Grid = map<Position, Shown>

  /** `partial` is a sequence or character begun and not finished; `last` is the glyph a
      combining character would join; `steps` counts what moved the cursor unpredictably. */
  datatype Term = Term(
    cols: nat,
    rows: nat,
    grid: Grid,
    cursor: Position,
    style: Style,
    partial: seq<byte>,
    last: Option<Position>,
    steps: nat)

  /** The terminal's own affair. */
  datatype Font = Font(wide: seq<byte> -> bool, combining: seq<byte> -> bool, moves: nat -> Position)

  // --- control sequences ------------------------------------------------------------------------

  function FieldValue(s: seq<byte>): nat { if Digits(s) then Decimal(s) else 0 }

  /** Numbers separated by semicolons. */
  function Numbers(s: seq<byte>): (ns: seq<nat>)
    decreases |s|
  {
    var n := FieldEnd(s);
    if n == |s| then [FieldValue(s)] else [FieldValue(s[..n])] + Numbers(s[n + 1..])
  }

  function BasicColor(offset: nat, bright: bool): Color
    requires offset < 8
  {
    match (offset, bright)
    case (0, false) => Black case (1, false) => Red case (2, false) => Green case (3, false) => Yellow
    case (4, false) => Blue case (5, false) => Magenta case (6, false) => Cyan case (7, false) => Gray
    case (0, true) => DarkGray case (1, true) => LightRed case (2, true) => LightGreen case (3, true) => LightYellow
    case (4, true) => LightBlue case (5, true) => LightMagenta case (6, true) => LightCyan case _ => White
  }

  /** A colour chosen by a rendition number, from 30 or 40 up. */
  function ChosenColor(n: nat, base: nat): Option<Color> {
    if base <= n < base + 8 then Some(BasicColor(n - base, false))
    else if n == base + 9 then Some(Reset)
    else if base + 60 <= n < base + 68 then Some(BasicColor(n - base - 60, true))
    else None
  }

  function AsByte(n: nat): byte { n % 256 }

  /** An extended colour and how many numbers it took. */
  function ExtendedColor(ns: seq<nat>): Option<(Color, nat)> {
    if |ns| >= 3 && ns[1] == 5 then Some((Indexed(AsByte(ns[2])), 3))
    else if |ns| >= 5 && ns[1] == 2 then Some((Rgb(AsByte(ns[2]), AsByte(ns[3]), AsByte(ns[4])), 5))
    else None
  }

  /** Select graphic rendition. */
  function Rendition(s: Style, ns: seq<nat>): Style
    decreases |ns|
  {
    if ns == [] then s
    else
      var n := ns[0];
      if n == 0 then Rendition(ResetStyle(), ns[1..])
      else if n <= 9 then Rendition(s.(mods := s.mods + {n}), ns[1..])
      else if n == 38 && ExtendedColor(ns).Some? then
        Rendition(s.(fg := ExtendedColor(ns).value.0), ns[ExtendedColor(ns).value.1..])
      else if n == 48 && ExtendedColor(ns).Some? then
        Rendition(s.(bg := ExtendedColor(ns).value.0), ns[ExtendedColor(ns).value.1..])
      else if ChosenColor(n, 30).Some? then Rendition(s.(fg := ChosenColor(n, 30).value), ns[1..])
      else if ChosenColor(n, 40).Some? then Rendition(s.(bg := ChosenColor(n, 40).value), ns[1..])
      else Rendition(s, ns[1..])
  }

  function Clamp(n: nat, size: nat): nat { if n < size then n else if size > 0 then size - 1 else 0 }

  /** A complete `ESC [ params final`; the cursor never leaves the screen. */
  function Execute(t: Term, params: seq<byte>, final: byte): Term {
    var ns := Numbers(params);
    if final == 0x6d then t.(style := Rendition(t.style, ns))
    else if final == 0x48 && |ns| == 2 && ns[0] > 0 && ns[1] > 0 then
      t.(cursor := Position(Clamp(ns[1] - 1, t.cols), Clamp(ns[0] - 1, t.rows)))
    else if final == 0x4a && ns == [2] then t.(grid := map[])
    else t
  }

  /** One more byte of a control sequence. */
  function TakeCode(t: Term, b: byte): Term
    requires t.partial != []
  {
    var p := t.partial;
    if |p| == 1 then t.(partial := if b == 0x5b then p + [b] else [])
    else if Final(b) then Execute(t.(partial := []), p[2..], b)
    else t.(partial := p + [b])
  }

  // --- characters ---------------------------------------------------------------------------------

  /** C0, DEL and C1. */
  predicate ControlChar(c: seq<byte>)
    requires ValidChar(c)
  {
    (|c| == 1 && (c[0] < 0x20 || c[0] == 0x7f)) || (|c| == 2 && c[0] == 0xc2 && c[1] < 0xa0)
  }

  function Columns(f: Font, c: seq<byte>): (n: nat)
    ensures 1 <= n <= 2
  {
    if |c| > 1 && f.wide(c) then 2 else 1
  }

  predicate Combining(f: Font, c: seq<byte>) { |c| > 1 && f.combining(c) }

  function Right(p: Position, n: nat): Position { Position(p.x + n, p.y) }

  /** A glyph `n` columns wide goes on the grid; half of another one that it overlaps leaves
      the other half blank. */
  function Put(m: Grid, p: Position, g: Shown, n: nat): Grid {
    var left := if p in m && m[p].RightHalf? && p.x > 0 then m - {Position(p.x - 1, p.y)} else m;
    var right := if Right(p, n) in m && m[Right(p, n)].RightHalf? then left - {Right(p, n)} else left;
    if n == 2 then right[p := g][Right(p, 1) := RightHalf] else right[p := g]
  }

  /** The cursor moves on by one only for ASCII short of the last column. */
  function Paint(t: Term, f: Font, c: seq<byte>): Term {
    var next := if |c| == 1 && t.cursor.x + 1 < t.cols then Right(t.cursor, 1) else f.moves(t.steps);
    t.(grid := Put(t.grid, t.cursor, Glyph(c, t.style), Columns(f, c)),
       cursor := next, last := Some(t.cursor), steps := t.steps + 1)
  }

  function Join(t: Term, c: seq<byte>): Term {
    if t.last.Some? && t.last.value in t.grid && t.grid[t.last.value].Glyph? then
      var p := t.last.value;
      t.(grid := t.grid[p := Glyph(t.grid[p].symbol + c, t.grid[p].style)])
    else t
  }

  function TakeChar(t: Term, f: Font, c: seq<byte>): Term
    requires ValidChar(c)
  {
    if ControlChar(c) then t.(cursor := f.moves(t.steps), last := None, steps := t.steps + 1)
    else if Combining(f, c) then Join(t, c)
    else Paint(t, f, c)
  }

  /** A byte with nothing begun; one that leads no character shows nothing. */
  function Begin(t: Term, f: Font, b: byte): Term {
    if b == ESC then t.(partial := [b], last := None)
    else if Width(b) == 1 then TakeChar(t, f, [b])
    else if Width(b) > 1 then t.(partial := [b])
    else t
  }

  /** The start of a character that needs more bytes. */
  predicate Started(s: seq<byte>) {
    && s != [] && |s| < Width(s[0])
    && (|s| > 1 ==> SecondLow(s[0]) <= s[1] <= SecondHigh(s[0]))
    && (forall i :: 2 <= i < |s| ==> Continuation(s[i]))
  }

  function TakeByte(t: Term, f: Font, b: byte): Term {
    var s := t.partial + [b];
    if t.partial == [] then Begin(t, f, b)
    else if t.partial[0] == ESC then TakeCode(t, b)
    else if ValidChar(s) then TakeChar(t.(partial := []), f, s)
    else if Started(s) then t.(partial := s)
    else Begin(t.(partial := []), f, b)
  }

  function Show(t: Term, f: Font, bytes: seq<byte>): Term
    decreases |bytes|
  {
    if bytes == [] then t else Show(TakeByte(t, f, bytes[0]), f, bytes[1..])
  }

  lemma {:induction false} ShowAppend(t: Term, f: Font, a: seq<byte>, b: seq<byte>)
    ensures Show(t, f, a + b) == Show(Show(t, f, a), f, b)
    decreases |a|
  {
    hide TakeByte;
    if a == [] {
      assert a + b == b;
    } else {
      assert (a + b)[1..] == a[1..] + b;
      ShowAppend(TakeByte(t, f, a[0]), f, a[1..], b);
    }
  }

  lemma ShowNothing(t: Term, f: Font)
    ensures Show(t, f, []) == t
  {
  }

  lemma ShowOne(t: Term, f: Font, b: byte)
    ensures Show(t, f, [b]) == TakeByte(t, f, b)
  {
    hide TakeByte;
    var none: seq<byte> := [];
    assert [b][1..] == none;
  }

  // --- a symbol on the grid -------------------------------------------------------------------

  /** Length of the character in front; zero when there is no whole one. */
  function HeadLength(s: seq<byte>): (n: nat)
    ensures n <= |s| && (n > 0 ==> ValidChar(s[..n]))
  {
    if s != [] && Width(s[0]) <= |s| && ValidChar(s[..Width(s[0])]) then Width(s[0]) else 0
  }

  /** Combining characters and nothing else. */
  predicate Marks(f: Font, s: seq<byte>)
    decreases |s|
  {
    var n := HeadLength(s);
    s == [] || (n > 0 && !ControlChar(s[..n]) && Combining(f, s[..n]) && Marks(f, s[n..]))
  }

  /** What a terminal shows as one glyph: a character, not a control, and what combines
      with it. */
  predicate Whole(f: Font, s: seq<byte>) {
    var n := HeadLength(s);
    n > 0 && !ControlChar(s[..n]) && !Combining(f, s[..n]) && Marks(f, s[n..])
  }

  /** Columns of a symbol: those of its first character. */
  function Span(f: Font, s: seq<byte>): (n: nat)
    ensures 1 <= n <= 2
  {
    Columns(f, s[..HeadLength(s)])
  }

  lemma HeadOfChar(c: seq<byte>, rest: seq<byte>)
    requires ValidChar(c)
    ensures HeadLength(c + rest) == |c| && (c + rest)[..|c|] == c && (c + rest)[|c|..] == rest
  {
    assert (c + rest)[..|c|] == c;
  }

  lemma MarksCons(f: Font, c: seq<byte>, rest: seq<byte>)
    requires ValidChar(c) && !ControlChar(c) && Combining(f, c) && Marks(f, rest)
    ensures Marks(f, c + rest)
  {
    hide ValidChar, ControlChar, Combining;
    HeadOfChar(c, rest);
  }

  lemma {:induction false} MarksSnoc(f: Font, s: seq<byte>, c: seq<byte>)
    requires Marks(f, s) && ValidChar(c) && !ControlChar(c) && Combining(f, c)
    ensures Marks(f, s + c)
    decreases |s|
  {
    hide ValidChar, ControlChar, Combining, HeadLength;
    if s == [] {
      MarksCons(f, c, []);
      assert s + c == c + [];
    } else {
      var n := HeadLength(s);
      MarksSnoc(f, s[n..], c);
      MarksCons(f, s[..n], s[n..] + c);
      assert s[..n] + (s[n..] + c) == s + c;
    }
  }

  lemma WholeSnoc(f: Font, s: seq<byte>, c: seq<byte>)
    requires Whole(f, s) && ValidChar(c) && !ControlChar(c) && Combining(f, c)
    ensures Whole(f, s + c)
  {
    hide ValidChar, ControlChar, Combining, Marks;
    var n := HeadLength(s);
    MarksSnoc(f, s[n..], c);
    HeadOfChar(s[..n], s[n..] + c);
    assert s[..n] + (s[n..] + c) == s + c;
  }

  lemma WholeChar(f: Font, c: seq<byte>)
    requires ValidChar(c) && !ControlChar(c) && !Combining(f, c)
    ensures Whole(f, c)
  {
    hide ControlChar, Combining;
    assert c[..|c|] == c;
    var n := HeadLength(c);
    assert n == |c| && c[n..] == [];
  }

  // --- only whole glyphs are ever shown --------------------------------------------------------

  /** Whatever bytes arrive, the grid holds whole glyphs only. */
  predicate Proper(f: Font, t: Term) {
    && (forall p :: p in t.grid && t.grid[p].Glyph? ==> Whole(f, t.grid[p].symbol))
    && (t.partial != [] && t.partial[0] != ESC ==> Started(t.partial))
  }

  lemma PutProper(f: Font, m: Grid, p: Position, g: Shown, n: nat)
    requires g.Glyph? ==> Whole(f, g.symbol)
    requires forall q :: q in m && m[q].Glyph? ==> Whole(f, m[q].symbol)
    ensures var r := Put(m, p, g, n); forall q :: q in r && r[q].Glyph? ==> Whole(f, r[q].symbol)
  {
    hide Whole;
  }

  lemma TakeCharProper(f: Font, t: Term, c: seq<byte>)
    requires Proper(f, t) && t.partial == [] && ValidChar(c)
    ensures Proper(f, TakeChar(t, f, c)) && TakeChar(t, f, c).partial == []
  {
    hide Whole, ControlChar, Combining, ValidChar, Put;
    if ControlChar(c) {
    } else if Combining(f, c) {
      if t.last.Some? && t.last.value in t.grid && t.grid[t.last.value].Glyph? {
        WholeSnoc(f, t.grid[t.last.value].symbol, c);
      }
    } else {
      WholeChar(f, c);
      PutProper(f, t.grid, t.cursor, Glyph(c, t.style), Columns(f, c));
    }
  }

  lemma BeginProper(f: Font, t: Term, b: byte)
    requires Proper(f, t) && t.partial == []
    ensures Proper(f, Begin(t, f, b))
  {
    hide Whole, TakeChar;
    if b != ESC && Width(b) == 1 {
      TakeCharProper(f, t, [b]);
    }
  }

  lemma TakeByteProper(f: Font, t: Term, b: byte)
    requires Proper(f, t)
    ensures Proper(f, TakeByte(t, f, b))
  {
    hide Whole, TakeChar, Begin, Numbers, Rendition, ValidChar, Started;
    var s := t.partial + [b];
    if t.partial == [] {
      BeginProper(f, t, b);
    } else if t.partial[0] == ESC {
    } else if ValidChar(s) {
      TakeCharProper(f, t.(partial := []), s);
    } else if !Started(s) {
      BeginProper(f, t.(partial := []), b);
    }
  }

  lemma {:induction false} ShowProper(f: Font, t: Term, bytes: seq<byte>)
    requires Proper(f, t)
    ensures Proper(f, Show(t, f, bytes))
    decreases |bytes|
  {
    hide Proper, TakeByte;
    if bytes != [] {
      TakeByteProper(f, t, bytes[0]);
      ShowProper(f, TakeByte(t, f, bytes[0]), bytes[1..]);
    }
  }

  // --- reading symbols back -------------------------------------------------------------------------

  /** The bytes of a character gather until it is whole. */
  lemma {:induction false} GathersChar(t: Term, f: Font, c: seq<byte>, k: nat)
    requires ValidChar(c) && 0 < k < |c| && t.partial == c[..k]
    ensures Show(t, f, c[k..]) == TakeChar(t.(partial := []), f, c)
    decreases |c| - k
  {
    hide TakeChar, Begin, TakeCode;
    assert c[..k] + [c[k]] == c[..k + 1];
    assert c[k..][1..] == c[k + 1..];
    var u := TakeByte(t, f, c[k]);
    if k + 1 < |c| {
      assert !ValidChar(c[..k + 1]) && Started(c[..k + 1]);
      GathersChar(u, f, c, k + 1);
      assert u.(partial := []) == t.(partial := []);
    } else {
      assert c[..k + 1] == c;
    }
  }

  lemma CharShown(t: Term, f: Font, c: seq<byte>)
    requires t.partial == [] && ValidChar(c) && c[0] != ESC
    ensures Show(t, f, c) == TakeChar(t, f, c)
  {
    hide TakeChar;
    var u := TakeByte(t, f, c[0]);
    if |c| == 1 {
      assert c == [c[0]];
      ShowOne(t, f, c[0]);
    } else {
      assert [c[0]] == c[..1];
      GathersChar(u, f, c, 1);
      assert u.(partial := []) == t;
    }
  }

  /** Combining characters end up in the glyph before them. */
  lemma {:induction false} MarksShown(t: Term, f: Font, s: seq<byte>)
    requires t.partial == [] && Marks(f, s)
    requires t.last.Some? && t.last.value in t.grid && t.grid[t.last.value].Glyph?
    ensures var p := t.last.value;
            Show(t, f, s) == t.(grid := t.grid[p := Glyph(t.grid[p].symbol + s, t.grid[p].style)])
    decreases |s|
  {
    hide TakeByte, ValidChar, HeadLength, Show;
    var p := t.last.value;
    var g := t.grid[p];
    if s == [] {
      assert g.symbol + s == g.symbol && t.grid[p := g] == t.grid;
      ShowNothing(t, f);
    } else {
      var n := HeadLength(s);
      var c := s[..n];
      CharShown(t, f, c) by { MarkNoEscape(c); }
      var u := t.(grid := t.grid[p := Glyph(g.symbol + c, g.style)]);
      assert s == c + s[n..];
      ShowAppend(t, f, c, s[n..]);
      MarksShown(u, f, s[n..]);
      assert g.symbol + c + s[n..] == g.symbol + s;
    }
  }

  lemma MarkNoEscape(c: seq<byte>)
    requires ValidChar(c) && !ControlChar(c)
    ensures c[0] != ESC
  {
  }

  lemma PutAgain(m: Grid, p: Position, g: Shown, h: Shown, n: nat)
    requires 1 <= n
    ensures Put(m, p, g, n)[p := h] == Put(m, p, h, n) && p in Put(m, p, g, n) && Put(m, p, g, n)[p] == g
  {
  }

  /** A whole symbol goes on the grid at the cursor, in the current style. */
  lemma SymbolShown(t: Term, f: Font, s: seq<byte>)
    requires t.partial == [] && Whole(f, s)
    ensures var u := Show(t, f, s);
            && u.grid == Put(t.grid, t.cursor, Glyph(s, t.style), Span(f, s))
            && u.partial == [] && u.style == t.style && u.cols == t.cols && u.rows == t.rows
            && (Printable(s) && t.cursor.x + 1 < t.cols ==> u.cursor == Right(t.cursor, 1))
  {
    hide TakeByte, ValidChar, Put, Marks, Columns;
    var n := HeadLength(s);
    var c := s[..n];
    CharShown(t, f, c) by { MarkNoEscape(c); }
    var u := Paint(t, f, c);
    PutAgain(t.grid, t.cursor, Glyph(c, t.style), Glyph(s, t.style), Columns(f, c));
    assert s == c + s[n..];
    ShowAppend(t, f, c, s[n..]);
    MarksShown(u, f, s[n..]);
  }

  // --- reading sequences back --------------------------------------------------------------------------

  lemma NumbersField(d: seq<byte>, rest: seq<byte>)
    requires Digits(d)
    ensures Numbers(d) == [Decimal(d)]
    ensures Numbers(d + [SEMICOLON] + rest) == [Decimal(d)] + Numbers(rest)
  {
    FieldOfDigits(d, []);
    assert d + [] == d;
    var s := d + [SEMICOLON] + rest;
    FieldOfDigits(d, [SEMICOLON] + rest);
    assert s == d + ([SEMICOLON] + rest);
    assert s[..|d|] == d && s[|d| + 1..] == rest;
  }

  lemma {:induction false} ParamsRead(ns: seq<nat>)
    requires ns != []
    ensures Numbers(Params(ns)) == ns
    decreases |ns|
  {
    hide Dec, Numbers;
    DecReads(ns[0]);
    if |ns| == 1 {
      NumbersField(Dec(ns[0]), []);
    } else {
      NumbersField(Dec(ns[0]), Params(ns[1..]));
      ParamsRead(ns[1..]);
      assert [ns[0]] + ns[1..] == ns;
    }
  }

  lemma {:induction false} ParamsNoFinals(ns: seq<nat>)
    ensures NoFinals(Params(ns))
    decreases |ns|
  {
    hide Dec;
    if |ns| > 1 {
      ParamsNoFinals(ns[1..]);
    }
  }

  /** Parameter bytes gather until the final byte. */
  lemma {:induction false} GathersParams(t: Term, f: Font, params: seq<byte>)
    requires |t.partial| >= 2 && t.partial[0] == ESC && NoFinals(params)
    ensures Show(t, f, params) == t.(partial := t.partial + params)
    decreases |params|
  {
    hide Execute, Begin, TakeChar, ValidChar, Started;
    if params == [] {
      assert t.partial + params == t.partial;
    } else {
      var u := TakeByte(t, f, params[0]);
      assert u == t.(partial := t.partial + [params[0]]);
      GathersParams(u, f, params[1..]);
      assert t.partial + [params[0]] + params[1..] == t.partial + params;
    }
  }

  lemma OpensCsi(t: Term, f: Font)
    requires t.partial == []
    ensures Show(t, f, [ESC, 0x5b]) == t.(partial := [ESC, 0x5b], last := None)
  {
    hide TakeChar, ValidChar, Started, Execute;
    var one := TakeByte(t, f, ESC);
    assert one == t.(partial := [ESC], last := None);
    ShowOne(t, f, ESC);
    ShowOne(one, f, 0x5b);
    assert [ESC, 0x5b] == [ESC] + [0x5b];
    ShowAppend(t, f, [ESC], [0x5b]);
  }

  /** A control sequence has exactly its effect, and no character joins across it. */
  lemma SequenceShown(t: Term, f: Font, ns: seq<nat>, final: byte)
    requires t.partial == [] && ns != [] && Final(final)
    ensures Show(t, f, CsiSeq(ns, final)) == Execute(t.(last := None), Params(ns), final)
  {
    hide Params, Show, Execute, ValidChar, Started, Begin, TakeChar;
    var open: seq<byte> := [ESC, 0x5b];
    var p := Params(ns);
    ShowAppend(t, f, open + p, [final]);
    ShowAppend(t, f, open, p);
    OpensCsi(t, f);
    ParamsNoFinals(ns);
    var u := t.(partial := open, last := None);
    GathersParams(u, f, p);
    var v := u.(partial := open + p);
    ShowOne(v, f, final);
    assert (open + p)[2..] == p;
    assert v.(partial := []) == t.(last := None);
  }
}
