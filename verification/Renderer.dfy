/** Rendering to a byte buffer for a terminal at the far end: the escape sequences the backend
    emits, skipping cursor and style codes it believes redundant. */
module Renderer {
  import opened Bytes
  import opened Ansi

  datatype Color =
    | Reset
    | Black | Red | Green | Yellow | Blue | Magenta | Cyan | Gray
    | DarkGray | LightRed | LightGreen | LightYellow | LightBlue | LightMagenta | LightCyan | White
    | Rgb(r: byte, g: byte, b: byte)
    | Indexed(i: byte)

  /** Modifiers by their SGR number: bold, dim, italic, underlined, slow and rapid blink,
      reversed, hidden, crossed out. */
  type Modifier = m: set<nat> | forall n :: n in m ==> 1 <= n <= 9 witness {}

  datatype Style = Style(fg: Color, bg: Color, mods: Modifier)

  function ResetStyle(): Style { Style(Reset, Reset, {}) }

  datatype Position = Position(x: nat, y: nat)

  datatype Cell = Cell(at: Position, symbol: seq<byte>, style: Style)

  // --- escape sequences ------------------------------------------------------------------------

  /** Numbers in decimal, semicolons between them. */
  function Params(ns: seq<nat>): seq<byte> {
    if ns == [] then []
    else if |ns| == 1 then Dec(ns[0])
    else Dec(ns[0]) + [SEMICOLON] + Params(ns[1..])
  }

  function CsiSeq(ns: seq<nat>, final: byte): seq<byte> {
    [ESC, 0x5b] + Params(ns) + [final]
  }

  /** Offset of a basic colour among eight, and whether it is the bright one. */
  function Basic(c: Color): Option<(nat, bool)> {
    match c
    case Black => Some((0, false)) case Red => Some((1, false)) case Green => Some((2, false))
    case Yellow => Some((3, false)) case Blue => Some((4, false)) case Magenta => Some((5, false))
    case Cyan => Some((6, false)) case Gray => Some((7, false))
    case DarkGray => Some((0, true)) case LightRed => Some((1, true)) case LightGreen => Some((2, true))
    case LightYellow => Some((3, true)) case LightBlue => Some((4, true)) case LightMagenta => Some((5, true))
    case LightCyan => Some((6, true)) case White => Some((7, true))
    case _ => None
  }

  /** `ansi_color`: the SGR numbers of a colour, from 30 for the foreground and 40 for the
      background. */
  function ColorCode(c: Color, base: nat): seq<nat> {
    match c
    case Reset => [base + 9]
    case Rgb(r, g, b) => [base + 8, 2, r, g, b]
    case Indexed(i) => [base + 8, 5, i]
    case _ =>
      var (offset, bright) := Basic(c).value;
      [base + (if bright then 60 else 0) + offset]
  }

  // --- the backend --------------------------------------------------------------------------------

  /** What was emitted, where the peer's cursor is believed to be, and its style. */
  datatype Back = Back(bytes: seq<byte>, cursor: Option<Position>, style: Style)

  function Emit(b: Back, bytes: seq<byte>): Back {
    b.(bytes := b.bytes + bytes)
  }

  function Sgr(b: Back, ns: seq<nat>): Back { Emit(b, CsiSeq(ns, 0x6d)) }

  /** Positions are 1-based on the wire. */
  function MoveTo(b: Back, p: Position): Back {
    Emit(b, CsiSeq([p.y + 1, p.x + 1], 0x48)).(cursor := Some(p))
  }

  /** The codes of the modifiers from `n` up. */
  function AddMods(b: Back, m: Modifier, n: nat): Back
    decreases 10 - n
  {
    if n > 9 then b else AddMods(if n in m then Sgr(b, [n]) else b, m, n + 1)
  }

  function SetFg(b: Back, c: Color, skip: bool): Back { if skip then b else Sgr(b, ColorCode(c, 30)) }
  function SetBg(b: Back, c: Color, skip: bool): Back { if skip then b else Sgr(b, ColorCode(c, 40)) }

  /** From the current style to another: a change of modifiers resets and rebuilds. */
  function SetStyle(b: Back, s: Style): Back {
    var d :=
      if s.mods != b.style.mods then
        SetBg(SetFg(AddMods(Sgr(b, [0]), s.mods, 1), s.fg, s.fg == Reset), s.bg, s.bg == Reset)
      else SetBg(SetFg(b, s.fg, s.fg == b.style.fg), s.bg, s.bg == b.style.bg);
    d.(style := s)
  }

  predicate Printable(symbol: seq<byte>) { |symbol| == 1 && 0x20 <= symbol[0] < 0x7f }

  /** One cell: move if needed, restyle if needed, write the symbol, whatever it holds; only a
      printable ASCII symbol leaves the cursor known. */
  function DrawCell(b: Back, c: Cell): Back {
    var moved := if b.cursor == Some(c.at) then b else MoveTo(b, c.at);
    var styled := SetStyle(moved, c.style);
    Emit(styled, c.symbol).(cursor := if Printable(c.symbol) then Some(Position(c.at.x + 1, c.at.y)) else None)
  }

  function DrawCells(b: Back, cells: seq<Cell>): Back
    decreases |cells|
  {
    if cells == [] then b else DrawCells(DrawCell(b, cells[0]), cells[1..])
  }

  /** Whatever was drawn, the peer is left in the reset style. */
  function Settle(b: Back): Back {
    if b.style == ResetStyle() then b else Sgr(b, [0]).(style := ResetStyle())
  }

  function Draw(b: Back, cells: seq<Cell>): Back { Settle(DrawCells(b, cells)) }

  function Clear(b: Back): Back { Emit(b, CsiSeq([2], 0x4a)) }

  function NewBackend(): Back { Back([], None, ResetStyle()) }
}
