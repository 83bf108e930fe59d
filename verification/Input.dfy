/** Terminal input: raw bytes from the channel to key events, one key at a time at the front
    of the buffer. */
module Input {
  import opened Bytes
  import opened Seqs
  import opened Ansi

  datatype KeyCode =
    | Char(c: nat)
    | Enter | Tab | BackTab | Backspace | Esc
    | Up | Down | Left | Right
    | Home | End | PageUp | PageDown | Insert | Delete
    | F(n: nat)

  datatype Modifiers = Mods(shift: bool, alt: bool, ctrl: bool)

  datatype KeyEvent = KeyEvent(code: KeyCode, mods: Modifiers)

  function NoMods(): Modifiers { Mods(false, false, false) }

  function Plain(code: KeyCode): KeyEvent { KeyEvent(code, NoMods()) }

  function Ctrl(c: nat): KeyEvent { KeyEvent(Char(c), Mods(false, false, true)) }

  /** Outcome of decoding one key at the front of the buffer. */
  datatype Step = Key(n: nat, event: KeyEvent) | Skip(n: nat) | Incomplete

  // --- single bytes and characters -----------------------------------------------------------

  /** C0 control bytes and DEL. */
  function Control(b: byte): Option<KeyEvent> {
    if b == 0x0d || b == 0x0a then Some(Plain(Enter))
    else if b == 0x09 then Some(Plain(Tab))
    else if b == 0x08 || b == 0x7f then Some(Plain(Backspace))
    else if b == 0x00 then Some(Ctrl(0x20))
    else if b <= 0x1a then Some(Ctrl(0x61 + b - 1))
    else if b == 0x1c then Some(Ctrl(0x5c))
    else if b == 0x1d then Some(Ctrl(0x5d))
    else if b == 0x1e then Some(Ctrl(0x5e))
    else if b == 0x1f then Some(Ctrl(0x5f))
    else None
  }

  /** The low bits of a byte, below the power of two `m`. */
  function Low(b: byte, m: nat): (v: nat)
    requires m > 0
    ensures v < m
  {
    b as int % m
  }

  function CharValue(s: seq<byte>): nat
    requires ValidChar(s)
  {
    if |s| == 1 then s[0]
    else if |s| == 2 then Low(s[0], 32) * 64 + Low(s[1], 64)
    else if |s| == 3 then (Low(s[0], 16) * 64 + Low(s[1], 64)) * 64 + Low(s[2], 64)
    else ((Low(s[0], 8) * 64 + Low(s[1], 64)) * 64 + Low(s[2], 64)) * 64 + Low(s[3], 64)
  }

  /** One UTF-8 character from the front of the buffer. */
  function Utf8(buf: seq<byte>): (r: Step)
    requires buf != []
    ensures r.Key? || r.Skip? ==> 0 < r.n <= |buf|
  {
    var want := Width(buf[0]);
    if want == 0 then Skip(1)
    else if |buf| < want then Incomplete
    else if ValidChar(buf[..want]) then Key(want, Plain(Char(CharValue(buf[..want]))))
    else Skip(1)
  }

  function PlainStep(buf: seq<byte>): (r: Step)
    requires buf != []
    ensures r.Key? || r.Skip? ==> 0 < r.n <= |buf|
  {
    match Control(buf[0])
    case Some(event) => Key(1, event)
    case None => Utf8(buf)
  }

  // --- escape sequences ------------------------------------------------------------------------

  /** Position of the first final byte, or the length when there is none. */
  function FinalAt(s: seq<byte>): (n: nat)
    ensures n <= |s| && (n < |s| ==> Final(s[n]))
    ensures forall i :: 0 <= i < n ==> !Final(s[i])
  {
    if s == [] || Final(s[0]) then 0 else 1 + FinalAt(s[1..])
  }

  /** An unsigned 16-bit number; a plus sign is allowed. */
  function Number(s: seq<byte>): Option<nat> {
    var t := if s != [] && s[0] == 0x2b then s[1..] else s;
    if t != [] && Digits(t) && Decimal(t) <= 65535 then Some(Decimal(t)) else None
  }

  function FirstParam(params: seq<byte>): Option<nat> {
    Number(params[..FieldEnd(params)])
  }

  function SecondParam(params: seq<byte>): Option<nat> {
    var n := FieldEnd(params);
    if n == |params| then None
    else var rest := params[n + 1..]; Number(rest[..FieldEnd(rest)])
  }

  /** xterm: one plus a bit each for shift, alt and control. */
  function ModsOf(param: Option<nat>): Modifiers {
    var v := if param.None? || param.value == 0 then 0 else param.value - 1;
    Mods(v % 2 == 1, v / 2 % 2 == 1, v / 4 % 2 == 1)
  }

  /** `CSI n ~` keys by number. */
  function Tilde(first: Option<nat>): Option<KeyCode> {
    if first.None? then None
    else
      var n := first.value;
      if n == 1 || n == 7 then Some(Home)
      else if n == 2 then Some(Insert)
      else if n == 3 then Some(Delete)
      else if n == 4 || n == 8 then Some(End)
      else if n == 5 then Some(PageUp)
      else if n == 6 then Some(PageDown)
      else if 11 <= n <= 15 then Some(F(n - 10))
      else if 17 <= n <= 21 then Some(F(n - 11))
      else if 23 <= n <= 24 then Some(F(n - 12))
      else None
  }

  function Arrow(b: byte): Option<KeyCode> {
    if b == 0x41 then Some(Up)
    else if b == 0x42 then Some(Down)
    else if b == 0x43 then Some(Right)
    else if b == 0x44 then Some(Left)
    else if b == 0x48 then Some(Home)
    else if b == 0x46 then Some(End)
    else None
  }

  function CsiKey(params: seq<byte>, final: byte, len: nat): Step {
    if final == 0x5a then Key(len, KeyEvent(BackTab, Mods(true, false, false)))
    else
      var code := if final == 0x7e then Tilde(FirstParam(params)) else Arrow(final);
      if code.None? then Skip(len) else Key(len, KeyEvent(code.value, ModsOf(SecondParam(params))))
  }

  /** `ESC [ params final`. */
  function Csi(buf: seq<byte>): (r: Step)
    requires |buf| >= 2
    ensures r.Key? || r.Skip? ==> 0 < r.n <= |buf|
  {
    var end := FinalAt(buf[2..]);
    if end == |buf| - 2 then Incomplete else CsiKey(buf[2..2 + end], buf[2 + end], end + 3)
  }

  /** `ESC O final`. */
  function Ss3(buf: seq<byte>): (r: Step)
    requires |buf| >= 2
    ensures r.Key? || r.Skip? ==> 0 < r.n <= |buf|
  {
    if |buf| == 2 then Incomplete
    else
      var b := buf[2];
      var code := if 0x50 <= b <= 0x53 then Some(F(b - 0x4f)) else Arrow(b);
      if code.None? then Skip(3) else Key(3, Plain(code.value))
  }

  /** A key with ALT held. */
  function WithAlt(s: Step): Step {
    match s
    case Key(n, e) => Key(n + 1, KeyEvent(e.code, Mods(e.mods.shift, true, e.mods.ctrl)))
    case Skip(n) => Skip(n + 1)
    case Incomplete => Incomplete
  }

  /** Input that an escape byte starts; one with nothing after it is the Esc key. */
  function EscStep(buf: seq<byte>): (r: Step)
    requires buf != []
    ensures r.Key? || r.Skip? ==> 0 < r.n <= |buf|
  {
    if |buf| == 1 then Key(1, Plain(Esc))
    else if buf[1] == 0x5b then Csi(buf)
    else if buf[1] == 0x4f then Ss3(buf)
    else if buf[1] == ESC then Key(1, Plain(Esc))
    else WithAlt(PlainStep(buf[1..]))
  }

  function StepAt(buf: seq<byte>): (r: Step)
    requires buf != []
    ensures r.Key? || r.Skip? ==> 0 < r.n <= |buf|
  {
    if buf[0] == ESC then EscStep(buf) else PlainStep(buf)
  }

  // --- the whole buffer --------------------------------------------------------------------------

  /** The keys of a buffer and the bytes left over. */
  function Parse(buf: seq<byte>): (seq<KeyEvent>, seq<byte>)
    decreases |buf|
  {
    if buf == [] then ([], [])
    else
      match StepAt(buf)
      case Incomplete => ([], buf)
      case Skip(n) => Parse(buf[n..])
      case Key(n, e) => var (es, rest) := Parse(buf[n..]); ([e] + es, rest)
  }

  class InputParser {
    var pending: seq<byte>

    constructor ()
      ensures pending == []
    {
      pending := [];
    }

    /** Decodes what it can of the pending and the new bytes; drains what it decoded. */
    method Feed(bytes: seq<byte>) returns (events: seq<KeyEvent>)
      modifies this
      ensures (events, pending) == Parse(old(pending) + bytes)
    {
      hide StepAt;
      pending := pending + bytes;
      events := [];
      var at := 0;
      assert pending[0..] == pending && [] + Parse(pending).0 == Parse(pending).0;
      while at < |pending|
        invariant 0 <= at <= |pending| && pending == old(pending) + bytes
        invariant (events + Parse(pending[at..]).0, Parse(pending[at..]).1) == Parse(pending)
      {
        ghost var buf := pending[at..];
        match StepAt(pending[at..]) {
          case Key(n, event) =>
            assert pending[at + n..] == buf[n..];
            Assoc(events, [event], Parse(buf[n..]).0);
            events := events + [event];
            at := at + n;
          case Skip(n) =>
            assert pending[at + n..] == buf[n..];
            at := at + n;
          case Incomplete =>
            assert events + [] == events;
            break;
        }
      }
      pending := pending[at..];
      assert events + [] == events;
    }
  }
}
