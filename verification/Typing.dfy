/** What the key decoder promises: chunks make no difference unless a read ends in a bare
    escape byte, and every key that has an encoding comes back. */
module Typing {
  import opened Bytes
  import opened Seqs
  import opened Ansi
  import opened Input

  // --- chunks ----------------------------------------------------------------------------------

  lemma {:induction false} FinalStays(a: seq<byte>, b: seq<byte>)
    requires FinalAt(a) < |a|
    ensures FinalAt(a + b) == FinalAt(a)
  {
    if !Final(a[0]) {
      assert (a + b)[1..] == a[1..] + b;
      FinalStays(a[1..], b);
    }
  }

  lemma Utf8Stable(buf: seq<byte>, later: seq<byte>)
    requires buf != [] && !Utf8(buf).Incomplete?
    ensures Utf8(buf + later) == Utf8(buf)
  {
    hide ValidChar, CharValue;
    var want := Width(buf[0]);
    if want <= |buf| {
      assert (buf + later)[..want] == buf[..want];
    }
  }

  lemma PlainStable(buf: seq<byte>, later: seq<byte>)
    requires buf != [] && !PlainStep(buf).Incomplete?
    ensures PlainStep(buf + later) == PlainStep(buf)
  {
    hide Utf8, Control;
    if Control(buf[0]).None? {
      Utf8Stable(buf, later);
    }
  }

  lemma CsiStable(buf: seq<byte>, later: seq<byte>)
    requires |buf| >= 2 && !Csi(buf).Incomplete?
    ensures Csi(buf + later) == Csi(buf)
  {
    hide CsiKey;
    assert (buf + later)[2..] == buf[2..] + later;
    FinalStays(buf[2..], later);
    var end := FinalAt(buf[2..]);
    assert (buf + later)[2..2 + end] == buf[2..2 + end];
  }

  /** A decided step stays decided, but for an escape byte with nothing after it yet. */
  lemma StepStable(buf: seq<byte>, later: seq<byte>)
    requires buf != [] && buf != [ESC] && !StepAt(buf).Incomplete?
    ensures StepAt(buf + later) == StepAt(buf)
  {
    hide Csi, Ss3, PlainStep;
    if buf[0] != ESC {
      PlainStable(buf, later);
    } else if buf[1] == 0x5b {
      CsiStable(buf, later);
    } else if buf[1] == 0x4f {
      Ss3Stable(buf, later);
    } else if buf[1] != ESC {
      assert (buf + later)[1..] == buf[1..] + later;
      PlainStable(buf[1..], later);
    }
  }

  lemma Ss3Stable(buf: seq<byte>, later: seq<byte>)
    requires |buf| >= 2 && !Ss3(buf).Incomplete?
    ensures Ss3(buf + later) == Ss3(buf)
  {
    hide Arrow;
  }

  /** Decoding the buffer comes down to a lone escape byte at its end, and takes it for the
      Esc key. */
  predicate EndsInEsc(buf: seq<byte>)
    decreases |buf|
  {
    if buf == [] then false
    else
      buf == [ESC]
      || match StepAt(buf)
         case Incomplete => false
         case Skip(n) => EndsInEsc(buf[n..])
         case Key(n, _) => EndsInEsc(buf[n..])
  }

  /** The keys of two feeds, and what is left pending. */
  function Feeds(pending: seq<byte>, a: seq<byte>, b: seq<byte>): (seq<KeyEvent>, seq<byte>) {
    var (es, rest) := Parse(pending + a);
    var (fs, left) := Parse(rest + b);
    (es + fs, left)
  }

  lemma {:induction false} ParseJoins(buf: seq<byte>, later: seq<byte>)
    requires !EndsInEsc(buf) || later == [] || later[0] == ESC
    ensures Parse(buf + later) == (Parse(buf).0 + Parse(Parse(buf).1 + later).0, Parse(Parse(buf).1 + later).1)
    decreases |buf|
  {
    hide StepAt;
    if buf == [] {
      assert buf + later == later && [] + later == later;
      assert [] + Parse(later).0 == Parse(later).0;
    } else if buf == [ESC] {
      EscThen(later);
    } else {
      match StepAt(buf)
      case Incomplete => assert [] + Parse(buf + later).0 == Parse(buf + later).0;
      case Skip(n) =>
        StepStable(buf, later);
        assert (buf + later)[n..] == buf[n..] + later;
        ParseJoins(buf[n..], later);
      case Key(n, e) =>
        StepStable(buf, later);
        assert (buf + later)[n..] == buf[n..] + later;
        ParseJoins(buf[n..], later);
        var (es, rest) := Parse(buf[n..]);
        Assoc([e], es, Parse(rest + later).0);
    }
  }

  /** An escape byte before nothing, or before another escape byte, is the Esc key either
      way. */
  lemma EscThen(later: seq<byte>)
    requires later == [] || later[0] == ESC
    ensures Parse([ESC] + later) == (Parse([ESC]).0 + Parse(Parse([ESC]).1 + later).0, Parse(Parse([ESC]).1 + later).1)
  {
    var buf := [ESC] + later;
    var none: seq<byte> := [];
    assert StepAt([ESC]) == Key(1, Plain(Esc)) && [ESC][1..] == none;
    var nothing: seq<KeyEvent> := [];
    assert Parse([ESC]) == ([Plain(Esc)] + Parse(none).0, Parse(none).1);
    assert Parse(none) == (nothing, none) && [Plain(Esc)] + nothing == [Plain(Esc)];
    assert StepAt(buf) == Key(1, Plain(Esc)) && buf[1..] == later && none + later == later;
    assert Parse(buf) == ([Plain(Esc)] + Parse(later).0, Parse(later).1);
  }

  /** Two feeds give the keys and the leftover of one, unless the first ends by decoding a
      bare escape byte and something other than an escape byte follows. */
  lemma TwoFeedsAreOne(pending: seq<byte>, a: seq<byte>, b: seq<byte>)
    requires !EndsInEsc(pending + a) || b == [] || b[0] == ESC
    ensures Feeds(pending, a, b) == Parse(pending + (a + b))
  {
    assert pending + (a + b) == pending + a + b;
    ParseJoins(pending + a, b);
  }

  /** Decoding that comes down to a lone escape byte: the Esc key if nothing follows,
      otherwise whatever the escape byte and what follows are. */
  lemma {:induction false} EscTail(buf: seq<byte>, later: seq<byte>) returns (keys: seq<KeyEvent>)
    requires EndsInEsc(buf)
    ensures Parse(buf) == (keys + [Plain(Esc)], [])
    ensures Parse(buf + later) == (keys + Parse([ESC] + later).0, Parse([ESC] + later).1)
    decreases |buf|
  {
    hide StepAt;
    if buf == [ESC] {
      keys := [];
      EscAlone();
      assert keys + Parse(buf + later).0 == Parse(buf + later).0 && keys + [Plain(Esc)] == [Plain(Esc)];
    } else {
      StepStable(buf, later);
      var step := StepAt(buf);
      assert (buf + later)[step.n..] == buf[step.n..] + later;
      var rest := EscTail(buf[step.n..], later);
      keys := if step.Key? then [step.event] + rest else rest;
      if step.Key? {
        Assoc([step.event], rest, [Plain(Esc)]);
        Assoc([step.event], rest, Parse([ESC] + later).0);
      }
    }
  }

  lemma EscAlone()
    ensures Parse([ESC]) == ([Plain(Esc)], [])
  {
    var none: seq<byte> := [];
    var nothing: seq<KeyEvent> := [];
    assert StepAt([ESC]) == Key(1, Plain(Esc)) && [ESC][1..] == none;
    assert Parse([ESC]) == ([Plain(Esc)] + Parse(none).0, Parse(none).1);
    assert Parse(none) == (nothing, none) && [Plain(Esc)] + nothing == [Plain(Esc)];
  }

  /** Apart from a sequence that is skipped without a key, an escape byte with something else
      after it never starts with the Esc key. */
  lemma NotTheEscKey(b: seq<byte>)
    requires b != [] && b[0] != ESC && !StepAt([ESC] + b).Skip?
    ensures var keys := Parse([ESC] + b).0; keys == [] || keys[0] != Plain(Esc)
  {
    hide Csi, Ss3, PlainStep;
    var buf := [ESC] + b;
    assert buf[1..] == b && buf[1] == b[0];
    CsiNeverEsc(buf);
  }

  lemma CsiNeverEsc(buf: seq<byte>)
    requires |buf| >= 2
    ensures Csi(buf).Key? ==> Csi(buf).event != Plain(Esc)
    ensures Ss3(buf).Key? ==> Ss3(buf).event != Plain(Esc)
  {
    hide FinalAt, FirstParam, ModsOf, SecondParam;
  }

  /** For a single continuation: after a lone escape byte was taken for the Esc key, the split
      shows in the keys unless nothing, another escape byte, or a sequence that is skipped
      follows. */
  lemma SplitShows(pending: seq<byte>, a: seq<byte>, b: seq<byte>)
    requires EndsInEsc(pending + a) && b != [] && b[0] != ESC && !StepAt([ESC] + b).Skip?
    ensures Feeds(pending, a, b) != Parse(pending + (a + b))
  {
    hide StepAt, Parse;
    var keys := EscTail(pending + a, b);
    assert pending + (a + b) == pending + a + b && [] + b == b;
    NotTheEscKey(b);
    var joined, apart := keys + Parse([ESC] + b).0, keys + [Plain(Esc)] + Parse(b).0;
    assert apart[|keys|] == Plain(Esc);
    if Parse([ESC] + b).0 != [] {
      assert joined[|keys|] == Parse([ESC] + b).0[0];
    }
  }

  /** A bracket, and a sequence within which another one is begun. */
  function Nested(): seq<byte> { [0x5b, ESC, 0x5b, ESC, ESC, 0xff, 0x5b] }

  /** With the escape byte in front: a skipped sequence, then Esc and a bracket. */
  lemma NestedJoined()
    ensures StepAt([ESC] + Nested()).Skip?
    ensures Parse([ESC] + Nested()) == ([Plain(Esc), Plain(Char(0x5b))], [])
  {
    hide PlainStep;
    var whole := [ESC] + Nested();
    var rest := whole[2..];
    assert rest == [ESC, 0x5b] + [ESC, ESC, 0xff, 0x5b];
    TwoThenFinal([ESC, ESC, 0xff, 0x5b]);
    assert StepAt(whole) == Skip(4) && whole[4..] == [ESC, ESC, 0xff, 0x5b];
    EscEscTail();
  }

  /** Without it: a bracket, then a skipped sequence. */
  lemma NestedAlone()
    ensures Parse(Nested()) == ([Plain(Char(0x5b))], [])
  {
    hide Csi, Ss3;
    var b := Nested();
    var inner := b[1..];
    assert b[..1] == [0x5b] && StepAt(b) == Key(1, Plain(Char(0x5b)));
    NestedInner(inner);
    assert Parse(inner) == Parse(inner[6..]);
    var none: seq<byte> := [];
    var nothing: seq<KeyEvent> := [];
    assert inner[6..] == none && Parse(none) == (nothing, none);
    assert [Plain(Char(0x5b))] + nothing == [Plain(Char(0x5b))];
  }

  lemma NestedInner(inner: seq<byte>)
    requires inner == Nested()[1..]
    ensures StepAt(inner) == Skip(6)
  {
    hide PlainStep;
    assert inner[2..] == [ESC, ESC, 0xff, 0x5b];
    FourthIsFinal();
  }

  /** A skipped sequence can hide the split: here both ways give Esc and a bracket. */
  lemma SkippedCanHide()
    ensures EndsInEsc([] + [ESC]) && StepAt([ESC] + Nested()).Skip?
    ensures Feeds([], [ESC], Nested()) == Parse([] + ([ESC] + Nested()))
  {
    hide StepAt, Nested;
    NestedJoined();
    NestedAlone();
    EscAlone();
    var none: seq<byte> := [];
    var b := Nested();
    assert none + b == b && none + [ESC] == [ESC] && none + ([ESC] + b) == [ESC] + b;
    assert [Plain(Esc)] + [Plain(Char(0x5b))] == [Plain(Esc), Plain(Char(0x5b))];
  }

  lemma BracketKey()
    ensures StepAt([0x5b]) == Key(1, Plain(Char(0x5b))) && Parse([0x5b]) == ([Plain(Char(0x5b))], [])
  {
    var s := [0x5b as byte];
    var none: seq<byte> := [];
    var nothing: seq<KeyEvent> := [];
    assert s[..1] == s && s[1..] == none && Parse(none) == (nothing, none);
    assert [Plain(Char(0x5b))] + nothing == [Plain(Char(0x5b))];
  }

  lemma TwoThenFinal(rest: seq<byte>)
    ensures FinalAt([ESC, 0x5b] + rest) == 1
  {
    var s := [ESC, 0x5b] + rest;
    assert s[1..][0] == 0x5b;
  }

  /** Esc by the escape byte after it; then an escape byte with a byte that leads nothing. */
  lemma EscEscTail()
    ensures Parse([ESC, ESC, 0xff, 0x5b]) == ([Plain(Esc), Plain(Char(0x5b))], [])
  {
    var s := [ESC, ESC, 0xff as byte, 0x5b];
    assert StepAt(s) == Key(1, Plain(Esc)) && s[1..] == [ESC, 0xff, 0x5b];
    var t := s[1..];
    assert t[1..] == [0xff, 0x5b] && StepAt(t) == Skip(2) && t[2..] == [0x5b];
    BracketKey();
    assert Parse(t) == Parse([0x5b]);
    assert [Plain(Esc)] + [Plain(Char(0x5b))] == [Plain(Esc), Plain(Char(0x5b))];
  }

  lemma FourthIsFinal()
    ensures FinalAt([ESC, ESC, 0xff, 0x5b]) == 3
  {
    var s := [ESC, ESC, 0xff as byte, 0x5b];
    assert s[1..] == [ESC, 0xff, 0x5b] && s[1..][1..] == [0xff, 0x5b] && s[1..][1..][1..] == [0x5b];
    assert FinalAt([0x5b]) == 0 && FinalAt([0xff, 0x5b]) == 1 && FinalAt([ESC, 0xff, 0x5b]) == 2;
  }

  /** The exact condition, for all continuations: splitting after `a` never matters if and
      only if decoding up to there does not end by taking a lone escape byte for the Esc
      key. */
  lemma SplitMattersExactly(pending: seq<byte>, a: seq<byte>)
    ensures (forall b :: Feeds(pending, a, b) == Parse(pending + (a + b))) <==> !EndsInEsc(pending + a)
  {
    if EndsInEsc(pending + a) {
      var b := [0x5b as byte];
      assert StepAt([ESC] + b).Incomplete?;
      SplitShows(pending, a, b);
    } else {
      forall b ensures Feeds(pending, a, b) == Parse(pending + (a + b)) {
        TwoFeedsAreOne(pending, a, b);
      }
    }
  }

  // --- every key with an encoding comes back ------------------------------------------------------

  /** Unicode scalar values that are not control characters. */
  predicate IsText(c: nat) {
    0x20 <= c <= 0x10ffff && c != 0x7f && !(0xd800 <= c <= 0xdfff)
  }

  function Tail(v: nat): byte { 0x80 + v % 64 }

  function Utf8Encode(c: nat): seq<byte>
    requires c <= 0x10ffff
  {
    if c < 0x80 then [c]
    else if c < 0x800 then [0xc0 + c / 64, Tail(c)]
    else if c < 0x10000 then [0xe0 + c / 4096, Tail(c / 64), Tail(c)]
    else [0xf0 + c / 262144, Tail(c / 4096), Tail(c / 64), Tail(c)]
  }

  lemma TwoByteChar(c: nat)
    requires 0x80 <= c < 0x800
    ensures ValidChar(Utf8Encode(c)) && CharValue(Utf8Encode(c)) == c
  {
    var s := Utf8Encode(c);
    assert s[0] == 0xc0 + c / 64 && s[0] % 32 == c / 64;
  }

  lemma ThreeByteChar(c: nat)
    requires 0x800 <= c < 0x10000 && !(0xd800 <= c <= 0xdfff)
    ensures ValidChar(Utf8Encode(c)) && CharValue(Utf8Encode(c)) == c
  {
    var s := Utf8Encode(c);
    var h, m := c / 4096, c / 64;
    assert m / 64 == h && c == 64 * m + c % 64 && m == 64 * h + m % 64;
    assert s[0] == 0xe0 + h && s[0] % 16 == h;
  }

  /** A number by its six-bit groups. */
  lemma Sextets(c: nat)
    ensures var h, m := c / 4096, c / 64;
            c == (((c / 262144) * 64 + h % 64) * 64 + m % 64) * 64 + c % 64
  {
    var g, h, m := c / 262144, c / 4096, c / 64;
    assert m / 64 == h && h / 64 == g;
  }

  lemma FourByteLead(c: nat)
    requires 0x10000 <= c <= 0x10ffff
    ensures var g, h := c / 262144, c / 4096;
            g <= 4 && (g == 0 ==> 16 <= h % 64) && (g == 4 ==> h % 64 <= 15)
  {
    var h := c / 4096;
    assert 16 <= h <= 271 && c / 262144 == h / 64;
  }

  lemma LowTail(v: nat)
    ensures Low(Tail(v), 64) == v % 64 && Continuation(Tail(v))
  {
  }

  lemma FourByteChar(c: nat)
    requires 0x10000 <= c <= 0x10ffff
    ensures ValidChar(Utf8Encode(c)) && CharValue(Utf8Encode(c)) == c
  {
    hide Tail;
    Sextets(c);
    FourByteLead(c);
    var s := Utf8Encode(c);
    var g := c / 262144;
    LowTail(c);
    LowTail(c / 64);
    LowTail(c / 4096);
    TailIs(c / 4096);
    assert s[0] == 0xf0 + g && Low(s[0], 8) == g;
  }

  lemma TailIs(v: nat)
    ensures Tail(v) == 0x80 + v % 64
  {
  }

  /** A character is what its UTF-8 encoding decodes to. */
  lemma CharBack(c: nat)
    requires IsText(c)
    ensures Utf8(Utf8Encode(c)) == Key(|Utf8Encode(c)|, Plain(Char(c))) && Control(Utf8Encode(c)[0]).None?
    ensures Utf8Encode(c)[0] != ESC
  {
    var s := Utf8Encode(c);
    if c < 0x80 {
    } else if c < 0x800 {
      TwoByteChar(c);
    } else if c < 0x10000 {
      ThreeByteChar(c);
    } else {
      FourByteChar(c);
    }
    assert s[..Width(s[0])] == s;
  }

  /** The byte of a control key, where it has one of its own. */
  function CtrlByte(c: nat): Option<byte> {
    if c == 0x20 then Some(0)
    else if 0x61 <= c <= 0x7a && c != 0x68 && c != 0x69 && c != 0x6a && c != 0x6d then Some(c - 0x60)
    else if 0x5c <= c <= 0x5f then Some(c - 0x40)
    else None
  }

  /** The number of a `CSI n ~` key. */
  function TildeNumber(code: KeyCode): Option<nat> {
    match code
    case Insert => Some(2)
    case Delete => Some(3)
    case PageUp => Some(5)
    case PageDown => Some(6)
    case F(n) =>
      if 1 <= n <= 5 then Some(n + 10) else if 6 <= n <= 10 then Some(n + 11) else if 11 <= n <= 12 then Some(n + 12) else None
    case _ => None
  }

  function ArrowByte(code: KeyCode): Option<byte> {
    match code
    case Up => Some(0x41)
    case Down => Some(0x42)
    case Right => Some(0x43)
    case Left => Some(0x44)
    case Home => Some(0x48)
    case End => Some(0x46)
    case _ => None
  }

  /** Keys that reach the application unchanged: a character, alone or with control or alt
      where no other key shares the bytes; the editing keys with or without alt; cursor and
      function keys with any modifiers. Esc itself has no encoding that is only its own. */
  predicate Canonical(k: KeyEvent) {
    match k.code
    case Char(c) =>
      && !k.mods.shift
      && (if k.mods.ctrl then CtrlByte(c).Some? else IsText(c) && (k.mods.alt ==> c != 0x5b && c != 0x4f))
    case Enter => !k.mods.shift && !k.mods.ctrl
    case Tab => !k.mods.shift && !k.mods.ctrl
    case Backspace => !k.mods.shift && !k.mods.ctrl
    case BackTab => k.mods == Mods(true, false, false)
    case Esc => false
    case _ => ArrowByte(k.code).Some? || TildeNumber(k.code).Some?
  }

  function ModsNumber(m: Modifiers): (n: nat)
    ensures 1 <= n <= 8 && ModsOf(Some(n)) == m
  {
    1 + (if m.shift then 1 else 0) + (if m.alt then 2 else 0) + (if m.ctrl then 4 else 0)
  }

  function ModsText(m: Modifiers): seq<byte> {
    if m == NoMods() then [] else [SEMICOLON] + Dec(ModsNumber(m))
  }

  /** Bytes for a key without alt that escape sequences do not carry. */
  function Simple(code: KeyCode, ctrl: bool): seq<byte>
    requires Canonical(KeyEvent(code, Mods(false, false, ctrl))) && (code.Char? || code.Enter? || code.Tab? || code.Backspace?)
  {
    match code
    case Char(c) => if ctrl then [CtrlByte(c).value] else Utf8Encode(c)
    case Enter => [0x0d]
    case Tab => [0x09]
    case Backspace => [0x7f]
  }

  function CsiText(params: seq<byte>, final: byte): seq<byte> {
    [ESC, 0x5b] + params + [final]
  }

  /** The bytes a terminal sends for a key. */
  function Encode(k: KeyEvent): seq<byte>
    requires Canonical(k)
  {
    if k.code.Char? || k.code.Enter? || k.code.Tab? || k.code.Backspace? then
      (if k.mods.alt then [ESC] else []) + Simple(k.code, k.mods.ctrl)
    else if k.code.BackTab? then CsiText([], 0x5a)
    else if ArrowByte(k.code).Some? then
      CsiText(if k.mods == NoMods() then [] else Dec(1) + ModsText(k.mods), ArrowByte(k.code).value)
    else if k.code.F? && k.code.n <= 4 && k.mods == NoMods() then [ESC, 0x4f, 0x4f + k.code.n]
    else CsiText(Dec(TildeNumber(k.code).value) + ModsText(k.mods), 0x7e)
  }

  lemma SimpleBack(code: KeyCode, ctrl: bool)
    requires Canonical(KeyEvent(code, Mods(false, false, ctrl))) && (code.Char? || code.Enter? || code.Tab? || code.Backspace?)
    ensures var s := Simple(code, ctrl);
            && s != [] && s[0] != ESC
            && PlainStep(s) == Key(|s|, KeyEvent(code, Mods(false, false, ctrl)))
            && (code.Char? && !ctrl && code.c != 0x5b && code.c != 0x4f ==> s[0] != 0x5b && s[0] != 0x4f)
            && (!code.Char? || ctrl ==> s[0] < 0x20 || s[0] == 0x7f)
  {
    hide Utf8;
    if code.Char? && !ctrl {
      CharBack(code.c);
    }
  }

  lemma {:induction false} FinalAfter(params: seq<byte>, final: byte)
    requires NoFinals(params) && Final(final)
    ensures FinalAt(params + [final]) == |params|
  {
    if params == [] {
      assert params + [final] == [final];
    } else {
      assert (params + [final])[1..] == params[1..] + [final];
      FinalAfter(params[1..], final);
    }
  }

  lemma CsiBack(params: seq<byte>, final: byte)
    requires NoFinals(params) && Final(final)
    ensures var s := CsiText(params, final);
            StepAt(s) == CsiKey(params, final, |s|) && s != [ESC]
  {
    hide CsiKey;
    var s := CsiText(params, final);
    assert s[2..] == params + [final];
    FinalAfter(params, final);
    assert s[2..2 + |params|] == params;
  }

  lemma NumberBack(n: nat)
    requires n < 100
    ensures Number(Dec(n)) == Some(n)
  {
    DecReads(n);
  }

  /** Both parameters are read back. */
  lemma ParamsBack(n: nat, m: Modifiers)
    requires n < 100
    ensures var s := Dec(n) + ModsText(m);
            FirstParam(s) == Some(n) && ModsOf(SecondParam(s)) == m && NoFinals(s)
  {
    hide Number, Dec, FieldEnd;
    var a, b := Dec(n), ModsText(m);
    FieldOfDigits(a, b);
    NumberBack(n);
    assert (a + b)[..|a|] == a;
    DigitsNoFinals(a);
    if m == NoMods() {
      assert a + b == a;
    } else {
      var d := Dec(ModsNumber(m));
      DigitsNoFinals(d);
      assert (a + b)[|a| + 1..] == d;
      FieldOfDigits(d, []);
      assert d + [] == d && d[..|d|] == d;
      NumberBack(ModsNumber(m));
    }
  }

  lemma DigitsNoFinals(s: seq<byte>)
    requires Digits(s)
    ensures NoFinals(s)
  {
  }

  /** A key decodes from exactly its own bytes. */
  lemma KeyBack(k: KeyEvent)
    requires Canonical(k)
    ensures Encode(k) != [] && Encode(k) != [ESC] && StepAt(Encode(k)) == Key(|Encode(k)|, k)
  {
    hide PlainStep, Csi, Ss3, Dec, FirstParam, SecondParam, ModsOf, ModsNumber, Simple, Utf8Encode, CsiText, FinalAt;
    if k.code.Char? || k.code.Enter? || k.code.Tab? || k.code.Backspace? {
      SimpleKeyBack(k);
    } else if k.code.BackTab? {
      CsiBack([], 0x5a);
    } else if ArrowByte(k.code).Some? {
      ArrowBack(k);
    } else if k.code.F? && k.code.n <= 4 && k.mods == NoMods() {
      assert StepAt(Encode(k)) == Ss3(Encode(k));
      Ss3Back(k.code.n);
    } else {
      TildeBack(k);
    }
  }

  lemma Ss3Back(n: nat)
    requires 1 <= n <= 4
    ensures Ss3([ESC, 0x4f, 0x4f + n]) == Key(3, Plain(F(n)))
  {
  }

  lemma SimpleKeyBack(k: KeyEvent)
    requires Canonical(k) && (k.code.Char? || k.code.Enter? || k.code.Tab? || k.code.Backspace?)
    ensures Encode(k) != [] && Encode(k) != [ESC] && StepAt(Encode(k)) == Key(|Encode(k)|, k)
  {
    hide PlainStep, Csi, Ss3, Simple, Utf8Encode;
    SimpleBack(k.code, k.mods.ctrl);
    var s := Simple(k.code, k.mods.ctrl);
    if k.mods.alt {
      assert ([ESC] + s)[1..] == s;
    } else {
      assert [] + s == s;
    }
  }

  lemma ArrowBack(k: KeyEvent)
    requires Canonical(k) && ArrowByte(k.code).Some?
    ensures Encode(k) != [] && Encode(k) != [ESC] && StepAt(Encode(k)) == Key(|Encode(k)|, k)
  {
    hide StepAt, FirstParam, SecondParam, Dec, CsiText, ModsText;
    var final := ArrowByte(k.code).value;
    if k.mods == NoMods() {
      CsiBack([], final);
      NoParams();
    } else {
      ParamsBack(1, k.mods);
      CsiBack(Dec(1) + ModsText(k.mods), final);
    }
    CsiNotEmpty(if k.mods == NoMods() then [] else Dec(1) + ModsText(k.mods), final);
  }

  lemma NoParams()
    ensures ModsOf(SecondParam([])) == NoMods()
  {
  }

  lemma CsiNotEmpty(params: seq<byte>, final: byte)
    ensures CsiText(params, final) != []
  {
  }

  lemma TildeBack(k: KeyEvent)
    requires Canonical(k) && TildeNumber(k.code).Some? && ArrowByte(k.code).None?
    requires !(k.code.F? && k.code.n <= 4 && k.mods == NoMods())
    ensures Encode(k) != [] && Encode(k) != [ESC] && StepAt(Encode(k)) == Key(|Encode(k)|, k)
  {
    hide StepAt, FirstParam, SecondParam, Dec, CsiText, ModsText, ModsOf;
    var n := TildeNumber(k.code).value;
    ParamsBack(n, k.mods);
    CsiBack(Dec(n) + ModsText(k.mods), 0x7e);
    CsiNotEmpty(Dec(n) + ModsText(k.mods), 0x7e);
  }

  function EncodeAll(ks: seq<KeyEvent>): seq<byte>
    requires forall i :: 0 <= i < |ks| ==> Canonical(ks[i])
  {
    if ks == [] then [] else Encode(ks[0]) + EncodeAll(ks[1..])
  }

  /** Any list of keys but lone Esc, sent in its encoding, is decoded to itself with nothing
      left over. */
  lemma {:induction false} KeysComeBack(ks: seq<KeyEvent>)
    requires forall i :: 0 <= i < |ks| ==> Canonical(ks[i])
    ensures Parse(EncodeAll(ks)) == (ks, [])
  {
    hide Canonical, Encode, StepAt;
    if ks != [] {
      KeyBack(ks[0]);
      var s := Encode(ks[0]);
      StepStable(s, EncodeAll(ks[1..]));
      DropPrefix(s, EncodeAll(ks[1..]));
      KeysComeBack(ks[1..]);
      assert [ks[0]] + ks[1..] == ks;
    }
  }
}
