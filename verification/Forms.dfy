/** Input that no key is canonically sent as: the other forms terminals have for the same keys,
    sequences that stand for no key, and bytes that are no character. */
module Forms {
  import opened Bytes
  import opened Ansi
  import opened Input
  import opened Typing

  /** `CSI n ~` with modifiers. */
  function Tilded(n: nat, m: Modifiers): seq<byte> { CsiText(Dec(n) + ModsText(m), 0x7e) }

  /** Home and End by either of two numbers, F1 to F4 by number, cursor keys in application mode,
      Enter as a line feed, Backspace as BS. */
  predicate OtherForm(k: KeyEvent, s: seq<byte>) {
    || (k.code == Home && (s == Tilded(1, k.mods) || s == Tilded(7, k.mods)))
    || (k.code == End && (s == Tilded(4, k.mods) || s == Tilded(8, k.mods)))
    || (k.code.F? && 1 <= k.code.n <= 4 && s == Tilded(10 + k.code.n, k.mods))
    || (k.mods == NoMods() && ArrowByte(k.code).Some? && s == [ESC, 0x4f, ArrowByte(k.code).value])
    || (k == Plain(Enter) && s == [0x0a])
    || (k == Plain(Backspace) && s == [0x08])
  }

  lemma TildedBack(n: nat, m: Modifiers)
    requires n < 100
    ensures var s := Tilded(n, m);
            && s != [] && s != [ESC]
            && StepAt(s) == (if Tilde(Some(n)).Some? then Key(|s|, KeyEvent(Tilde(Some(n)).value, m)) else Skip(|s|))
  {
    hide StepAt, FirstParam, SecondParam, Dec, CsiText, ModsText, ModsOf;
    ParamsBack(n, m);
    CsiBack(Dec(n) + ModsText(m), 0x7e);
    CsiNotEmpty(Dec(n) + ModsText(m), 0x7e);
  }

  /** Each of them decodes, by all its bytes and no more, to its key. */
  lemma OtherFormsComeBack(k: KeyEvent, s: seq<byte>, rest: seq<byte>)
    requires OtherForm(k, s)
    ensures s != [] && StepAt(s + rest) == Key(|s|, k)
  {
    hide StepAt, Tilded, Dec;
    OtherFormBack(k, s);
    StepStable(s, rest);
  }

  lemma OtherFormBack(k: KeyEvent, s: seq<byte>)
    requires OtherForm(k, s)
    ensures s != [] && s != [ESC] && StepAt(s) == Key(|s|, k)
  {
    hide StepAt, Tilded, Dec;
    if k == Plain(Enter) || k == Plain(Backspace) {
      LoneForms();
    } else if k.mods == NoMods() && ArrowByte(k.code).Some? && s == [ESC, 0x4f, ArrowByte(k.code).value] {
      Ss3Arrow(k.code, s);
    } else {
      var n := if k.code == Home then (if s == Tilded(1, k.mods) then 1 else 7)
               else if k.code == End then (if s == Tilded(4, k.mods) then 4 else 8) else 10 + k.code.n;
      TildedBack(n, k.mods);
    }
  }

  lemma LoneForms()
    ensures StepAt([0x0a]) == Key(1, Plain(Enter)) && StepAt([0x08]) == Key(1, Plain(Backspace))
  {
  }

  lemma Ss3Arrow(code: KeyCode, s: seq<byte>)
    requires ArrowByte(code).Some? && s == [ESC, 0x4f, ArrowByte(code).value]
    ensures StepAt(s) == Key(3, Plain(code))
  {
  }

  /** A parameter is a number of 16 bits, with or without a plus sign and leading zeros. */
  lemma NumbersRead(n: nat, zeros: seq<byte>)
    requires forall i :: 0 <= i < |zeros| ==> zeros[i] == 0x30
    ensures var read := if n <= 65535 then Some(n) else None;
            Number(zeros + Dec(n)) == read && Number([0x2b] + zeros + Dec(n)) == read
  {
    hide Dec;
    var s := zeros + Dec(n);
    ZerosRead(zeros, Dec(n));
    DecReads(n);
    assert ([0x2b] + zeros + Dec(n))[1..] == s;
  }

  lemma {:induction false} ZerosRead(zeros: seq<byte>, s: seq<byte>)
    requires Digits(s) && forall i :: 0 <= i < |zeros| ==> zeros[i] == 0x30
    ensures Digits(zeros + s) && Decimal(zeros + s) == Decimal(s)
    decreases |s|, |zeros|
  {
    var t := zeros + s;
    if s != [] {
      ZerosRead(zeros, s[..|s| - 1]);
      assert t[..|t| - 1] == zeros + s[..|s| - 1];
    } else if zeros != [] {
      ZerosRead(zeros[1..], s);
      assert t[..|t| - 1] == zeros[1..] + s;
    }
  }

  /** A whole control sequence that stands for no key is dropped as a whole: any final byte but
      those of the cursor keys, of BackTab and of the numbered keys, and any other number. */
  lemma OthersSkipped(params: seq<byte>, final: byte, n: nat, m: Modifiers)
    requires NoFinals(params) && Final(final) && n < 100
    requires final !in {0x41, 0x42, 0x43, 0x44, 0x46, 0x48, 0x5a, 0x7e}
    ensures StepAt(CsiText(params, final)) == Skip(|CsiText(params, final)|)
    ensures n == 0 || n == 9 || n == 10 || n == 16 || n == 22 || n > 24 ==> StepAt(Tilded(n, m)) == Skip(|Tilded(n, m)|)
  {
    hide StepAt, Tilded;
    CsiBack(params, final);
    TildedBack(n, m);
  }

  // --- characters --------------------------------------------------------------------------------

  lemma TwoBytesEncode(s: seq<byte>)
    requires ValidChar(s) && |s| == 2
    ensures var c := CharValue(s); 0x80 <= c < 0x800 && Utf8Encode(c) == s
  {
    var c := CharValue(s);
    var a: int, b: int := s[0] - 0xc0, s[1] - 0x80;
    assert Low(s[0], 32) == a && Low(s[1], 64) == b;
    assert c == a * 64 + b;
    assert c / 64 == a && c % 64 == b;
  }

  lemma ThreeBytesEncode(s: seq<byte>)
    requires ValidChar(s) && |s| == 3
    ensures var c := CharValue(s); 0x800 <= c < 0x10000 && Utf8Encode(c) == s
  {
    var c, a: int, b: int, d: int := CharValue(s), s[0] - 0xe0, s[1] - 0x80, s[2] - 0x80;
    assert Low(s[0], 16) == a && Low(s[1], 64) == b && Low(s[2], 64) == d;
    var m := a * 64 + b;
    assert c == m * 64 + d;
    assert c / 64 == m && c % 64 == d && m / 64 == a && m % 64 == b;
    assert c / 4096 == a;
  }

  /** A number put together from six-bit groups, and its parts again. */
  lemma Groups(a: nat, b: nat, d: nat, e: nat)
    requires b < 64 && d < 64 && e < 64
    ensures var m := a * 64 + b;
            var h := m * 64 + d;
            var c := h * 64 + e;
            && c / 64 == h && c % 64 == e && h / 64 == m && h % 64 == d && m / 64 == a && m % 64 == b
            && c / 4096 == m && c / 262144 == a
  {
    var m := a * 64 + b;
    var h := m * 64 + d;
    var c := h * 64 + e;
    assert m / 64 == a && h / 64 == m && c / 64 == h;
    assert c / 64 / 64 == c / 4096 && c / 4096 / 64 == c / 262144;
  }

  lemma FourBytesEncode(s: seq<byte>)
    requires ValidChar(s) && |s| == 4
    ensures var c := CharValue(s); 0x10000 <= c <= 0x10ffff && Utf8Encode(c) == s
  {
    var a: nat, b: nat, d: nat, e: nat := s[0] - 0xf0, s[1] - 0x80, s[2] - 0x80, s[3] - 0x80;
    assert Low(s[0], 8) == a && Low(s[1], 64) == b && Low(s[2], 64) == d && Low(s[3], 64) == e;
    hide Low;
    Groups(a, b, d, e);
    assert 16 <= a * 64 + b <= 271;
    var c := CharValue(s);
    assert c == ((a * 64 + b) * 64 + d) * 64 + e;
    FourEncode(c, a, b, d, e);
  }

  lemma FourEncode(c: nat, a: nat, b: nat, d: nat, e: nat)
    requires 0x10000 <= c <= 0x10ffff && a <= 4 && b < 64 && d < 64 && e < 64
    requires c % 64 == e && c / 64 % 64 == d && c / 4096 % 64 == b && c / 262144 == a
    ensures Utf8Encode(c) == [0xf0 + a, 0x80 + b, 0x80 + d, 0x80 + e]
  {
  }

  /** A character is decoded exactly from its own encoding: nothing else stands for it, overlong
      forms, surrogates and broken characters least of all. */
  lemma CharExactly(buf: seq<byte>, n: nat, c: nat)
    requires buf != []
    ensures Utf8(buf) == Key(n, Plain(Char(c)))
       <==> c <= 0x10ffff && !(0xd800 <= c <= 0xdfff) && Utf8Encode(c) <= buf && n == |Utf8Encode(c)|
  {
    hide Utf8Encode;
    if c <= 0x10ffff && !(0xd800 <= c <= 0xdfff) && Utf8Encode(c) <= buf {
      EncodedDecodes(buf, c);
    }
    if Utf8(buf) == Key(n, Plain(Char(c))) {
      var s := buf[..n];
      DecodedEncodes(buf, n, c);
    }
  }

  lemma EncodedDecodes(buf: seq<byte>, c: nat)
    requires buf != [] && c <= 0x10ffff && !(0xd800 <= c <= 0xdfff) && Utf8Encode(c) <= buf
    ensures Utf8(buf) == Key(|Utf8Encode(c)|, Plain(Char(c)))
  {
    var s := Utf8Encode(c);
    if c < 0x80 {
    } else if c < 0x800 {
      TwoByteChar(c);
    } else if c < 0x10000 {
      ThreeByteChar(c);
    } else {
      FourByteChar(c);
    }
    assert buf[0] == s[0] && buf[..|s|] == s && |s| == Width(s[0]);
  }

  lemma DecodedEncodes(buf: seq<byte>, n: nat, c: nat)
    requires buf != [] && Utf8(buf) == Key(n, Plain(Char(c)))
    ensures c <= 0x10ffff && !(0xd800 <= c <= 0xdfff) && Utf8Encode(c) <= buf && n == |Utf8Encode(c)|
  {
    var s := buf[..n];
    assert ValidChar(s) && c == CharValue(s);
    if |s| == 2 {
      TwoBytesEncode(s);
    } else if |s| == 3 {
      ThreeBytesEncode(s);
      NoSurrogate(s);
    } else if |s| == 4 {
      FourBytesEncode(s);
    }
  }

  lemma NoSurrogate(s: seq<byte>)
    requires ValidChar(s) && |s| == 3
    ensures !(0xd800 <= CharValue(s) <= 0xdfff)
  {
    var a: int, b: int, d: int := s[0] - 0xe0, s[1] - 0x80, s[2] - 0x80;
    assert Low(s[0], 16) == a && Low(s[1], 64) == b && Low(s[2], 64) == d;
    assert CharValue(s) == (a * 64 + b) * 64 + d;
  }
}
