/** What travels between a terminal and the other end, in either direction: UTF-8 characters,
    and control sequences (ECMA-48 section 5.4), which are an escape byte, an opening bracket,
    numbers with semicolons between them, and a final byte. */
module Ansi {
  import opened Bytes

  const ESC: byte := 0x1b
  const SEMICOLON: byte := 0x3b

  predicate Final(b: byte) { 0x40 <= b <= 0x7e }

  predicate NoFinals(s: seq<byte>) { forall i :: 0 <= i < |s| ==> !Final(s[i]) }

  // --- numbers -------------------------------------------------------------------------------

  predicate Digits(s: seq<byte>) {
    forall i :: 0 <= i < |s| ==> 0x30 <= s[i] <= 0x39
  }

  function Decimal(s: seq<byte>): nat
    requires Digits(s)
  {
    if s == [] then 0 else 10 * Decimal(s[..|s| - 1]) + (s[|s| - 1] - 0x30)
  }

  /** A number in decimal. */
  function Dec(n: nat): (s: seq<byte>)
    ensures s != [] && Digits(s)
  {
    if n < 10 then [0x30 + n] else Dec(n / 10) + [0x30 + n % 10]
  }

  lemma {:induction false} DecReads(n: nat)
    ensures Decimal(Dec(n)) == n
  {
    var s := Dec(n);
    if n < 10 {
      var none: seq<byte> := [];
      assert s[..0] == none;
    } else {
      assert s[..|s| - 1] == Dec(n / 10);
      DecReads(n / 10);
    }
  }

  /** Where the text before the first semicolon ends. */
  function FieldEnd(s: seq<byte>): (n: nat)
    ensures n <= |s|
  {
    if s == [] || s[0] == SEMICOLON then 0 else 1 + FieldEnd(s[1..])
  }

  lemma {:induction false} FieldOfDigits(a: seq<byte>, rest: seq<byte>)
    requires Digits(a) && (rest == [] || rest[0] == SEMICOLON)
    ensures FieldEnd(a + rest) == |a|
  {
    if a == [] {
      assert a + rest == rest;
    } else {
      assert (a + rest)[1..] == a[1..] + rest;
      FieldOfDigits(a[1..], rest);
    }
  }

  // --- characters ------------------------------------------------------------------------------

  /** Length of the UTF-8 character a byte leads; zero for a byte that leads none. */
  function Width(b: byte): nat {
    if b <= 0x7f then 1
    else if 0xc2 <= b <= 0xdf then 2
    else if 0xe0 <= b <= 0xef then 3
    else if 0xf0 <= b <= 0xf4 then 4
    else 0
  }

  predicate Continuation(b: byte) { 0x80 <= b <= 0xbf }

  /** Smallest and largest second byte after a lead, which shut out overlong forms,
      surrogates and values past the last character. */
  function SecondLow(lead: byte): byte {
    if lead == 0xe0 then 0xa0 else if lead == 0xf0 then 0x90 else 0x80
  }

  function SecondHigh(lead: byte): byte {
    if lead == 0xed then 0x9f else if lead == 0xf4 then 0x8f else 0xbf
  }

  /** One whole character. */
  predicate ValidChar(s: seq<byte>) {
    && s != [] && |s| == Width(s[0])
    && (|s| > 1 ==> SecondLow(s[0]) <= s[1] <= SecondHigh(s[0]))
    && (forall i :: 2 <= i < |s| ==> Continuation(s[i]))
  }
}
