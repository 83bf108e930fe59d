/** The wire data types of RFC 4251 section 5: what the writer appends, what the reader
    takes back, and why no two different messages share an encoding. */
module Wire {
  import opened Bytes
  import opened Seqs

  /** Largest number of names accepted in one name-list. */
  const MAX_NAME_LIST_ENTRIES := 256
  const COMMA: byte := 44

  type Name = seq<byte>

  // --- encodings -------------------------------------------------------------------

  /** A `string`; the length is cut to 32 bits the way the cast in the writer cuts it. */
  function StringField(s: seq<byte>): seq<byte> {
    Be32(|s| % 0x1_0000_0000) + s
  }

  /** Names separated by commas. */
  function Join(names: seq<Name>): seq<byte> {
    if |names| == 0 then []
    else if |names| == 1 then names[0]
    else names[0] + [COMMA] + Join(names[1..])
  }

  function NameListField(names: seq<Name>): seq<byte> {
    StringField(Join(names))
  }

  /** A magnitude without its leading zero bytes. */
  function Trim(magnitude: seq<byte>): (t: seq<byte>)
    ensures |t| <= |magnitude|
    ensures t != [] ==> t[0] != 0
  {
    if magnitude == [] then []
    else if magnitude[0] == 0 then Trim(magnitude[1..])
    else magnitude
  }

  /** The content of an `mpint`: trimmed, with a zero byte in front of a set top bit. */
  function MpintBody(magnitude: seq<byte>): (b: seq<byte>)
    ensures |b| <= |magnitude| + 1
  {
    var t := Trim(magnitude);
    if t != [] && t[0] >= 128 then [0] + t else t
  }

  function MpintField(magnitude: seq<byte>): seq<byte> {
    StringField(MpintBody(magnitude))
  }

  // --- decoding --------------------------------------------------------------------

  datatype Parsed<+T> = Parsed(value: T, next: nat)

  function Take(buf: seq<byte>, pos: nat, n: nat): (r: Result<Parsed<seq<byte>>>)
    ensures r.Ok? ==> pos <= r.value.next == pos + n <= |buf| && |r.value.value| == n
  {
    if pos + n <= |buf| then Ok(Parsed(buf[pos..pos + n], pos + n)) else Err(Encoding)
  }

  function ReadU8(buf: seq<byte>, pos: nat): Result<Parsed<byte>> {
    var t :- Take(buf, pos, 1);
    Ok(Parsed(t.value[0], t.next))
  }

  function ReadBoolean(buf: seq<byte>, pos: nat): Result<Parsed<bool>> {
    var t :- ReadU8(buf, pos);
    Ok(Parsed(t.value != 0, t.next))
  }

  function ReadU32(buf: seq<byte>, pos: nat): Result<Parsed<u32>> {
    var t :- Take(buf, pos, 4);
    Ok(Parsed(FromBe32(t.value), t.next))
  }

  function ReadU64(buf: seq<byte>, pos: nat): Result<Parsed<u64>> {
    var t :- Take(buf, pos, 8);
    Ok(Parsed(FromBe64(t.value), t.next))
  }

  function ReadString(buf: seq<byte>, pos: nat): (r: Result<Parsed<seq<byte>>>)
    ensures r.Ok? ==> pos + 4 + |r.value.value| == r.value.next <= |buf|
  {
    var n :- ReadU32(buf, pos);
    Take(buf, n.next, n.value)
  }

  function Commas(s: seq<byte>): nat {
    if s == [] then 0 else (if s[0] == COMMA then 1 else 0) + Commas(s[1..])
  }

  /** The pieces of `s` between commas: always one more than there are commas. */
  function Split(s: seq<byte>): (names: seq<Name>)
    ensures |names| == Commas(s) + 1
  {
    if s == [] then [[]]
    else
      var rest := Split(s[1..]);
      if s[0] == COMMA then [[]] + rest else [[s[0]] + rest[0]] + rest[1..]
  }

  function ReadNames(buf: seq<byte>, pos: nat): Result<Parsed<seq<Name>>> {
    var s :- ReadString(buf, pos);
    if s.value == [] then Ok(Parsed([], s.next))
    else if exists i :: 0 <= i < |s.value| && s.value[i] >= 128 then Err(Encoding)
    else if Commas(s.value) >= MAX_NAME_LIST_ENTRIES then Err(Encoding)
    else Ok(Parsed(Split(s.value), s.next))
  }

  // --- whole messages --------------------------------------------------------------

  datatype Field =
    | U8(byte: byte)
    | Boolean(flag: bool)
    | U32(word: u32)
    | U64(long: u64)
    | Text(bytes: seq<byte>)
    | Names(names: seq<Name>)
    | Mpint(magnitude: seq<byte>)

  function Encode(f: Field): seq<byte> {
    match f
    case U8(b) => [b]
    case Boolean(v) => [if v then 1 else 0]
    case U32(n) => Be32(n)
    case U64(n) => Be64(n)
    case Text(s) => StringField(s)
    case Names(ns) => NameListField(ns)
    case Mpint(m) => MpintField(m)
  }

  function EncodeAll(fs: seq<Field>): seq<byte> {
    if fs == [] then [] else Encode(fs[0]) + EncodeAll(fs[1..])
  }

  /** Read one field of the shape of `like`, whose value is ignored. */
  function ReadLike(like: Field, buf: seq<byte>, pos: nat): Result<Parsed<Field>> {
    match like
    case U8(_) => var t :- ReadU8(buf, pos); Ok(Parsed(U8(t.value), t.next))
    case Boolean(_) => var t :- ReadBoolean(buf, pos); Ok(Parsed(Boolean(t.value), t.next))
    case U32(_) => var t :- ReadU32(buf, pos); Ok(Parsed(U32(t.value), t.next))
    case U64(_) => var t :- ReadU64(buf, pos); Ok(Parsed(U64(t.value), t.next))
    case Text(_) => var t :- ReadString(buf, pos); Ok(Parsed(Text(t.value), t.next))
    case Names(_) => var t :- ReadNames(buf, pos); Ok(Parsed(Names(t.value), t.next))
    case Mpint(_) => var t :- ReadString(buf, pos); Ok(Parsed(Mpint(t.value), t.next))
  }

  function ReadAllLike(like: seq<Field>, buf: seq<byte>, pos: nat): Result<Parsed<seq<Field>>> {
    if like == [] then Ok(Parsed([], pos))
    else
      var f :- ReadLike(like[0], buf, pos);
      var fs :- ReadAllLike(like[1..], buf, f.next);
      Ok(Parsed([f.value] + fs.value, fs.next))
  }

  predicate ValidName(n: Name) {
    n != [] && forall i :: 0 <= i < |n| ==> n[i] < 128 && n[i] != COMMA
  }

  predicate ValidNames(names: seq<Name>) {
    && |names| <= MAX_NAME_LIST_ENTRIES
    && (forall i :: 0 <= i < |names| ==> ValidName(names[i]))
    && |Join(names)| < 0x1_0000_0000
  }

  /** Fields the format can carry: lengths fit 32 bits, names are names. */
  predicate Encodable(f: Field) {
    match f
    case Text(s) => |s| < 0x1_0000_0000
    case Names(ns) => ValidNames(ns)
    case Mpint(m) => |m| + 1 < 0x1_0000_0000
    case _ => true
  }

  predicate AllEncodable(fs: seq<Field>) {
    fs == [] || (Encodable(fs[0]) && AllEncodable(fs[1..]))
  }

  /** What comes back: an `mpint` returns as its signed wire bytes. */
  function AsRead(f: Field): Field {
    if f.Mpint? then Mpint(MpintBody(f.magnitude)) else f
  }

  function AllAsRead(fs: seq<Field>): seq<Field> {
    if fs == [] then [] else [AsRead(fs[0])] + AllAsRead(fs[1..])
  }

  // --- round trips -----------------------------------------------------------------

  lemma ReadU32Back(n: u32, pre: seq<byte>, rest: seq<byte>)
    ensures ReadU32(pre + Be32(n) + rest, |pre|) == Ok(Parsed(n, |pre| + 4))
  {
    Middle(pre, Be32(n), rest);
    Be32Inverse(n);
  }

  lemma ReadU64Back(n: u64, pre: seq<byte>, rest: seq<byte>)
    ensures ReadU64(pre + Be64(n) + rest, |pre|) == Ok(Parsed(n, |pre| + 8))
  {
    Middle(pre, Be64(n), rest);
    Be64Inverse(n);
  }

  lemma ReadStringBack(s: seq<byte>, pre: seq<byte>, rest: seq<byte>)
    requires |s| < 0x1_0000_0000
    ensures ReadString(pre + StringField(s) + rest, |pre|) == Ok(Parsed(s, |pre| + 4 + |s|))
  {
    hide BigEndian, Value;
    var n := Be32(|s|);
    assert pre + (n + s) + rest == pre + n + (s + rest) == (pre + n) + s + rest;
    ReadU32Back(|s|, pre, s + rest);
    Middle(pre + n, s, rest);
  }

  lemma {:induction false} SplitAfterName(n: Name, rest: seq<byte>)
    requires forall i :: 0 <= i < |n| ==> n[i] != COMMA
    ensures Split(n + [COMMA] + rest) == [n] + Split(rest)
    ensures Split(n) == [n]
  {
    var s := n + [COMMA] + rest;
    if n == [] {
      assert s[1..] == rest;
    } else {
      assert s[1..] == n[1..] + [COMMA] + rest;
      SplitAfterName(n[1..], rest);
      assert [n[0]] + n[1..] == n;
    }
  }

  lemma {:induction false} SplitJoin(names: seq<Name>)
    requires names != []
    requires forall i :: 0 <= i < |names| ==> ValidName(names[i])
    ensures Split(Join(names)) == names
    ensures forall i :: 0 <= i < |Join(names)| ==> Join(names)[i] < 128
    ensures Join(names) != []
  {
    if |names| == 1 {
      SplitAfterName(names[0], []);
    } else {
      SplitJoin(names[1..]);
      SplitAfterName(names[0], Join(names[1..]));
      assert [names[0]] + names[1..] == names;
    }
  }

  lemma ReadNamesBack(names: seq<Name>, pre: seq<byte>, rest: seq<byte>)
    requires ValidNames(names)
    ensures ReadNames(pre + NameListField(names) + rest, |pre|)
         == Ok(Parsed(names, |pre| + |NameListField(names)|))
  {
    ReadStringBack(Join(names), pre, rest);
    if names != [] {
      SplitJoin(names);
    }
  }

  lemma ReadFieldBack(f: Field, pre: seq<byte>, rest: seq<byte>)
    requires Encodable(f)
    ensures ReadLike(f, pre + Encode(f) + rest, |pre|)
         == Ok(Parsed(AsRead(f), |pre| + |Encode(f)|))
  {
    hide BigEndian, Value, Join, Trim, Commas, Split;
    match f
    case U8(b) => Middle(pre, [b], rest);
    case Boolean(v) => Middle(pre, [if v then 1 else 0], rest);
    case U32(n) => ReadU32Back(n, pre, rest);
    case U64(n) => ReadU64Back(n, pre, rest);
    case Text(s) => ReadStringBack(s, pre, rest);
    case Names(ns) => ReadNamesBack(ns, pre, rest);
    case Mpint(m) => ReadStringBack(MpintBody(m), pre, rest);
  }

  lemma ReadFirstBack(fs: seq<Field>, pre: seq<byte>, rest: seq<byte>)
    requires fs != [] && AllEncodable(fs)
    ensures ReadLike(fs[0], pre + Encode(fs[0]) + rest, |pre|)
         == Ok(Parsed(AsRead(fs[0]), |pre| + |Encode(fs[0])|))
  {
    ReadFieldBack(fs[0], pre, rest);
  }

  lemma Regroup(pre: seq<byte>, head: seq<byte>, tail: seq<byte>, rest: seq<byte>)
    ensures pre + (head + tail) + rest == pre + head + (tail + rest)
    ensures pre + head + tail + rest == pre + head + (tail + rest)
  {
  }

  lemma ReadAllStep(fs: seq<Field>, pre: seq<byte>, rest: seq<byte>)
    requires fs != [] && AllEncodable(fs)
    requires ReadAllLike(fs[1..], (pre + Encode(fs[0])) + EncodeAll(fs[1..]) + rest, |pre + Encode(fs[0])|)
          == Ok(Parsed(AllAsRead(fs[1..]), |pre + Encode(fs[0])| + |EncodeAll(fs[1..])|))
    ensures ReadAllLike(fs, pre + EncodeAll(fs) + rest, |pre|)
         == Ok(Parsed(AllAsRead(fs), |pre| + |EncodeAll(fs)|))
  {
    hide ReadLike, Encode;
    var head, tail := Encode(fs[0]), EncodeAll(fs[1..]);
    var buf := pre + head + (tail + rest);
    Regroup(pre, head, tail, rest);
    ReadFirstBack(fs, pre, tail + rest);
    assert ReadAllLike(fs[1..], buf, |pre| + |head|) == Ok(Parsed(AllAsRead(fs[1..]), |pre| + |head| + |tail|));
  }

  /** Every sequence of writer calls is read back by the matching reader calls, whatever
      surrounds it, and the reader stops exactly where the writer stopped. */
  lemma {:induction false} ReadAllBack(fs: seq<Field>, pre: seq<byte>, rest: seq<byte>)
    requires AllEncodable(fs)
    ensures ReadAllLike(fs, pre + EncodeAll(fs) + rest, |pre|)
         == Ok(Parsed(AllAsRead(fs), |pre| + |EncodeAll(fs)|))
  {
    if fs == [] {
    } else {
      hide *;
      ReadAllBack(fs[1..], pre + Encode(fs[0]), rest);
      ReadAllStep(fs, pre, rest);
    }
  }

  /** `string` encodings are prefix free, so a run of them can be taken apart one way only. */
  lemma StringPrefixFree(a: seq<byte>, x: seq<byte>, b: seq<byte>, y: seq<byte>)
    requires |a| < 0x1_0000_0000 && |b| < 0x1_0000_0000
    requires StringField(a) + x == StringField(b) + y
    ensures a == b && x == y
  {
    hide BigEndian, Value, Be32, FromBe32;
    TaggedCancel(Be32(|a|), a, x, Be32(|b|), b, y);
    Be32Inverse(|a|);
    Be32Inverse(|b|);
    AppendCancel(a, x, b, y);
  }

  // --- mpint -----------------------------------------------------------------------

  lemma {:induction false} LeadingZero(s: seq<byte>)
    requires s != [] && s[0] == 0
    ensures Value(s) == Value(s[1..])
  {
    if |s| > 1 {
      LeadingZero(s[..|s| - 1]);
      assert s[1..][..|s| - 2] == s[..|s| - 1][1..];
    }
  }

  lemma {:induction false} TrimKeepsValue(s: seq<byte>)
    ensures Value(Trim(s)) == Value(s)
  {
    if s != [] && s[0] == 0 {
      LeadingZero(s);
      TrimKeepsValue(s[1..]);
    }
  }

  lemma {:induction false} ValueAtLeast(s: seq<byte>)
    requires s != [] && s[0] != 0
    ensures Value(s) >= Pow256(|s| - 1)
  {
    if |s| > 1 {
      ValueAtLeast(s[..|s| - 1]);
    } else {
      assert Value(s[..0]) == 0;
    }
  }

  lemma {:induction false} Pow256Grows(m: nat, n: nat)
    requires m <= n
    ensures Pow256(m) <= Pow256(n)
  {
    if m < n {
      Pow256Grows(m, n - 1);
    }
  }

  /** Without leading zeros a longer number is a larger one. */
  lemma LongerIsLarger(a: seq<byte>, b: seq<byte>)
    requires |a| < |b| && b[0] != 0
    ensures Value(a) < Value(b)
  {
    ValueBelow(a);
    Pow256Grows(|a|, |b| - 1);
    ValueAtLeast(b);
  }

  /** The shortest two's-complement form of a non-negative number. */
  predicate ShortestNonNegative(b: seq<byte>) {
    b == [] || (b[0] < 128 && (b[0] == 0 ==> |b| > 1 && b[1] >= 128))
  }

  /** `mpint` writes the value it was given, in the shortest form that is not negative. */
  lemma MpintShortest(m: seq<byte>)
    ensures ShortestNonNegative(MpintBody(m))
    ensures Value(MpintBody(m)) == Value(m)
  {
    TrimKeepsValue(m);
    var t := Trim(m);
    if t != [] && t[0] >= 128 {
      LeadingZero([0] + t);
      assert ([0] + t)[1..] == t;
    }
  }

  /** Two magnitudes get the same `mpint` exactly when they are the same number. */
  lemma MpintCanonical(a: seq<byte>, b: seq<byte>)
    ensures MpintBody(a) == MpintBody(b) <==> Value(a) == Value(b)
  {
    MpintShortest(a);
    MpintShortest(b);
    var s, t := Trim(a), Trim(b);
    TrimKeepsValue(a);
    TrimKeepsValue(b);
    if Value(a) == Value(b) {
      if |s| < |t| {
        LongerIsLarger(s, t);
      } else if |t| < |s| {
        LongerIsLarger(t, s);
      } else {
        ValueInjective(s, t);
      }
    }
  }

  // --- the writer and the reader ---------------------------------------------------

  lemma {:induction false} JoinSnoc(names: seq<Name>, n: Name)
    ensures names != [] ==> Join(names + [n]) == Join(names) + [COMMA] + n
  {
    if |names| == 1 {
      assert (names + [n])[1..] == [n];
    } else if names != [] {
      assert (names + [n])[1..] == names[1..] + [n];
      JoinSnoc(names[1..], n);
    }
  }

  function TotalLength(names: seq<Name>): nat {
    if names == [] then 0 else TotalLength(names[..|names| - 1]) + |names[|names| - 1]|
  }

  lemma {:induction false} JoinLength(names: seq<Name>)
    ensures |Join(names)| == TotalLength(names) + (if names == [] then 0 else |names| - 1)
  {
    if names != [] {
      var init, last := names[..|names| - 1], names[|names| - 1];
      JoinLength(init);
      JoinSnoc(init, last);
      assert names == init + [last];
    }
  }

  lemma JoinNothing(names: seq<Name>)
    requires names == []
    ensures Join(names) == []
  {
  }

  lemma JoinStep(names: seq<Name>, i: nat)
    requires i < |names|
    ensures Join(names[..i + 1]) == Join(names[..i]) + (if i > 0 then [COMMA] else []) + names[i]
  {
    JoinSnoc(names[..i], names[i]);
    assert names[..i + 1] == names[..i] + [names[i]];
    if i == 0 {
      assert names[..1] == [names[0]] && [] + [] + names[0] == names[0];
    }
  }

  /** Appends wire values to an owned buffer. */
  class Writer {
    var buf: seq<byte>

    constructor ()
      ensures buf == []
    {
      buf := [];
    }

    method U8(v: byte)
      modifies this
      ensures buf == old(buf) + Encode(Field.U8(v))
    {
      buf := buf + [v];
    }

    method Boolean(v: bool)
      modifies this
      ensures buf == old(buf) + Encode(Field.Boolean(v))
    {
      buf := buf + [if v then 1 else 0];
    }

    method U32(v: u32)
      modifies this
      ensures buf == old(buf) + Encode(Field.U32(v))
    {
      buf := buf + Be32(v);
    }

    method U64(v: u64)
      modifies this
      ensures buf == old(buf) + Encode(Field.U64(v))
    {
      buf := buf + Be64(v);
    }

    method Raw(bytes: seq<byte>)
      modifies this
      ensures buf == old(buf) + bytes
    {
      buf := buf + bytes;
    }

    method String(bytes: seq<byte>)
      modifies this
      ensures buf == old(buf) + Encode(Field.Text(bytes))
    {
      U32(|bytes| % 0x1_0000_0000);
      buf := buf + bytes;
    }

    /** Writes the joined names straight into the buffer, total length first. */
    method NameList(names: seq<Name>)
      modifies this
      ensures buf == old(buf) + Encode(Field.Names(names))
    {
      hide BigEndian, Be32, Join, TotalLength;
      var commas := if |names| == 0 then 0 else |names| - 1;
      var total := TotalLength(names) + commas;
      JoinLength(names);
      U32(total % 0x1_0000_0000);
      ghost var head := buf;
      JoinNothing(names[..0]);
      assert head + [] == head;
      for i := 0 to |names|
        invariant buf == head + Join(names[..i])
      {
        JoinStep(names, i);
        if i > 0 {
          Assoc(head, Join(names[..i]), [COMMA]);
          buf := buf + [COMMA];
        }
        Assoc(head, Join(names[..i]) + (if i > 0 then [COMMA] else []), names[i]);
        buf := buf + names[i];
      }
      assert names[..|names|] == names;
      Assoc(old(buf), Be32(total % 0x1_0000_0000), Join(names));
    }

    method Mpint(magnitude: seq<byte>)
      modifies this
      ensures buf == old(buf) + Encode(Field.Mpint(magnitude))
    {
      hide BigEndian;
      var start := 0;
      while start < |magnitude| && magnitude[start] == 0
        invariant 0 <= start <= |magnitude|
        invariant Trim(magnitude) == Trim(magnitude[start..])
      {
        assert magnitude[start..][1..] == magnitude[start + 1..];
        start := start + 1;
      }
      if start == |magnitude| {
        U32(0);
      } else {
        var mag := magnitude[start..];
        assert Trim(magnitude) == mag;
        if mag[0] >= 128 {
          U32((|mag| + 1) % 0x1_0000_0000);
          U8(0);
          Raw(mag);
          Assoc(old(buf) + Be32((|mag| + 1) % 0x1_0000_0000), [0], mag);
          Assoc(old(buf), Be32((|mag| + 1) % 0x1_0000_0000), [0] + mag);
        } else {
          String(mag);
        }
      }
    }
  }

  /** A cursor over a borrowed buffer. A failed read leaves the cursor where it was, or
      after the length word it had already taken. */
  class Reader {
    const buf: seq<byte>
    var pos: nat

    ghost predicate Valid() reads this { pos <= |buf| }

    constructor (bytes: seq<byte>)
      ensures Valid() && buf == bytes && pos == 0
    {
      buf := bytes;
      pos := 0;
    }

    method TakeBytes(n: nat) returns (r: Result<seq<byte>>)
      requires Valid()
      modifies this
      ensures Valid()
      ensures match Take(buf, old(pos), n)
              case Ok(t) => r == Ok(t.value) && pos == t.next
              case Err(e) => r == Err(e) && pos == old(pos)
    {
      var end := pos + n;
      if end > |buf| {
        return Err(Encoding);
      }
      r := Ok(buf[pos..end]);
      pos := end;
    }

    method U8() returns (r: Result<byte>)
      requires Valid()
      modifies this
      ensures Valid()
      ensures match ReadU8(buf, old(pos))
              case Ok(t) => r == Ok(t.value) && pos == t.next
              case Err(e) => r == Err(e) && pos == old(pos)
    {
      var b := TakeBytes(1);
      r := match b case Ok(w) => Ok(w[0]) case Err(e) => Err(e);
    }

    method Boolean() returns (r: Result<bool>)
      requires Valid()
      modifies this
      ensures Valid()
      ensures match ReadBoolean(buf, old(pos))
              case Ok(t) => r == Ok(t.value) && pos == t.next
              case Err(e) => r == Err(e) && pos == old(pos)
    {
      var b := U8();
      r := match b case Ok(v) => Ok(v != 0) case Err(e) => Err(e);
    }

    method U32() returns (r: Result<u32>)
      requires Valid()
      modifies this
      ensures Valid()
      ensures match ReadU32(buf, old(pos))
              case Ok(t) => r == Ok(t.value) && pos == t.next
              case Err(e) => r == Err(e) && pos == old(pos)
    {
      var b := TakeBytes(4);
      r := match b case Ok(w) => Ok(FromBe32(w)) case Err(e) => Err(e);
    }

    method String() returns (r: Result<seq<byte>>)
      requires Valid()
      modifies this
      ensures Valid()
      ensures match ReadString(buf, old(pos))
              case Ok(t) => r == Ok(t.value) && pos == t.next
              case Err(e) => r == Err(e)
    {
      var n := U32();
      match n
      case Err(e) => return Err(e);
      case Ok(len) => r := TakeBytes(len);
    }

    /** One pass checks for ASCII and counts the commas; the names are then split off. */
    method NameList() returns (r: Result<seq<Name>>)
      requires Valid()
      modifies this
      ensures Valid()
      ensures match ReadNames(buf, old(pos))
              case Ok(t) => r == Ok(t.value) && pos == t.next
              case Err(e) => r == Err(e)
    {
      var field := String();
      if field.Err? {
        return Err(field.error);
      }
      var s := field.value;
      if s == [] {
        return Ok([]);
      }
      var ascii, commas := true, 0;
      var i := |s|;
      while i > 0
        invariant 0 <= i <= |s|
        invariant ascii == forall j :: i <= j < |s| ==> s[j] < 128
        invariant commas == Commas(s[i..])
      {
        i := i - 1;
        assert s[i..][1..] == s[i + 1..];
        ascii := ascii && s[i] < 128;
        commas := commas + if s[i] == COMMA then 1 else 0;
      }
      assert s[0..] == s;
      if !ascii || commas >= MAX_NAME_LIST_ENTRIES {
        return Err(Encoding);
      }
      r := Ok(Split(s));
    }
  }
}
