/** The identification exchange of RFC 4253 section 4.2. */
module Version {
  import opened Bytes

  const LF: byte := 10
  const CR: byte := 13
  /** Longest line accepted, line ending included. */
  const MAX_LINE := 255

  function LocalId(): seq<byte> { Ascii("SSH-2.0-rust_ssh_0.1.0") }

  function LocalIdLine(): seq<byte> { LocalId() + [CR, LF] }

  datatype Scan = Incomplete | Identified(raw: seq<byte>, consumed: nat)

  predicate StartsWith(s: seq<byte>, prefix: seq<byte>) {
    |prefix| <= |s| && s[..|prefix|] == prefix
  }

  predicate IsIdentification(line: seq<byte>) {
    StartsWith(line, Ascii("SSH-2.0-")) || StartsWith(line, Ascii("SSH-1.99-"))
  }

  /** Position of the first line feed, or the length when there is none. */
  function FirstLf(buf: seq<byte>): (n: nat)
    ensures n <= |buf|
    ensures forall i :: 0 <= i < n ==> buf[i] != LF
    ensures n < |buf| ==> buf[n] == LF
  {
    if buf == [] || buf[0] == LF then 0 else 1 + FirstLf(buf[1..])
  }

  function DropCr(line: seq<byte>): seq<byte> {
    if line != [] && line[|line| - 1] == CR then line[..|line| - 1] else line
  }

  /** The same answer for a buffer with `n` more bytes in front. */
  function Shift(r: Result<Scan>, n: nat): Result<Scan> {
    if r.Ok? && r.value.Identified? then Ok(r.value.(consumed := n + r.value.consumed)) else r
  }

  /** The peer's identification at the front of `buf`; a client skips banner lines. */
  function Parse(buf: seq<byte>, allowBanner: bool): (r: Result<Scan>)
    ensures r.Ok? && r.value.Identified? ==> 0 < r.value.consumed <= |buf|
    ensures r.Err? ==> r.error == BadVersion
  {
    var nl := FirstLf(buf);
    if nl == |buf| then
      if |buf| > MAX_LINE * 64 then Err(BadVersion) else Ok(Incomplete)
    else if nl + 1 > MAX_LINE then Err(BadVersion)
    else
      var line := DropCr(buf[..nl]);
      if IsIdentification(line) then Ok(Identified(line, nl + 1))
      else if !allowBanner then Err(BadVersion)
      else Shift(Parse(buf[nl + 1..], allowBanner), nl + 1)
  }

  /** One line of the scan, in positions of the whole buffer. */
  lemma ParseLine(buf: seq<byte>, start: nat, nl: nat, allowBanner: bool)
    requires start <= |buf| && nl == start + FirstLf(buf[start..])
    ensures nl == |buf| ==>
              Parse(buf[start..], allowBanner)
              == (if |buf| - start > MAX_LINE * 64 then Err(BadVersion) else Ok(Incomplete))
    ensures nl < |buf| && nl - start + 1 > MAX_LINE ==> Parse(buf[start..], allowBanner) == Err(BadVersion)
    ensures nl < |buf| && nl - start + 1 <= MAX_LINE ==>
              Parse(buf[start..], allowBanner)
              == var line := DropCr(buf[start..nl]);
                 if IsIdentification(line) then Ok(Identified(line, nl - start + 1))
                 else if !allowBanner then Err(BadVersion)
                 else Shift(Parse(buf[nl + 1..], allowBanner), nl - start + 1)
  {
    hide IsIdentification;
    var here := buf[start..];
    if nl < |buf| {
      assert here[..nl - start] == buf[start..nl];
      assert here[nl - start + 1..] == buf[nl + 1..];
    }
  }

  /** The scanning loop: `start` walks over banner lines, nothing is copied. */
  method ParsePeerId(buf: seq<byte>, allowBanner: bool) returns (r: Result<Scan>)
    ensures r == Parse(buf, allowBanner)
  {
    hide IsIdentification, FirstLf, Parse;
    var start := 0;
    assert buf[0..] == buf;
    while true
      invariant 0 <= start <= |buf|
      invariant Parse(buf, allowBanner) == Shift(Parse(buf[start..], allowBanner), start)
      decreases |buf| - start
    {
      var nl := start + FirstLf(buf[start..]);
      ParseLine(buf, start, nl, allowBanner);
      if nl == |buf| {
        return if |buf| - start > MAX_LINE * 64 then Err(BadVersion) else Ok(Incomplete);
      }
      if nl - start + 1 > MAX_LINE {
        return Err(BadVersion);
      }
      var lineEnd := nl;
      if lineEnd > start && buf[lineEnd - 1] == CR {
        lineEnd := lineEnd - 1;
      }
      var line := buf[start..lineEnd];
      assert buf[start..nl][..lineEnd - start] == line;
      if IsIdentification(line) {
        return Ok(Identified(line, nl + 1));
      }
      if !allowBanner {
        return Err(BadVersion);
      }
      start := nl + 1;
    }
  }

  // --- what the scan promises --------------------------------------------------------

  lemma {:induction false} FirstLfOfPrefix(a: seq<byte>, b: seq<byte>)
    ensures FirstLf(a) < |a| ==> FirstLf(a + b) == FirstLf(a)
    ensures FirstLf(a) == |a| ==> FirstLf(a + b) == |a| + FirstLf(b)
  {
    if a == [] {
      assert a + b == b;
    } else {
      FirstLfOfPrefix(a[1..], b);
      assert (a + b)[1..] == a[1..] + b;
    }
  }

  /** A decision, good or bad, is not changed by bytes that arrive later: the scan may be
      rerun on a longer buffer, and a complete answer may be acted on at once. */
  lemma {:induction false} ParseStable(a: seq<byte>, b: seq<byte>, allowBanner: bool)
    ensures Parse(a, allowBanner) != Ok(Incomplete)
            ==> Parse(a + b, allowBanner) == Parse(a, allowBanner)
  {
    hide IsIdentification, FirstLf, DropCr;
    FirstLfOfPrefix(a, b);
    var nl := FirstLf(a);
    if nl < |a| {
      LineTaken(a, b, nl);
      ParseStable(a[nl + 1..], b, allowBanner);
    }
  }

  /** A line that is there stays the first one. */
  lemma LineTaken(a: seq<byte>, b: seq<byte>, nl: nat)
    requires nl < |a|
    ensures (a + b)[..nl] == a[..nl] && (a + b)[nl + 1..] == a[nl + 1..] + b
  {
  }

  predicate BannerLine(l: seq<byte>) {
    && |l| + 2 <= MAX_LINE
    && !IsIdentification(l)
    && forall i :: 0 <= i < |l| ==> l[i] != LF
  }

  function Lines(ls: seq<seq<byte>>): seq<byte> {
    if ls == [] then [] else ls[0] + [CR, LF] + Lines(ls[1..])
  }

  lemma FirstLineFound(l: seq<byte>, rest: seq<byte>)
    requires |l| + 2 <= MAX_LINE
    requires forall i :: 0 <= i < |l| ==> l[i] != LF
    ensures var buf := l + [CR, LF] + rest;
            FirstLf(buf) == |l| + 1 && DropCr(buf[..|l| + 1]) == l && buf[|l| + 2..] == rest
  {
    var line := l + [CR];
    FirstLfOfPrefix(line, [LF] + rest);
    assert l + [CR, LF] + rest == line + ([LF] + rest);
    assert line[..|l|] == l;
  }

  lemma ParseHere(id: seq<byte>, rest: seq<byte>, allowBanner: bool)
    requires IsIdentification(id) && |id| + 2 <= MAX_LINE
    requires forall i :: 0 <= i < |id| ==> id[i] != LF
    ensures Parse(id + [CR, LF] + rest, allowBanner) == Ok(Identified(id, |id| + 2))
  {
    hide IsIdentification;
    FirstLineFound(id, rest);
  }

  lemma ParseSkips(l: seq<byte>, rest: seq<byte>, allowBanner: bool)
    requires BannerLine(l)
    ensures Parse(l + [CR, LF] + rest, allowBanner)
         == if allowBanner then Shift(Parse(rest, allowBanner), |l| + 2) else Err(BadVersion)
  {
    hide IsIdentification;
    FirstLineFound(l, rest);
  }

  lemma {:induction false} NoLf(line: seq<byte>)
    requires forall i :: 0 <= i < |line| ==> line[i] != LF
    ensures FirstLf(line) == |line|
  {
    if line != [] {
      NoLf(line[1..]);
    }
  }

  lemma LfFirst(rest: seq<byte>)
    ensures FirstLf([LF] + rest) == 0
  {
  }

  lemma NamesProtocol(id: seq<byte>)
    ensures IsIdentification(id) <==> Ascii("SSH-2.0-") <= id || Ascii("SSH-1.99-") <= id
  {
    hide Ascii;
  }

  /** Any line, with or without CR: too long an error; an identification for a 2.0 peer taken
      without its line ending; anything else skipped by a client and an error for a server. */
  lemma LineDecides(line: seq<byte>, rest: seq<byte>, allowBanner: bool)
    requires forall i :: 0 <= i < |line| ==> line[i] != 10
    ensures var id := if line != [] && line[|line| - 1] == 13 then line[..|line| - 1] else line;
            var names2 := Ascii("SSH-2.0-") <= id || Ascii("SSH-1.99-") <= id;
            Parse(line + [10] + rest, allowBanner)
            == if |line| > 254 then Err(BadVersion)
               else if names2 then Ok(Identified(id, |line| + 1))
               else if allowBanner then Shift(Parse(rest, true), |line| + 1)
               else Err(BadVersion)
  {
    hide Ascii, FirstLf, IsIdentification;
    FirstLfOfPrefix(line, [LF] + rest);
    NoLf(line);
    NamesProtocol(DropCr(line));
    assert FirstLf([LF] + rest) == 0 by { LfFirst(rest); }
    var buf := line + [LF] + rest;
    assert buf == line + ([LF] + rest) && buf[..|line|] == line && buf[|line| + 1..] == rest;
  }

  /** Without a whole line the scan waits, but not for ever. */
  lemma NoLineDecides(buf: seq<byte>, allowBanner: bool)
    requires forall i :: 0 <= i < |buf| ==> buf[i] != 10
    ensures Parse(buf, allowBanner) == if |buf| > 255 * 64 then Err(BadVersion) else Ok(Incomplete)
  {
    FirstLfOfPrefix(buf, []);
    assert buf + [] == buf;
  }

  ghost predicate BannerLines(ls: seq<seq<byte>>) {
    ls == [] || (BannerLine(ls[0]) && BannerLines(ls[1..]))
  }

  /** A client finds the identification behind any number of banner lines and gets its
      exact bytes; a server takes it only as the very first line. */
  lemma {:induction false} ParseFinds(banners: seq<seq<byte>>, id: seq<byte>, rest: seq<byte>, allowBanner: bool)
    requires BannerLines(banners)
    requires IsIdentification(id) && |id| + 2 <= MAX_LINE
    requires forall i :: 0 <= i < |id| ==> id[i] != LF
    ensures Parse(Lines(banners) + (id + [CR, LF] + rest), allowBanner)
         == if allowBanner || banners == []
            then Ok(Identified(id, |Lines(banners)| + |id| + 2))
            else Err(BadVersion)
  {
    hide Parse, IsIdentification;
    var tail := id + [CR, LF] + rest;
    if banners == [] {
      assert Lines(banners) + tail == tail;
      ParseHere(id, rest, allowBanner);
    } else {
      var after := Lines(banners[1..]) + tail;
      assert Lines(banners) + tail == banners[0] + [CR, LF] + after;
      ParseSkips(banners[0], after, allowBanner);
      ParseFinds(banners[1..], id, rest, allowBanner);
    }
  }

  lemma LocalIdIsIdentification()
    ensures IsIdentification(LocalId())
    ensures |LocalId()| == 22
    ensures forall i :: 0 <= i < |LocalId()| ==> LocalId()[i] != LF
  {
    var p := Ascii("SSH-2.0-");
    assert LocalId()[..8] == p;
  }

  /** Each side's own line is understood by the other side, whatever follows it. */
  lemma OwnLineParses(rest: seq<byte>, allowBanner: bool)
    ensures LocalIdLine() == LocalId() + [13, 10]
    ensures Parse(LocalIdLine() + rest, allowBanner)
         == Ok(Identified(LocalId(), |LocalIdLine()|))
  {
    hide IsIdentification, LocalId;
    LocalIdIsIdentification();
    ParseFinds([], LocalId(), rest, allowBanner);
    assert Lines([]) + (LocalId() + [CR, LF] + rest) == LocalIdLine() + rest;
  }
}
