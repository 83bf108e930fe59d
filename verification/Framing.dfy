/** Binary packet framing: the plain form used before the first NEWKEYS and the two
    authenticated forms used after it (RFC 4253 section 6). The stream ciphers and the
    authenticators are unknown total functions: nothing below depends on what they compute. */
module Framing {
  import opened Bytes
  import opened Seqs

  const MIN_PADDING := 4
  const MIN_PACKET := 16
  const BLOCK := 8
  const MAX_PACKET_LENGTH := 0x10_0000
  const TAG_LEN := 16
  const GCM_BLOCK := 16

  /** Keystream bytes and tag bytes by position. */
  datatype Primitives = Primitives(
    lengthStream: (seq<byte>, u32, nat) -> byte,
    payloadStream: (seq<byte>, u32, nat) -> byte,
    polyTag: (seq<byte>, u32, seq<byte>, nat) -> byte,
    gcmStream: (seq<byte>, seq<byte>, nat) -> byte,
    gcmTag: (seq<byte>, seq<byte>, seq<byte>, seq<byte>, nat) -> byte)

  /** The packet cipher of one direction. A GCM nonce is four fixed bytes and an eight-byte
      invocation counter. */
  datatype Cipher =
    | Plain
    | ChaCha(k2: seq<byte>, k1: seq<byte>)
    | Gcm(key: seq<byte>, fixed: seq<byte>, counter: u64)

  function Iv(c: Cipher): seq<byte>
    requires c.Gcm?
  {
    c.fixed + Be64(c.counter)
  }

  /** The cipher after one packet: only GCM moves, and its counter wraps. */
  function Advance(c: Cipher): Cipher {
    if c.Gcm? then c.(counter := (c.counter + 1) % 0x1_0000_0000_0000_0000) else c
  }

  // --- padding ---------------------------------------------------------------------

  /** A whole number of blocks, which are 8 bytes or, for GCM, 16. */
  predicate Aligned(n: nat, wide: bool) {
    if wide then n % 16 == 0 else n % 8 == 0
  }

  lemma WholeBlocks(k: nat)
    ensures 16 * k % 16 == 0 && 8 * k % 8 == 0
  {
  }

  /** Padding that brings `covered` bytes to a multiple of the block. */
  function PadFor(covered: nat, wide: bool): (pad: nat)
    ensures MIN_PADDING <= pad < 20
  {
    var pad := if wide then 16 - covered % 16 else 8 - covered % 8;
    if pad < MIN_PADDING then pad + (if wide then 16 else 8) else pad
  }

  lemma PadAligns(covered: nat, wide: bool)
    ensures Aligned(covered + PadFor(covered, wide), wide)
  {
    var pad := PadFor(covered, wide);
    var q := if wide then covered / 16 else covered / 8;
    WholeBlocks(q + 1);
    WholeBlocks(q + 2);
    if wide {
      assert covered + pad == 16 * (q + 1) || covered + pad == 16 * (q + 2);
    } else {
      assert covered + pad == 8 * (q + 1) || covered + pad == 8 * (q + 2);
    }
  }

  /** No shorter padding of at least four bytes aligns. */
  lemma PadShortest(covered: nat, wide: bool, other: nat)
    requires other >= MIN_PADDING && Aligned(covered + other, wide)
    ensures PadFor(covered, wide) <= other
  {
    var q := if wide then covered / 16 else covered / 8;
    var k := if wide then (covered + other) / 16 else (covered + other) / 8;
    if wide {
      assert covered + other == 16 * k && k > q;
    } else {
      assert covered + other == 8 * k && k > q;
    }
  }

  /** The plain form aligns the length word too, and so is never under the minimum. */
  method PaddingLen(payloadLen: nat) returns (pad: nat)
    ensures pad == PadFor(5 + payloadLen, false)
    ensures 5 + payloadLen + pad >= MIN_PACKET
  {
    var unpadded := 4 + 1 + payloadLen;
    pad := BLOCK - unpadded % BLOCK;
    if pad < MIN_PADDING {
      pad := pad + BLOCK;
    }
    PlainLongEnough(payloadLen);
  }

  lemma PlainLongEnough(payloadLen: nat)
    ensures 5 + payloadLen + PadFor(5 + payloadLen, false) >= MIN_PACKET
  {
  }

  // --- sealing ---------------------------------------------------------------------

  /** Apply a keystream; applying it twice gives the data back. */
  function Mask(data: seq<byte>, stream: nat -> byte): (m: seq<byte>)
    ensures |m| == |data|
    ensures forall i :: 0 <= i < |data| ==> m[i] == Xor(data[i], stream(i))
  {
    Fill(|data|, (i: nat) => if i < |data| then Xor(data[i], stream(i)) else 0)
  }

  lemma MaskTwice(data: seq<byte>, stream: nat -> byte)
    ensures Mask(Mask(data, stream), stream) == data
  {
    hide Xor;
    var twice := Mask(Mask(data, stream), stream);
    forall i | 0 <= i < |data| ensures twice[i] == data[i] {
      XorTwice(data[i], stream(i));
    }
  }

  function Covered(c: Cipher, payload: seq<byte>): nat {
    if c.Plain? then 5 + |payload| else 1 + |payload|
  }

  function Pad(c: Cipher, payload: seq<byte>): (pad: nat)
    ensures MIN_PADDING <= pad < 20
  {
    PadFor(Covered(c, payload), c.Gcm?)
  }

  /** The value of the length word. */
  function PacketLength(c: Cipher, payload: seq<byte>): nat {
    1 + |payload| + Pad(c, payload)
  }

  function ZeroByte(i: nat): byte { 0 }

  /** Padding length, payload, padding; `noise` supplies random padding, the plain form
      pads with zeros. */
  function Region(c: Cipher, payload: seq<byte>, noise: nat -> byte): (r: seq<byte>)
    ensures |r| == PacketLength(c, payload)
  {
    var pad := Pad(c, payload);
    [pad] + payload + (if c.Plain? then Fill(pad, ZeroByte) else Fill(pad, noise))
  }

  function LengthWord(c: Cipher, payload: seq<byte>): (b: seq<byte>)
    ensures |b| == 4
  {
    Be32(PacketLength(c, payload) % 0x1_0000_0000)
  }

  function ChaChaTag(p: Primitives, k2: seq<byte>, seqNr: u32, data: seq<byte>): (t: seq<byte>)
    ensures |t| == TAG_LEN
  {
    Fill(TAG_LEN, (i: nat) => p.polyTag(k2, seqNr, data, i))
  }

  function GcmTag(p: Primitives, key: seq<byte>, iv: seq<byte>, aad: seq<byte>, data: seq<byte>): (t: seq<byte>)
    ensures |t| == TAG_LEN
  {
    Fill(TAG_LEN, (i: nat) => p.gcmTag(key, iv, aad, data, i))
  }

  function LengthStream(p: Primitives, c: Cipher, seqNr: u32): nat -> byte
    requires c.ChaCha?
  {
    (i: nat) => p.lengthStream(c.k1, seqNr, i)
  }

  function PayloadStream(p: Primitives, c: Cipher, seqNr: u32): nat -> byte
    requires !c.Plain?
  {
    if c.ChaCha? then (i: nat) => p.payloadStream(c.k2, seqNr, i)
    else var iv := Iv(c); (i: nat) => p.gcmStream(c.key, iv, i)
  }

  /** The first four bytes on the wire: the length word, masked under ChaCha20. */
  function Head(p: Primitives, c: Cipher, seqNr: u32, word: seq<byte>): (h: seq<byte>)
    requires |word| == 4
    ensures |h| == 4
  {
    if c.ChaCha? then Mask(word, LengthStream(p, c, seqNr)) else word
  }

  function Body(p: Primitives, c: Cipher, seqNr: u32, region: seq<byte>): (b: seq<byte>)
    ensures |b| == |region|
  {
    if c.Plain? then region else Mask(region, PayloadStream(p, c, seqNr))
  }

  /** The authenticator over what precedes it. */
  function Tag(p: Primitives, c: Cipher, seqNr: u32, head: seq<byte>, body: seq<byte>): (t: seq<byte>)
    ensures |t| == TagLen(c)
  {
    match c
    case Plain => []
    case ChaCha(k2, _) => ChaChaTag(p, k2, seqNr, head + body)
    case Gcm(key, _, _) => GcmTag(p, key, Iv(c), head, body)
  }

  function TagLen(c: Cipher): nat {
    if c.Plain? then 0 else TAG_LEN
  }

  /** One packet on the wire. */
  function Seal(p: Primitives, c: Cipher, seqNr: u32, payload: seq<byte>, noise: nat -> byte): (f: seq<byte>)
    ensures |f| == 4 + PacketLength(c, payload) + TagLen(c)
  {
    var head := Head(p, c, seqNr, LengthWord(c, payload));
    var body := Body(p, c, seqNr, Region(c, payload, noise));
    head + body + Tag(p, c, seqNr, head, body)
  }

  /** Builds the region at the end of `out`. */
  method AppendRegion(c: Cipher, payload: seq<byte>, noise: nat -> byte, pad: nat, out: seq<byte>) returns (built: seq<byte>)
    requires pad == Pad(c, payload)
    ensures built == out + Region(c, payload, noise)
  {
    hide PadFor, Pad, Fill;
    built := out + [pad];
    built := built + payload;
    var padding := if c.Plain? then Fill(pad, ZeroByte) else Fill(pad, noise);
    built := built + padding;
    Assoc(out, [pad], payload);
    Assoc(out, [pad] + payload, padding);
  }

  /** Appends a packet to `out`, masking the region where it was built. */
  method SealInto(p: Primitives, c: Cipher, seqNr: u32, payload: seq<byte>, noise: nat -> byte, out: seq<byte>)
    returns (sealed: seq<byte>, next: Cipher)
    ensures sealed == out + Seal(p, c, seqNr, payload, noise)
    ensures next == Advance(c)
  {
    hide PadFor, Be32, Head, Body, Tag, Fill, Region, Pad;
    var pad := PadFor(if c.Plain? then 5 + |payload| else 1 + |payload|, c.Gcm?);
    assert pad == Pad(c, payload) by { PadIs(c, payload); }
    var packetLength := (1 + |payload| + pad) % 0x1_0000_0000;
    var head := Head(p, c, seqNr, Be32(packetLength));
    sealed := out + head;
    var start, regionStart := |out|, |sealed|;
    DropPrefix(out, head);
    ghost var region := Region(c, payload, noise);
    DropPrefix(out + head, region);
    sealed := AppendRegion(c, payload, noise, pad, sealed);
    sealed := sealed[..regionStart] + Body(p, c, seqNr, sealed[regionStart..]);
    ghost var body := Body(p, c, seqNr, region);
    assert sealed == out + head + body;
    Middle(out, head, body);
    DropPrefix(out + head, body);
    sealed := sealed + Tag(p, c, seqNr, sealed[start..regionStart], sealed[regionStart..]);
    Assoc(out, head, body);
    Assoc(out, head + body, Tag(p, c, seqNr, head, body));
    next := Advance(c);
  }

  lemma PadIs(c: Cipher, payload: seq<byte>)
    ensures Pad(c, payload) == PadFor(if c.Plain? then 5 + |payload| else 1 + |payload|, c.Gcm?)
  {
  }

  // --- opening ---------------------------------------------------------------------

  datatype Opened = NeedMore | Packet(payload: seq<byte>, consumed: nat)

  /** Lengths a receiver accepts under each cipher. */
  predicate LengthAllowed(c: Cipher, length: nat) {
    && length <= MAX_PACKET_LENGTH
    && match c
       case Plain => length >= MIN_PACKET - 4
       case ChaCha(_, _) => length >= BLOCK && length % BLOCK == 0
       case Gcm(_, _, _) => length >= GCM_BLOCK && length % GCM_BLOCK == 0
  }

  /** Strip the padding length and the padding. */
  function Unpad(region: seq<byte>): Result<seq<byte>>
    requires region != []
  {
    var pad := region[0];
    if pad < MIN_PADDING || pad + 1 > |region| then Err(BadPacket)
    else Ok(region[1..|region| - pad])
  }

  function OpenBody(p: Primitives, c: Cipher, seqNr: u32, head: seq<byte>, body: seq<byte>, tag: seq<byte>): Result<seq<byte>>
    requires |body| > 0
  {
    if tag != Tag(p, c, seqNr, head, body) then Err(Integrity)
    else Unpad(Body(p, c, seqNr, body))
  }

  /** Try to open one packet at the front of `buf`. */
  function Open(p: Primitives, c: Cipher, seqNr: u32, buf: seq<byte>): (r: Result<Opened>)
    ensures r.Ok? && r.value.Packet? ==> 0 < r.value.consumed <= |buf|
  {
    if |buf| < 4 then Ok(NeedMore)
    else
      var length := FromBe32(Head(p, c, seqNr, buf[..4]));
      if !LengthAllowed(c, length) then Err(BadPacket)
      else
        var total := 4 + length + TagLen(c);
        if |buf| < total then Ok(NeedMore)
        else
          var payload :- OpenBody(p, c, seqNr, buf[..4], buf[4..4 + length], buf[4 + length..total]);
          Ok(Packet(payload, total))
  }

  /** Opens one packet step by step: the length, the authenticator, then the region, unmasked
      and cut down to the payload in place. */
  method OpenFrom(p: Primitives, c: Cipher, seqNr: u32, buf: seq<byte>) returns (r: Result<Opened>)
    ensures r == Open(p, c, seqNr, buf)
  {
    hide Head, Body, Tag, FromBe32;
    if |buf| < 4 {
      return Ok(NeedMore);
    }
    var length := FromBe32(Head(p, c, seqNr, buf[..4]));
    if !LengthAllowed(c, length) {
      return Err(BadPacket);
    }
    var total := 4 + length + TagLen(c);
    if |buf| < total {
      return Ok(NeedMore);
    }
    if buf[4 + length..total] != Tag(p, c, seqNr, buf[..4], buf[4..4 + length]) {
      return Err(Integrity);
    }
    var region := Body(p, c, seqNr, buf[4..4 + length]);
    ghost var whole := region;
    var pad := region[0];
    if pad < MIN_PADDING || pad + 1 > length {
      return Err(BadPacket);
    }
    region := region[..length - pad];
    region := region[1..];
    assert region == whole[1..|whole| - pad];
    return Ok(Packet(region, total));
  }

  // --- what framing promises --------------------------------------------------------

  /** Bytes that arrive later never change a decision already taken. */
  lemma OpenStable(p: Primitives, c: Cipher, seqNr: u32, buf: seq<byte>, more: seq<byte>)
    requires Open(p, c, seqNr, buf) != Ok(NeedMore)
    ensures Open(p, c, seqNr, buf + more) == Open(p, c, seqNr, buf)
  {
    hide OpenBody, Head, FromBe32, LengthAllowed;
    assert (buf + more)[..4] == buf[..4];
    var length := FromBe32(Head(p, c, seqNr, buf[..4]));
    var total := 4 + length + TagLen(c);
    if LengthAllowed(c, length) {
      assert (buf + more)[4..4 + length] == buf[4..4 + length];
      assert (buf + more)[4 + length..total] == buf[4 + length..total];
    }
  }

  /** The length word is read back from the four bytes that carry it. */
  lemma HeadReadsBack(p: Primitives, c: Cipher, seqNr: u32, n: u32)
    ensures FromBe32(Head(p, c, seqNr, Head(p, c, seqNr, Be32(n)))) == n
  {
    hide Mask, Be32, FromBe32;
    if c.ChaCha? {
      MaskTwice(Be32(n), LengthStream(p, c, seqNr));
    }
    Be32Inverse(n);
  }

  lemma BodyReadsBack(p: Primitives, c: Cipher, seqNr: u32, region: seq<byte>)
    ensures Body(p, c, seqNr, Body(p, c, seqNr, region)) == region
  {
    hide Mask;
    if !c.Plain? {
      MaskTwice(region, PayloadStream(p, c, seqNr));
    }
  }

  lemma UnpadRegion(c: Cipher, payload: seq<byte>, noise: nat -> byte)
    ensures Unpad(Region(c, payload, noise)) == Ok(payload)
  {
    hide PadFor, Fill;
  }

  /** The covered bytes and the padding are block aligned, and the padding length fits
      its byte. */
  lemma PaddedLength(c: Cipher, payload: seq<byte>)
    ensures Aligned(if c.Plain? then 4 + PacketLength(c, payload) else PacketLength(c, payload), c.Gcm?)
    ensures PacketLength(c, payload) <= MAX_PACKET_LENGTH ==> LengthAllowed(c, PacketLength(c, payload))
    ensures MIN_PADDING <= Pad(c, payload) < 256
  {
    hide PadFor;
    PadAligns(Covered(c, payload), c.Gcm?);
    if c.Plain? {
      PlainLongEnough(|payload|);
    } else {
      var n := PacketLength(c, payload);
      assert Aligned(n, c.Gcm?) && n > 0;
    }
  }

  /** Opening a sealed packet returns its payload and its exact length, whatever follows
      it, if and only if the packet is within the receiver's size limit. */
  lemma OpenSealed(p: Primitives, c: Cipher, seqNr: u32, payload: seq<byte>, noise: nat -> byte, rest: seq<byte>)
    requires |payload| < 0x8000_0000
    ensures Open(p, c, seqNr, Seal(p, c, seqNr, payload, noise) + rest)
         == if PacketLength(c, payload) <= MAX_PACKET_LENGTH
            then Ok(Packet(payload, |Seal(p, c, seqNr, payload, noise)|))
            else Err(BadPacket)
  {
    hide Head, Body, Tag, Region, Unpad, Be32, FromBe32, LengthAllowed, Pad;
    var n := PacketLength(c, payload);
    var head := Head(p, c, seqNr, LengthWord(c, payload));
    var body := Body(p, c, seqNr, Region(c, payload, noise));
    var tag := Tag(p, c, seqNr, head, body);
    var buf := head + body + tag + rest;
    assert buf[..4] == head;
    HeadReadsBack(p, c, seqNr, n);
    PaddedLength(c, payload);
    if n <= MAX_PACKET_LENGTH {
      assert buf[4..4 + n] == body;
      assert buf[4 + n..4 + n + TagLen(c)] == tag;
      BodyReadsBack(p, c, seqNr, Region(c, payload, noise));
      UnpadRegion(c, payload, noise);
    } else {
      assert !LengthAllowed(c, n) by { TooLong(c, n); }
    }
  }

  lemma TooLong(c: Cipher, n: nat)
    requires n > MAX_PACKET_LENGTH
    ensures !LengthAllowed(c, n)
  {
  }

  /** Every strict prefix of a packet within the limit asks for more bytes. */
  lemma PrefixNeedsMore(p: Primitives, c: Cipher, seqNr: u32, payload: seq<byte>, noise: nat -> byte, cut: nat)
    requires PacketLength(c, payload) <= MAX_PACKET_LENGTH
    requires |payload| < 0x8000_0000
    requires cut < |Seal(p, c, seqNr, payload, noise)|
    ensures Open(p, c, seqNr, Seal(p, c, seqNr, payload, noise)[..cut]) == Ok(NeedMore)
  {
    hide Seal, PacketLength;
    var f := Seal(p, c, seqNr, payload, noise);
    var front, back := f[..cut], f[cut..];
    assert front + back == f == f + [];
    OpenSealed(p, c, seqNr, payload, noise, []);
    if Open(p, c, seqNr, front) != Ok(NeedMore) {
      OpenStable(p, c, seqNr, front, back);
      assert false;
    }
  }

  // --- a whole direction -------------------------------------------------------------

  function NextSeq(n: u32): u32 { (n + 1) % 0x1_0000_0000 }

  /** Payloads sealed one after the other; also the cipher the sender is left with. */
  function SealAll(p: Primitives, c: Cipher, seqNr: u32, payloads: seq<seq<byte>>, noise: nat -> nat -> byte): (seq<byte>, Cipher)
    decreases |payloads|
  {
    if payloads == [] then ([], c)
    else
      var rest := SealAll(p, Advance(c), NextSeq(seqNr), payloads[1..], noise);
      (Seal(p, c, seqNr, payloads[0], noise(|payloads|)) + rest.0, rest.1)
  }

  /** Packets opened until the buffer runs short; also the receiver's cipher and the rest. */
  function OpenAll(p: Primitives, c: Cipher, seqNr: u32, buf: seq<byte>): Result<(seq<seq<byte>>, Cipher, seq<byte>)>
    decreases |buf|
  {
    match Open(p, c, seqNr, buf)
    case Err(e) => Err(e)
    case Ok(NeedMore) => Ok(([], c, buf))
    case Ok(Packet(payload, n)) =>
      var rest :- OpenAll(p, Advance(c), NextSeq(seqNr), buf[n..]);
      Ok(([payload] + rest.0, rest.1, rest.2))
  }

  predicate WithinLimit(c: Cipher, payloads: seq<seq<byte>>) {
    forall i :: 0 <= i < |payloads| ==>
      |payloads[i]| < 0x8000_0000 && PacketLength(c, payloads[i]) <= MAX_PACKET_LENGTH
  }

  lemma LimitIgnoresCounter(c: Cipher, payload: seq<byte>)
    ensures PacketLength(Advance(c), payload) == PacketLength(c, payload)
  {
  }

  /** Over any run of packets the receiver gets every payload in order and ends with the
      sender's cipher, invocation counter included. */
  lemma {:induction false} OpenAllSealed(p: Primitives, c: Cipher, seqNr: u32, payloads: seq<seq<byte>>, noise: nat -> nat -> byte)
    requires WithinLimit(c, payloads)
    ensures OpenAll(p, c, seqNr, SealAll(p, c, seqNr, payloads, noise).0)
         == Ok((payloads, SealAll(p, c, seqNr, payloads, noise).1, []))
    decreases |payloads|
  {
    hide Open, Seal, PacketLength;
    if payloads == [] {
      assert Open(p, c, seqNr, []) == Ok(NeedMore) by { OpenNothing(p, c, seqNr); }
    } else {
      var head := Seal(p, c, seqNr, payloads[0], noise(|payloads|));
      var rest := SealAll(p, Advance(c), NextSeq(seqNr), payloads[1..], noise);
      OpenSealed(p, c, seqNr, payloads[0], noise(|payloads|), rest.0);
      DropPrefix(head, rest.0);
      forall i | 0 <= i < |payloads| - 1
        ensures PacketLength(Advance(c), payloads[1..][i]) <= MAX_PACKET_LENGTH
      {
        LimitIgnoresCounter(c, payloads[i + 1]);
      }
      OpenAllSealed(p, Advance(c), NextSeq(seqNr), payloads[1..], noise);
      assert [payloads[0]] + payloads[1..] == payloads;
    }
  }

  lemma OpenNothing(p: Primitives, c: Cipher, seqNr: u32)
    ensures Open(p, c, seqNr, []) == Ok(NeedMore)
  {
  }
}
