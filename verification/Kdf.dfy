/** The exchange hash and the key derivation (RFC 4253 sections 7.2 and 8). Digests are
    unknown total functions of the right length. */
module Kdf {
  import opened Bytes
  import opened Seqs
  import opened Wire

  datatype KexHash = Sha256 | Sha512

  function DigestLen(h: KexHash): (n: nat)
    ensures n > 0
  {
    if h.Sha256? then 32 else 64
  }

  /** Digest bytes by position. */
  datatype Digests = Digests(at: (KexHash, seq<byte>, nat) -> byte)

  function Hash(d: Digests, alg: KexHash, data: seq<byte>): (h: seq<byte>)
    ensures |h| == DigestLen(alg)
  {
    Fill(DigestLen(alg), (i: nat) => d.at(alg, data, i))
  }

  /** How K enters the hash depends on the key-exchange method. */
  datatype Secret = MpintSecret(magnitude: seq<byte>) | StringSecret(bytes: seq<byte>)

  function EncodeSecret(k: Secret): seq<byte> {
    match k
    case MpintSecret(m) => MpintField(m)
    case StringSecret(b) => StringField(b)
  }

  datatype HashInput = HashInput(
    clientId: seq<byte>,
    serverId: seq<byte>,
    clientKexinit: seq<byte>,
    serverKexinit: seq<byte>,
    hostKeyBlob: seq<byte>,
    clientEphemeral: seq<byte>,
    serverEphemeral: seq<byte>,
    secret: Secret)

  /** The first seven inputs, in hashing order. */
  function Strings(x: HashInput): seq<seq<byte>> {
    [x.clientId, x.serverId, x.clientKexinit, x.serverKexinit, x.hostKeyBlob,
     x.clientEphemeral, x.serverEphemeral]
  }

  function StringFields(ss: seq<seq<byte>>): seq<byte> {
    if ss == [] then [] else StringField(ss[0]) + StringFields(ss[1..])
  }

  /** The bytes that are hashed. */
  function HashedBytes(x: HashInput): seq<byte> {
    StringFields(Strings(x)) + EncodeSecret(x.secret)
  }

  function ExchangeHash(d: Digests, alg: KexHash, x: HashInput): seq<byte> {
    Hash(d, alg, HashedBytes(x))
  }

  lemma {:induction false} StringFieldsSnoc(ss: seq<seq<byte>>, s: seq<byte>)
    ensures StringFields(ss + [s]) == StringFields(ss) + StringField(s)
  {
    hide StringField;
    if ss == [] {
      assert [s][1..] == [];
    } else {
      assert (ss + [s])[1..] == ss[1..] + [s];
      StringFieldsSnoc(ss[1..], s);
    }
  }

  /** The writer's calls, one per input, then the raw encoding of K. */
  method ExchangeHashInto(d: Digests, alg: KexHash, x: HashInput) returns (h: seq<byte>)
    ensures h == ExchangeHash(d, alg, x)
  {
    hide StringField, EncodeSecret;
    var w := new Writer();
    var parts := Strings(x);
    for i := 0 to |parts|
      invariant w.buf == StringFields(parts[..i])
    {
      StringFieldsSnoc(parts[..i], parts[i]);
      assert parts[..i + 1] == parts[..i] + [parts[i]];
      w.String(parts[i]);
    }
    assert parts[..|parts|] == parts;
    w.Raw(EncodeSecret(x.secret));
    h := Hash(d, alg, w.buf);
  }

  // --- the hashed bytes are unambiguous ------------------------------------------------

  predicate Short(s: seq<byte>) { |s| < 0x1_0000_0000 }

  ghost predicate AllShort(ss: seq<seq<byte>>) {
    ss == [] || (Short(ss[0]) && AllShort(ss[1..]))
  }

  ghost predicate Hashable(x: HashInput) {
    && AllShort(Strings(x))
    && match x.secret
       case MpintSecret(m) => Short(MpintBody(m))
       case StringSecret(b) => Short(b)
  }

  /** The same secret: the same bytes, or the same number where K is an `mpint`. */
  ghost predicate SameSecret(a: Secret, b: Secret) {
    match (a, b)
    case (MpintSecret(m), MpintSecret(n)) => Value(m) == Value(n)
    case (StringSecret(s), StringSecret(t)) => s == t
    case _ => false
  }

  lemma {:induction false} StringFieldsCancel(a: seq<seq<byte>>, x: seq<byte>, b: seq<seq<byte>>, y: seq<byte>)
    requires |a| == |b| && AllShort(a) && AllShort(b)
    requires StringFields(a) + x == StringFields(b) + y
    ensures a == b && x == y
  {
    hide StringField;
    if a == [] {
      assert StringFields(a) + x == x && StringFields(b) + y == y;
    } else {
      Assoc(StringField(a[0]), StringFields(a[1..]), x);
      Assoc(StringField(b[0]), StringFields(b[1..]), y);
      StringPrefixFree(a[0], StringFields(a[1..]) + x, b[0], StringFields(b[1..]) + y);
      StringFieldsCancel(a[1..], x, b[1..], y);
      assert a == [a[0]] + a[1..] && b == [b[0]] + b[1..];
    }
  }

  lemma SecretUnambiguous(a: Secret, b: Secret)
    requires a.MpintSecret? <==> b.MpintSecret?
    requires match a case MpintSecret(m) => Short(MpintBody(m)) case StringSecret(s) => Short(s)
    requires match b case MpintSecret(m) => Short(MpintBody(m)) case StringSecret(s) => Short(s)
    ensures EncodeSecret(a) == EncodeSecret(b) <==> SameSecret(a, b)
  {
    hide MpintBody, StringField;
    match (a, b)
    case (MpintSecret(m), MpintSecret(n)) =>
      MpintCanonical(m, n);
      if EncodeSecret(a) == EncodeSecret(b) {
        assert StringField(MpintBody(m)) + [] == StringField(MpintBody(n)) + [];
        StringPrefixFree(MpintBody(m), [], MpintBody(n), []);
      }
    case (StringSecret(s), StringSecret(t)) =>
      if EncodeSecret(a) == EncodeSecret(b) {
        assert StringField(s) + [] == StringField(t) + [];
        StringPrefixFree(s, [], t, []);
      }
    case _ =>
  }

  /** For one way of encoding K, two exchanges hash the same bytes exactly when all eight
      inputs agree, leading zeros of K aside. */
  lemma HashedBytesUnambiguous(x: HashInput, y: HashInput)
    requires Hashable(x) && Hashable(y)
    requires x.secret.MpintSecret? <==> y.secret.MpintSecret?
    ensures HashedBytes(x) == HashedBytes(y)
       <==> x.(secret := y.secret) == y && SameSecret(x.secret, y.secret)
  {
    hide EncodeSecret, StringFields;
    SecretUnambiguous(x.secret, y.secret);
    if HashedBytes(x) == HashedBytes(y) {
      StringFieldsCancel(Strings(x), EncodeSecret(x.secret), Strings(y), EncodeSecret(y.secret));
      var a, b := Strings(x), Strings(y);
      assert a[0] == b[0] && a[1] == b[1] && a[2] == b[2] && a[3] == b[3]
          && a[4] == b[4] && a[5] == b[5] && a[6] == b[6];
    }
  }

  // --- key derivation -------------------------------------------------------------------

  /** The key stream of RFC 4253 section 7.2: K1 is bound to a letter and the session, every
      later block to all blocks before it. */
  function Blocks(d: Digests, alg: KexHash, k: seq<byte>, h: seq<byte>, letter: byte, sessionId: seq<byte>, n: nat): (out: seq<byte>)
    ensures |out| == n * DigestLen(alg)
  {
    if n == 0 then []
    else if n == 1 then Hash(d, alg, k + h + [letter] + sessionId)
    else
      var before := Blocks(d, alg, k, h, letter, sessionId, n - 1);
      before + Hash(d, alg, k + h + before)
  }

  function BlocksNeeded(alg: KexHash, n: nat): (m: nat)
    ensures m > 0 && m * DigestLen(alg) >= n
  {
    if alg.Sha256? then (if n == 0 then 1 else (n + 31) / 32) else (if n == 0 then 1 else (n + 63) / 64)
  }

  function DeriveKey(d: Digests, alg: KexHash, k: seq<byte>, h: seq<byte>, letter: byte, sessionId: seq<byte>, n: nat): (key: seq<byte>)
    ensures |key| == n
  {
    Blocks(d, alg, k, h, letter, sessionId, BlocksNeeded(alg, n))[..n]
  }

  lemma {:induction false} BlocksExtend(d: Digests, alg: KexHash, k: seq<byte>, h: seq<byte>, letter: byte, sessionId: seq<byte>, m: nat, n: nat)
    requires m <= n
    ensures m * DigestLen(alg) <= n * DigestLen(alg)
    ensures Blocks(d, alg, k, h, letter, sessionId, n)[..m * DigestLen(alg)]
         == Blocks(d, alg, k, h, letter, sessionId, m)
  {
    hide Hash;
    if m < n {
      BlocksExtend(d, alg, k, h, letter, sessionId, m, n - 1);
    }
  }

  /** Keys asked for under different letters are hashed from different bytes. */
  lemma LettersSeparate(k: seq<byte>, h: seq<byte>, a: byte, b: byte, sessionId: seq<byte>)
    requires a != b
    ensures k + h + [a] + sessionId != k + h + [b] + sessionId
  {
    var at := |k + h|;
    assert (k + h + [a] + sessionId)[at] == a && (k + h + [b] + sessionId)[at] == b;
  }

  /** Every shorter key is a prefix of a longer one: asking for fewer bytes changes none of
      them, whatever number of blocks was hashed on the way. */
  lemma DeriveKeyPrefix(d: Digests, alg: KexHash, k: seq<byte>, h: seq<byte>, letter: byte, sessionId: seq<byte>, n: nat, blocks: nat)
    requires n <= blocks * DigestLen(alg)
    requires blocks > 0
    ensures DeriveKey(d, alg, k, h, letter, sessionId, n)
         == Blocks(d, alg, k, h, letter, sessionId, blocks)[..n]
  {
    hide Blocks;
    var m := BlocksNeeded(alg, n);
    if m <= blocks {
      BlocksExtend(d, alg, k, h, letter, sessionId, m, blocks);
    } else {
      BlocksExtend(d, alg, k, h, letter, sessionId, blocks, m);
    }
  }

  /** Hashes until there are enough bytes, then cuts. */
  method DeriveKeyWith(d: Digests, alg: KexHash, k: seq<byte>, h: seq<byte>, letter: byte, sessionId: seq<byte>, outLen: nat)
    returns (out: seq<byte>)
    ensures out == DeriveKey(d, alg, k, h, letter, sessionId, outLen)
  {
    hide Hash;
    out := Hash(d, alg, k + h + [letter] + sessionId);
    ghost var n := 1;
    while |out| < outLen
      invariant n >= 1 && out == Blocks(d, alg, k, h, letter, sessionId, n)
      decreases outLen - |out|
    {
      out := out + Hash(d, alg, k + h + out);
      n := n + 1;
    }
    DeriveKeyPrefix(d, alg, k, h, letter, sessionId, outLen, n);
    out := out[..outLen];
  }
}
