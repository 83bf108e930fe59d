/** The keys a finished exchange stages (RFC 4253 section 7.2), byte by byte: which digest of
    which bytes each one is, and that the two directions are keyed apart. */
module Keys {
  import opened Bytes
  import opened Wire
  import opened Framing
  import opened Kdf
  import opened Transport
  import Algo

  const LETTER_A: byte := 65
  const LETTER_B: byte := 66
  const LETTER_C: byte := 67
  const LETTER_D: byte := 68

  /** The key packets are encrypted under. */
  function MainKey(x: Cipher): seq<byte> {
    match x
    case Plain => []
    case ChaCha(k2, _) => k2
    case Gcm(key, _, _) => key
  }

  /** One direction's cipher: K, H, a letter and the session id make the key's first 32 bytes;
      ChaCha20 has a second key from K, H and the first; GCM has a nonce under a letter of its
      own. */
  ghost predicate KeyedFrom(d: Digests, x: Cipher, name: Name, kh: seq<byte>, sid: seq<byte>, keyLetter: byte, ivLetter: byte) {
    var first, nonce := kh + [keyLetter] + sid, kh + [ivLetter] + sid;
    && |MainKey(x)| == 32
    && (forall i :: 0 <= i < 32 ==> MainKey(x)[i] == d.at(Sha256, first, i))
    && (name == Algo.ChaCha20Poly1305() ==>
          x.ChaCha? && |x.k1| == 32 && forall i :: 0 <= i < 32 ==> x.k1[i] == d.at(Sha256, kh + MainKey(x), i))
    && (name != Algo.ChaCha20Poly1305() ==>
          x.Gcm? && |x.fixed| == 4 && |Iv(x)| == 12 && forall i :: 0 <= i < 12 ==> Iv(x)[i] == d.at(Sha256, nonce, i))
  }

  lemma FirstBlock(d: Digests, k: seq<byte>, h: seq<byte>, letter: byte, sid: seq<byte>, n: nat)
    requires n <= 32
    ensures forall i :: 0 <= i < n ==> DeriveKey(d, Sha256, k, h, letter, sid, n)[i] == d.at(Sha256, k + h + [letter] + sid, i)
  {
    DeriveKeyPrefix(d, Sha256, k, h, letter, sid, n, 1);
  }

  lemma TwoBlocks(d: Digests, k: seq<byte>, h: seq<byte>, letter: byte, sid: seq<byte>)
    ensures var key := DeriveKey(d, Sha256, k, h, letter, sid, 64);
            && (forall i :: 0 <= i < 32 ==> key[..32][i] == d.at(Sha256, k + h + [letter] + sid, i))
            && (forall i :: 0 <= i < 32 ==> key[32..][i] == d.at(Sha256, k + h + key[..32], i))
  {
    hide Hash;
    var first := Hash(d, Sha256, k + h + [letter] + sid);
    assert Blocks(d, Sha256, k, h, letter, sid, 1) == first;
    DeriveKeyPrefix(d, Sha256, k, h, letter, sid, 64, 2);
    var key := DeriveKey(d, Sha256, k, h, letter, sid, 64);
    assert key == first + Hash(d, Sha256, k + h + first);
    assert key[..32] == first && key[32..] == Hash(d, Sha256, k + h + first);
    HashBytes(d, k + h + [letter] + sid);
    HashBytes(d, k + h + first);
  }

  lemma HashBytes(d: Digests, data: seq<byte>)
    ensures forall i :: 0 <= i < 32 ==> Hash(d, Sha256, data)[i] == d.at(Sha256, data, i)
  {
  }

  lemma CounterKept(b: seq<byte>)
    requires |b| == 8
    ensures Be64(FromBe64(b)) == b
  {
    Be64Inverse(FromBe64(b));
    ValueInjective(Be64(FromBe64(b)), b);
  }

  lemma DirectionKeyed(d: Digests, name: Name, k: Secret, h: seq<byte>, sid: seq<byte>, c2s: bool)
    ensures var r := DirectionCipher(d, name, k, h, sid, c2s);
            && (r.Ok? <==> name == Algo.ChaCha20Poly1305() || name == Algo.Aes256Gcm())
            && (r.Ok? ==> KeyedFrom(d, r.value, name, EncodeSecret(k) + h, sid, if c2s then LETTER_C else LETTER_D,
                                    if c2s then LETTER_A else LETTER_B))
  {
    hide DeriveKey, EncodeSecret, Ascii, Be64, FromBe64;
    var e := EncodeSecret(k);
    var keyLetter, ivLetter: byte := if c2s then 67 else 68, if c2s then 65 else 66;
    if name == Algo.ChaCha20Poly1305() {
      TwoBlocks(d, e, h, keyLetter, sid);
    } else if name == Algo.Aes256Gcm() {
      FirstBlock(d, e, h, keyLetter, sid, 32);
      FirstBlock(d, e, h, ivLetter, sid, 12);
      var iv := DeriveKey(d, Sha256, e, h, ivLetter, sid, 12);
      CounterKept(iv[4..]);
      assert iv[..4] + iv[4..] == iv;
    }
  }

  lemma FinishStages(c: Suite, s: State, h: seq<byte>, k: Secret)
    requires s.kex.negotiated.Some?
    ensures var n, client := s.kex.negotiated.value, s.cfg.role.Client?;
            var sid := if s.kex.sessionId.Some? then s.kex.sessionId.value else h;
            var out, inn := DirectionCipher(c.digests, n.cipherC2s, k, h, sid, client),
                            DirectionCipher(c.digests, n.cipherC2s, k, h, sid, !client);
            var r := FinishKex(c, s, h, k);
            && (r.Ok? <==> out.Ok? && inn.Ok?)
            && (r.Ok? ==> r.value.kex.pending == Some(Pending(out.value, inn.value)) && r.value.kex.sessionId == Some(sid))
            && (r.Ok? ==> r.value.kex.compOut == if client then n.compC2s else n.compS2c)
            && (r.Ok? ==> r.value.kex.compIn == if client then n.compS2c else n.compC2s)
  {
    hide DirectionCipher;
  }

  /** What a finished exchange stages. A client sends under letters C and A and receives under D
      and B, a server the other way round; the session id is the first round's hash; each
      direction takes the compression negotiated for it. It fails only for want of a cipher
      whose key lengths are known. */
  lemma KeysStaged(c: Suite, s: State, h: seq<byte>, k: Secret)
    ensures var r := FinishKex(c, s, h, k);
            && (r.Ok? <==> s.kex.negotiated.Some?
                           && (s.kex.negotiated.value.cipherC2s == Algo.ChaCha20Poly1305()
                               || s.kex.negotiated.value.cipherC2s == Algo.Aes256Gcm()))
            && (r.Ok? ==>
                  var t, n, kh := r.value.kex, s.kex.negotiated.value, EncodeSecret(k) + h;
                  && t.sessionId == (if s.kex.sessionId.Some? then s.kex.sessionId else Some(h))
                  && t.pending.Some?
                  && var sid, p := t.sessionId.value, t.pending.value;
                     match s.cfg.role
                     case Client =>
                       && KeyedFrom(c.digests, p.out, n.cipherC2s, kh, sid, LETTER_C, LETTER_A)
                       && KeyedFrom(c.digests, p.inn, n.cipherC2s, kh, sid, LETTER_D, LETTER_B)
                       && t.compOut == n.compC2s && t.compIn == n.compS2c
                     case Server =>
                       && KeyedFrom(c.digests, p.out, n.cipherC2s, kh, sid, LETTER_D, LETTER_B)
                       && KeyedFrom(c.digests, p.inn, n.cipherC2s, kh, sid, LETTER_C, LETTER_A)
                       && t.compOut == n.compS2c && t.compIn == n.compC2s)
  {
    hide DirectionCipher, KeyedFrom, EncodeSecret, Ascii;
    if s.kex.negotiated.Some? {
      hide FinishKex;
      FinishStages(c, s, h, k);
      var sid := if s.kex.sessionId.Some? then s.kex.sessionId.value else h;
      DirectionKeyed(c.digests, s.kex.negotiated.value.cipherC2s, k, h, sid, true);
      DirectionKeyed(c.digests, s.kex.negotiated.value.cipherC2s, k, h, sid, false);
    }
  }

  /** A digest that shows the byte at one position of what it is given. */
  function Telltale(at: nat): Digests {
    Digests((alg: KexHash, data: seq<byte>, i: nat) => if at < |data| then data[at] else 0)
  }

  /** Nothing but the digest keeps the two directions' keys apart or together: there is one under
      which they differ, for every exchange. */
  lemma DirectionsApart(c: Suite, s: State, h: seq<byte>, k: Secret)
    requires FinishKex(c, s, h, k).Ok?
    ensures exists d: Digests ::
              var r := FinishKex(c.(digests := d), s, h, k);
              r.Ok? && r.value.kex.pending.Some? && MainKey(r.value.kex.pending.value.out) != MainKey(r.value.kex.pending.value.inn)
  {
    hide FinishKex, EncodeSecret, Ascii;
    var kh := EncodeSecret(k) + h;
    var d := Telltale(|kh|);
    KeysStaged(c, s, h, k);
    KeysStaged(c.(digests := d), s, h, k);
    var r := FinishKex(c.(digests := d), s, h, k);
    var p := r.value.kex.pending.value;
    assert MainKey(p.out)[0] != MainKey(p.inn)[0];
  }
}
