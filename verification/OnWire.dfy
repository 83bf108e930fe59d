/** Packets, hash input and KEXINIT byte by byte: which frames a receiver takes, what each byte
    of a sealed frame is, and in which order fields go. */
module OnWire {
  import opened Bytes
  import opened Seqs
  import opened Wire
  import opened Framing
  import opened Kdf
  import Algo

  // --- frames --------------------------------------------------------------------------------

  /** A frame as any sender may build it: padding of its choice, and the authenticator over the
      four length bytes and the body as they go out. */
  function Framed(p: Primitives, c: Cipher, seqNr: u32, payload: seq<byte>, padding: seq<byte>): seq<byte>
    requires |padding| < 256
  {
    var region := [|padding| as byte] + payload + padding;
    var head, body := Head(p, c, seqNr, Be32(|region| % 0x1_0000_0000)), Body(p, c, seqNr, region);
    head + body + Tag(p, c, seqNr, head, body)
  }

  /** At most a mebibyte, at least a block, and a whole number of blocks where there is a cipher. */
  predicate Fits(c: Cipher, length: nat) {
    && length <= 0x10_0000
    && (c.Plain? ==> length >= 12)
    && (c.ChaCha? ==> length >= 8 && length % 8 == 0)
    && (c.Gcm? ==> length >= 16 && length % 16 == 0)
  }

  lemma FitsExactly(c: Cipher, length: nat)
    ensures LengthAllowed(c, length) <==> Fits(c, length)
  {
  }

  ghost predicate Genuine(p: Primitives, c: Cipher, seqNr: u32, buf: seq<byte>, payload: seq<byte>, n: nat, padding: seq<byte>) {
    && 4 <= |padding| < 256 && Fits(c, 1 + |payload| + |padding|)
    && Framed(p, c, seqNr, payload, padding) <= buf && n == |Framed(p, c, seqNr, payload, padding)|
  }

  lemma HeadTwice(p: Primitives, c: Cipher, seqNr: u32, word: seq<byte>)
    requires |word| == 4
    ensures Head(p, c, seqNr, Head(p, c, seqNr, word)) == word
  {
    hide Mask;
    if c.ChaCha? {
      MaskTwice(word, LengthStream(p, c, seqNr));
    }
  }

  lemma Be32Back(b: seq<byte>)
    requires |b| == 4
    ensures Be32(FromBe32(b)) == b
  {
    Be32Inverse(FromBe32(b));
    ValueInjective(Be32(FromBe32(b)), b);
  }

  lemma GenuineOpens(p: Primitives, c: Cipher, seqNr: u32, buf: seq<byte>, payload: seq<byte>, n: nat, padding: seq<byte>)
    requires Genuine(p, c, seqNr, buf, payload, n, padding)
    ensures Open(p, c, seqNr, buf) == Ok(Packet(payload, n))
  {
    hide Head, Body, Tag, Be32, FromBe32, LengthAllowed, Fits;
    FitsExactly(c, 1 + |payload| + |padding|);
    var region := [|padding| as byte] + payload + padding;
    var head, body := Head(p, c, seqNr, Be32(|region| % 0x1_0000_0000)), Body(p, c, seqNr, region);
    var f := Framed(p, c, seqNr, payload, padding);
    assert |region| <= MAX_PACKET_LENGTH by { AllowedShort(c, |region|); }
    assert f == buf[..|f|];
    assert buf[..4] == f[..4] == head;
    HeadReadsBack(p, c, seqNr, |region|);
    assert buf[4..4 + |region|] == f[4..4 + |region|] == body;
    assert buf[4 + |region|..|f|] == f[4 + |region|..] == Tag(p, c, seqNr, head, body);
    BodyReadsBack(p, c, seqNr, region);
    assert region[1..|region| - |padding|] == payload;
  }

  lemma AllowedShort(c: Cipher, n: nat)
    requires LengthAllowed(c, n)
    ensures 0 < n <= MAX_PACKET_LENGTH
  {
  }

  lemma OpenedGenuine(p: Primitives, c: Cipher, seqNr: u32, buf: seq<byte>, payload: seq<byte>, n: nat) returns (padding: seq<byte>)
    requires Open(p, c, seqNr, buf) == Ok(Packet(payload, n))
    ensures Genuine(p, c, seqNr, buf, payload, n, padding)
  {
    hide Head, Body, Tag, Be32, FromBe32, LengthAllowed, Fits;
    var word := Head(p, c, seqNr, buf[..4]);
    var length := FromBe32(word);
    AllowedShort(c, length);
    FitsExactly(c, length);
    var body := buf[4..4 + length];
    var region := Body(p, c, seqNr, body);
    var pad: nat := region[0];
    padding := region[length - pad..];
    assert region == [pad as byte] + payload + padding;
    BodyReadsBack(p, c, seqNr, body);
    HeadTwice(p, c, seqNr, buf[..4]);
    Be32Back(word);
    assert Head(p, c, seqNr, Be32(length)) == buf[..4];
    assert buf[..n] == buf[..4] + body + buf[4 + length..n];
    assert Framed(p, c, seqNr, payload, padding) == buf[..n];
  }

  /** A receiver takes a packet exactly if the buffer begins with a frame of an allowed length, at
      least four bytes of padding, and the authenticator its own key, number and counter give. */
  lemma OpensExactly(p: Primitives, c: Cipher, seqNr: u32, buf: seq<byte>, payload: seq<byte>, n: nat)
    ensures Open(p, c, seqNr, buf) == Ok(Packet(payload, n)) <==> exists padding :: Genuine(p, c, seqNr, buf, payload, n, padding)
  {
    hide Genuine, Open;
    if Open(p, c, seqNr, buf) == Ok(Packet(payload, n)) {
      var padding := OpenedGenuine(p, c, seqNr, buf, payload, n);
    }
    forall padding | Genuine(p, c, seqNr, buf, payload, n, padding) ensures Open(p, c, seqNr, buf) == Ok(Packet(payload, n)) {
      GenuineOpens(p, c, seqNr, buf, payload, n, padding);
    }
  }

  /** What each byte of a sealed frame is. ChaCha20-Poly1305 masks the length under its second key
      and the rest under its first, and authenticates everything before the tag; GCM leaves the
      length in the clear, as associated data; the plain form has neither mask nor tag. */
  lemma SealedBytes(p: Primitives, c: Cipher, seqNr: u32, payload: seq<byte>, noise: nat -> byte)
    ensures var f, pad := Seal(p, c, seqNr, payload, noise), Pad(c, payload);
            var region := [pad as byte] + payload + Fill(pad, if c.Plain? then ZeroByte else noise);
            var word, n := Be32(|region| % 0x1_0000_0000), 4 + |region|;
            && |f| == n + (if c.Plain? then 0 else 16)
            && (c.Plain? ==> f == word + region)
            && (c.ChaCha? ==>
                  && (forall i :: 0 <= i < 4 ==> f[i] == Xor(word[i], p.lengthStream(c.k1, seqNr, i)))
                  && (forall i :: 0 <= i < |region| ==> f[4 + i] == Xor(region[i], p.payloadStream(c.k2, seqNr, i)))
                  && (forall i :: 0 <= i < 16 ==> f[n + i] == p.polyTag(c.k2, seqNr, f[..n], i)))
            && (c.Gcm? ==>
                  && f[..4] == word
                  && (forall i :: 0 <= i < |region| ==> f[4 + i] == Xor(region[i], p.gcmStream(c.key, Iv(c), i)))
                  && (forall i :: 0 <= i < 16 ==> f[n + i] == p.gcmTag(c.key, Iv(c), word, f[4..n], i)))
  {
    hide Xor, Be32, PadFor, Iv, Pad;
    var head := Head(p, c, seqNr, LengthWord(c, payload));
    var region := Region(c, payload, noise);
    var body := Body(p, c, seqNr, region);
    var f := Seal(p, c, seqNr, payload, noise);
    assert f == head + body + Tag(p, c, seqNr, head, body);
    assert f[..4] == head && f[4..4 + |region|] == body && f[..4 + |region|] == head + body;
  }

  // --- the hash input --------------------------------------------------------------------------

  lemma {:induction false} StringsAreTexts(ss: seq<seq<byte>>, k: Field)
    ensures StringFields(ss) + Encode(k) == EncodeAll(Texts(ss) + [k])
  {
    hide StringField;
    if ss == [] {
      var none: seq<Field> := [];
      assert Texts(ss) + [k] == [k] && [k][1..] == none;
      assert EncodeAll(none) == [] && Encode(k) + [] == Encode(k) == [] + Encode(k);
    } else {
      var fs := Texts(ss) + [k];
      assert fs[0] == Text(ss[0]) && fs[1..] == Texts(ss[1..]) + [k];
      StringsAreTexts(ss[1..], k);
      Assoc(StringField(ss[0]), StringFields(ss[1..]), Encode(k));
    }
  }

  function Texts(ss: seq<seq<byte>>): seq<Field> {
    seq(|ss|, i requires 0 <= i < |ss| => Text(ss[i]))
  }

  /** K as a field of its own. */
  function SecretField(k: Secret): Field {
    match k
    case MpintSecret(m) => Mpint(m)
    case StringSecret(b) => Text(b)
  }

  /** The fields of section 8 of RFC 4253, in its order. */
  function HashFields(x: HashInput): seq<Field> {
    [Text(x.clientId), Text(x.serverId), Text(x.clientKexinit), Text(x.serverKexinit), Text(x.hostKeyBlob),
     Text(x.clientEphemeral), Text(x.serverEphemeral), SecretField(x.secret)]
  }

  /** What is hashed reads back, field by field, as the two identifications, the two offers, the
      host key, the two ephemeral keys and K: the client's before the server's each time. */
  lemma HashedInOrder(x: HashInput)
    requires AllEncodable(HashFields(x))
    ensures HashedBytes(x) == EncodeAll(HashFields(x))
    ensures ReadAllLike(HashFields(x), HashedBytes(x), 0) == Ok(Parsed(AllAsRead(HashFields(x)), |HashedBytes(x)|))
  {
    hide StringFields, StringField, EncodeAll, AllEncodable, ReadAllLike, AllAsRead, MpintField;
    var ss := Strings(x);
    StringsAreTexts(ss, SecretField(x.secret));
    assert Texts(ss) + [SecretField(x.secret)] == HashFields(x);
    ReadAllBack(HashFields(x), [], []);
    assert [] + EncodeAll(HashFields(x)) + [] == EncodeAll(HashFields(x));
  }

  // --- name-lists --------------------------------------------------------------------------------

  lemma {:induction false} JoinSplit(s: seq<byte>)
    ensures Join(Split(s)) == s
  {
    if s != [] {
      var rest := Split(s[1..]);
      JoinSplit(s[1..]);
      assert [s[0]] + s[1..] == s;
      if s[0] == COMMA {
        assert ([[]] + rest)[1..] == rest;
      } else {
        JoinFirst(s[0], rest);
      }
    }
  }

  lemma JoinFirst(b: byte, names: seq<Name>)
    requires names != []
    ensures Join([[b] + names[0]] + names[1..]) == [b] + Join(names)
  {
    var longer := [[b] + names[0]] + names[1..];
    assert longer[1..] == names[1..];
    if |names| > 1 {
      assert [b] + names[0] + [COMMA] + Join(names[1..]) == [b] + (names[0] + [COMMA] + Join(names[1..]));
    }
  }

  /** Any string is read as a name-list if and only if it is ASCII and has at most 255 commas;
      the names are then what lies between the commas. */
  lemma NamesReadExactly(s: seq<byte>, pre: seq<byte>, rest: seq<byte>)
    requires Short(s)
    ensures var r := ReadNames(pre + StringField(s) + rest, |pre|);
            && (r.Ok? <==> (forall i :: 0 <= i < |s| ==> s[i] < 128) && Commas(s) < 256)
            && (r.Ok? ==> Join(r.value.value) == s && r.value.next == |pre| + 4 + |s|
                          && |r.value.value| == (if s == [] then 0 else Commas(s) + 1))
  {
    hide StringField, ReadString;
    ReadStringBack(s, pre, rest);
    JoinSplit(s);
  }

  // --- KEXINIT -----------------------------------------------------------------------------------

  function KexinitBytes(cookie: seq<byte>, lists: seq<seq<Name>>, follows: bool, reserved: u32): seq<byte> {
    [20] + cookie + Algo.NameLists(lists) + [if follows then 1 else 0] + Be32(reserved)
  }

  /** Any KEXINIT, ours or not: each of the ten lists is read into its own place. */
  lemma KexinitReadsBack(cookie: seq<byte>, lists: seq<seq<Name>>, follows: bool, reserved: u32)
    requires |cookie| == 16 && |lists| == 10 && Algo.AllValidNames(lists)
    ensures var payload := KexinitBytes(cookie, lists, follows, reserved);
            Algo.Parse(payload)
            == Ok(Algo.KexInit(payload, lists[0], lists[1], lists[2], lists[3], lists[6], lists[7], follows))
  {
    hide Algo.NameLists, Algo.ReadNameLists, Be32, FromBe32, Algo.AllValidNames;
    var flag: byte := if follows then 1 else 0;
    var pre, names := [20] + cookie, Algo.NameLists(lists);
    var payload := KexinitBytes(cookie, lists, follows, reserved);
    Algo.ReadNameListsBack(lists, pre, [flag] + Be32(reserved));
    assert payload == pre + names + ([flag] + Be32(reserved));
    var body := pre + names;
    Middle(body, [flag], Be32(reserved));
    ReadU32Back(reserved, body + [flag], []);
    assert body + [flag] + Be32(reserved) + [] == payload;
  }

  /** Our own offer, list by list, with the strict-KEX marker of our side and only that. */
  lemma OursInOrder(isServer: bool, cookie: seq<byte>, ciphers: seq<Name>, compressions: seq<Name>)
    ensures Algo.OurPayload(isServer, cookie, ciphers, compressions)
         == KexinitBytes(cookie, [Algo.KexAlgorithms(isServer), [Algo.Ed25519()], ciphers, ciphers, [Algo.HmacSha256()],
                                  [Algo.HmacSha256()], compressions, compressions, [], []], false, 0)
    ensures (Algo.StrictServer() in Algo.KexAlgorithms(isServer)) == isServer
    ensures (Algo.StrictClient() in Algo.KexAlgorithms(isServer)) == !isServer
  {
    hide Algo.NameLists;
    MarkersApart();
    Assoc([20] + cookie + Algo.NameLists(Algo.OurLists(isServer, ciphers, compressions)), [0], Be32(0));
  }

  lemma MarkersApart()
    ensures Algo.StrictServer() != Algo.StrictClient()
    ensures forall name | name in [Algo.Mlkem768(), Algo.Curve25519(), Algo.Curve25519Libssh()] ::
              name != Algo.StrictServer() && name != Algo.StrictClient()
  {
    assert Algo.StrictServer()[11] != Algo.StrictClient()[11];
    assert Algo.Mlkem768()[0] != Algo.StrictServer()[0] && Algo.Mlkem768()[0] != Algo.StrictClient()[0];
    assert Algo.Curve25519()[0] != Algo.StrictServer()[0] && Algo.Curve25519Libssh()[0] != Algo.StrictServer()[0];
  }

  ghost predicate Chosen(client: seq<Name>, server: seq<Name>, name: Name) {
    exists i: nat :: Algo.ClientsFirst(client, server, name, i)
  }

  ghost predicate Shared(client: seq<Name>, server: seq<Name>) {
    exists n :: n in client && n in server
  }

  /** Two offers settle if and only if every pair of lists shares a name; and each name settled on
      is the client's first that the server also lists, in its own pair of lists. */
  lemma NegotiatedExactly(client: Algo.KexInit, server: Algo.KexInit)
    ensures var r := Algo.Negotiate(client, server);
            && (r.Ok? <==>
                  && Shared(client.kex, server.kex) && Shared(client.hostKey, server.hostKey)
                  && Shared(client.cipherC2s, server.cipherC2s) && Shared(client.cipherS2c, server.cipherS2c)
                  && Shared(client.compC2s, server.compC2s) && Shared(client.compS2c, server.compS2c))
            && (r.Ok? ==>
                  var n := r.value;
                  && Chosen(client.kex, server.kex, n.kex) && Chosen(client.hostKey, server.hostKey, n.hostKey)
                  && Chosen(client.cipherC2s, server.cipherC2s, n.cipherC2s) && Chosen(client.cipherS2c, server.cipherS2c, n.cipherS2c)
                  && Chosen(client.compC2s, server.compC2s, n.compC2s) && Chosen(client.compS2c, server.compS2c, n.compS2c))
  {
    hide Algo.Pick, Chosen, Shared;
    Picks(client.kex, server.kex);
    Picks(client.hostKey, server.hostKey);
    Picks(client.cipherC2s, server.cipherC2s);
    Picks(client.cipherS2c, server.cipherS2c);
    Picks(client.compC2s, server.compC2s);
    Picks(client.compS2c, server.compS2c);
  }

  lemma Picks(client: seq<Name>, server: seq<Name>)
    ensures Algo.Pick(client, server).Ok? <==> Shared(client, server)
    ensures Algo.Pick(client, server).Ok? ==> Chosen(client, server, Algo.Pick(client, server).value)
  {
    hide Algo.Pick;
    Algo.PickIsClientsFirst(client, server);
  }
}
