/** KEXINIT and algorithm negotiation (RFC 4253 section 7.1). */
module Algo {
  import opened Bytes
  import opened Seqs
  import opened Wire

  const MSG_KEXINIT: byte := 20

  function Mlkem768(): Name { Ascii("mlkem768x25519-sha256") }
  function Curve25519(): Name { Ascii("curve25519-sha256") }
  function Curve25519Libssh(): Name { Ascii("curve25519-sha256@libssh.org") }
  function Ed25519(): Name { Ascii("ssh-ed25519") }
  function ChaCha20Poly1305(): Name { Ascii("chacha20-poly1305@openssh.com") }
  function Aes256Gcm(): Name { Ascii("aes256-gcm@openssh.com") }
  function HmacSha256(): Name { Ascii("hmac-sha2-256") }
  function StrictClient(): Name { Ascii("kex-strict-c-v00@openssh.com") }
  function StrictServer(): Name { Ascii("kex-strict-s-v00@openssh.com") }

  /** A KEXINIT together with the exact bytes it was written as. */
  datatype KexInit = KexInit(
    payload: seq<byte>,
    kex: seq<Name>,
    hostKey: seq<Name>,
    cipherC2s: seq<Name>,
    cipherS2c: seq<Name>,
    compC2s: seq<Name>,
    compS2c: seq<Name>,
    firstFollows: bool)

  // --- writing -----------------------------------------------------------------------

  function KexAlgorithms(isServer: bool): seq<Name> {
    [Mlkem768(), Curve25519(), Curve25519Libssh(), if isServer then StrictServer() else StrictClient()]
  }

  /** The ten name-lists of our KEXINIT, in wire order. */
  function OurLists(isServer: bool, ciphers: seq<Name>, compressions: seq<Name>): seq<seq<Name>> {
    [KexAlgorithms(isServer), [Ed25519()], ciphers, ciphers, [HmacSha256()], [HmacSha256()],
     compressions, compressions, [], []]
  }

  function NameLists(lists: seq<seq<Name>>): seq<byte> {
    if lists == [] then [] else NameListField(lists[0]) + NameLists(lists[1..])
  }

  function Tail(): seq<byte> { [0] + Be32(0) }

  function OurPayload(isServer: bool, cookie: seq<byte>, ciphers: seq<Name>, compressions: seq<Name>): seq<byte> {
    [MSG_KEXINIT] + cookie + NameLists(OurLists(isServer, ciphers, compressions)) + Tail()
  }

  function Ours(isServer: bool, cookie: seq<byte>, ciphers: seq<Name>, compressions: seq<Name>): KexInit {
    KexInit(OurPayload(isServer, cookie, ciphers, compressions), KexAlgorithms(isServer), [Ed25519()],
            ciphers, ciphers, compressions, compressions, false)
  }

  /** Writes our KEXINIT: the id, the cookie, the ten lists, two closing fields. */
  method WritePayload(isServer: bool, cookie: seq<byte>, ciphers: seq<Name>, compressions: seq<Name>)
    returns (payload: seq<byte>)
    ensures payload == OurPayload(isServer, cookie, ciphers, compressions)
  {
    hide NameLists, OurLists, Be32;
    var lists := OurLists(isServer, ciphers, compressions);
    var w := new Writer();
    w.U8(MSG_KEXINIT);
    w.Raw(cookie);
    WriteNameLists(w, lists);
    w.Boolean(false);
    w.U32(0);
    Assoc([MSG_KEXINIT] + cookie + NameLists(lists), [0], Be32(0));
    payload := w.buf;
  }

  method WriteNameLists(w: Writer, lists: seq<seq<Name>>)
    modifies w
    ensures w.buf == old(w.buf) + NameLists(lists)
  {
    hide NameListField;
    for i := 0 to |lists|
      invariant w.buf == old(w.buf) + NameLists(lists[..i])
    {
      NameListsSnoc(lists[..i], lists[i]);
      assert lists[..i + 1] == lists[..i] + [lists[i]];
      w.NameList(lists[i]);
    }
    assert lists[..|lists|] == lists;
  }

  lemma {:induction false} NameListsSnoc(ls: seq<seq<Name>>, l: seq<Name>)
    ensures NameLists(ls + [l]) == NameLists(ls) + NameListField(l)
  {
    hide NameListField;
    if ls == [] {
      var none: seq<seq<Name>> := [];
      assert [l][1..] == none;
    } else {
      assert (ls + [l])[1..] == ls[1..] + [l];
      NameListsSnoc(ls[1..], l);
    }
  }

  // --- reading -----------------------------------------------------------------------

  function ReadNameLists(buf: seq<byte>, pos: nat, n: nat): (r: Result<Parsed<seq<seq<Name>>>>)
    ensures r.Ok? ==> |r.value.value| == n
    decreases n
  {
    if n == 0 then Ok(Parsed([], pos))
    else
      var l :- ReadNames(buf, pos);
      var ls :- ReadNameLists(buf, l.next, n - 1);
      Ok(Parsed([l.value] + ls.value, ls.next))
  }

  function Parse(payload: seq<byte>): Result<KexInit> {
    var id :- ReadU8(payload, 0);
    if id.value != MSG_KEXINIT then Err(Protocol)
    else
      var cookie :- Take(payload, id.next, 16);
      var lists :- ReadNameLists(payload, cookie.next, 10);
      var follows :- ReadBoolean(payload, lists.next);
      var reserved :- ReadU32(payload, follows.next);
      var ls := lists.value;
      Ok(KexInit(payload, ls[0], ls[1], ls[2], ls[3], ls[6], ls[7], follows.value))
  }

  /** Steps a reader through a KEXINIT, stopping at the first field that is not there. */
  method ReadPayload(payload: seq<byte>) returns (r: Result<KexInit>)
    ensures r == Parse(payload)
  {
    hide ReadNames, ReadNameLists;
    var reader := new Reader(payload);
    var id := reader.U8();
    if id.Err? {
      return Err(id.error);
    }
    if id.value != MSG_KEXINIT {
      return Err(Protocol);
    }
    var cookie := reader.TakeBytes(16);
    if cookie.Err? {
      return Err(cookie.error);
    }
    var lists := TakeNameLists(reader, 10);
    if lists.Err? {
      return Err(lists.error);
    }
    var follows := reader.Boolean();
    if follows.Err? {
      return Err(follows.error);
    }
    var reserved := reader.U32();
    if reserved.Err? {
      return Err(reserved.error);
    }
    var ls := lists.value;
    return Ok(KexInit(payload, ls[0], ls[1], ls[2], ls[3], ls[6], ls[7], follows.value));
  }

  method TakeNameLists(reader: Reader, n: nat) returns (r: Result<seq<seq<Name>>>)
    requires reader.Valid()
    modifies reader
    ensures reader.Valid()
    ensures match ReadNameLists(reader.buf, old(reader.pos), n)
            case Ok(t) => r == Ok(t.value) && reader.pos == t.next
            case Err(e) => r == Err(e)
  {
    hide ReadNames;
    if n == 0 {
      return Ok([]);
    }
    var first := reader.NameList();
    if first.Err? {
      return Err(first.error);
    }
    var others := TakeNameLists(reader, n - 1);
    if others.Err? {
      return Err(others.error);
    }
    return Ok([first.value] + others.value);
  }

  ghost predicate AllValidNames(lists: seq<seq<Name>>) {
    forall i :: 0 <= i < |lists| ==> ValidNames(lists[i])
  }

  lemma {:induction false} ReadNameListsBack(lists: seq<seq<Name>>, pre: seq<byte>, rest: seq<byte>)
    requires AllValidNames(lists)
    ensures ReadNameLists(pre + NameLists(lists) + rest, |pre|, |lists|)
         == Ok(Parsed(lists, |pre| + |NameLists(lists)|))
    decreases |lists|
  {
    hide NameListField, ReadNames, ValidNames;
    if lists != [] {
      var head, tail := NameListField(lists[0]), NameLists(lists[1..]);
      Regroup(pre, head, tail, rest);
      ReadNamesBack(lists[0], pre, tail + rest);
      ReadNameListsBack(lists[1..], pre + head, rest);
      assert [lists[0]] + lists[1..] == lists;
    }
  }

  lemma AsciiName(text: string)
    requires text != ""
    requires forall i :: 0 <= i < |text| ==> text[i] < 128 as char && text[i] != ','
    ensures ValidName(Ascii(text))
  {
  }

  lemma KnownNamesValid()
    ensures ValidName(Mlkem768()) && ValidName(Curve25519()) && ValidName(Curve25519Libssh())
    ensures ValidName(Ed25519()) && ValidName(HmacSha256())
    ensures ValidName(StrictServer()) && ValidName(StrictClient())
  {
    hide Ascii, ValidName;
    KexNamesValid();
    MarkersValid();
    AsciiName("ssh-ed25519");
    AsciiName("hmac-sha2-256");
  }

  lemma KexNamesValid()
    ensures ValidName(Mlkem768()) && ValidName(Curve25519()) && ValidName(Curve25519Libssh())
  {
    hide Ascii, ValidName;
    AsciiName("mlkem768x25519-sha256");
    AsciiName("curve25519-sha256");
    AsciiName("curve25519-sha256@libssh.org");
  }

  lemma MarkersValid()
    ensures ValidName(StrictServer()) && ValidName(StrictClient())
  {
    hide Ascii, ValidName;
    AsciiName("kex-strict-s-v00@openssh.com");
    AsciiName("kex-strict-c-v00@openssh.com");
  }

  lemma KnownListsValid(isServer: bool)
    ensures ValidNames(KexAlgorithms(isServer)) && ValidNames([Ed25519()]) && ValidNames([HmacSha256()])
    ensures |Join(KexAlgorithms(isServer))| <= 200 && |Join([Ed25519()])| <= 20 && |Join([HmacSha256()])| <= 20
  {
    KnownNamesValid();
    var ks := KexAlgorithms(isServer);
    assert |ks[0]| <= 30 && |ks[1]| <= 30 && |ks[2]| <= 30 && |ks[3]| <= 30;
    hide Ascii, ValidName;
    JoinLength(ks);
    assert ks[..4] == ks && ks[..4][..3] == ks[..3] && ks[..3][..2] == ks[..2] && ks[..2][..1] == ks[..1];
    var none: seq<Name> := [];
    assert ks[..1][..0] == none;
    assert TotalLength(ks[..1]) == |ks[0]|;
    assert TotalLength(ks[..2]) == |ks[0]| + |ks[1]|;
    assert TotalLength(ks[..3]) == |ks[0]| + |ks[1]| + |ks[2]|;
  }

  /** What we offer is what the peer reads: every list, and the bytes themselves. */
  lemma ParseOurs(isServer: bool, cookie: seq<byte>, ciphers: seq<Name>, compressions: seq<Name>)
    requires |cookie| == 16 && ValidNames(ciphers) && ValidNames(compressions)
    ensures Parse(OurPayload(isServer, cookie, ciphers, compressions))
         == Ok(Ours(isServer, cookie, ciphers, compressions))
  {
    hide NameListField, ReadNames, ValidNames, KexAlgorithms, Ed25519, HmacSha256, NameLists, ReadNameLists;
    var lists := OurLists(isServer, ciphers, compressions);
    var pre := [MSG_KEXINIT] + cookie;
    var buf := OurPayload(isServer, cookie, ciphers, compressions);
    OurListsValid(isServer, ciphers, compressions);
    ReadNameListsBack(lists, pre, Tail());
    assert buf == pre + NameLists(lists) + Tail();
    var body := pre + NameLists(lists);
    assert body + [0] + Be32(0) == buf;
    Middle(body, [0], Be32(0));
    ReadU32Back(0, body + [0], []);
    assert body + [0] + Be32(0) + [] == buf;
  }

  lemma OurListsValid(isServer: bool, ciphers: seq<Name>, compressions: seq<Name>)
    requires ValidNames(ciphers) && ValidNames(compressions)
    ensures AllValidNames(OurLists(isServer, ciphers, compressions))
  {
    hide ValidNames, KexAlgorithms, Ed25519, HmacSha256;
    KnownListsValid(isServer);
    var ls := OurLists(isServer, ciphers, compressions);
    NoNamesValid(ls[8]);
    forall i | 0 <= i < 10 ensures ValidNames(ls[i]) {
      if i < 5 {
        assert i == 0 || i == 1 || i == 2 || i == 3 || i == 4;
      }
    }
  }

  lemma NoNamesValid(none: seq<Name>)
    requires none == []
    ensures ValidNames(none)
  {
  }

  // --- negotiation -------------------------------------------------------------------

  datatype Negotiated = Negotiated(
    kex: Name,
    hostKey: Name,
    cipherC2s: Name,
    cipherS2c: Name,
    compC2s: Name,
    compS2c: Name)

  /** The first of the client's names that the server also lists. */
  function Pick(client: seq<Name>, server: seq<Name>): Result<Name> {
    if client == [] then Err(NoCommonAlgorithm)
    else if client[0] in server then Ok(client[0])
    else Pick(client[1..], server)
  }

  function Negotiate(client: KexInit, server: KexInit): Result<Negotiated> {
    var kex :- Pick(client.kex, server.kex);
    var hostKey :- Pick(client.hostKey, server.hostKey);
    var cipherC2s :- Pick(client.cipherC2s, server.cipherC2s);
    var cipherS2c :- Pick(client.cipherS2c, server.cipherS2c);
    var compC2s :- Pick(client.compC2s, server.compC2s);
    var compS2c :- Pick(client.compS2c, server.compS2c);
    Ok(Negotiated(kex, hostKey, cipherC2s, cipherS2c, compC2s, compS2c))
  }

  /** `name` sits at `i`, the server has it, and nothing the client likes better will do. */
  ghost predicate ClientsFirst(client: seq<Name>, server: seq<Name>, name: Name, i: nat) {
    && i < |client| && client[i] == name && name in server
    && forall j :: 0 <= j < i ==> client[j] !in server
  }

  lemma {:induction false} PickIsClientsFirst(client: seq<Name>, server: seq<Name>)
    ensures Pick(client, server).Ok? <==> exists n :: n in client && n in server
    ensures forall name, i: nat :: ClientsFirst(client, server, name, i) ==> Pick(client, server) == Ok(name)
    ensures Pick(client, server).Ok? ==> exists i: nat :: ClientsFirst(client, server, Pick(client, server).value, i)
  {
    if client != [] {
      if client[0] in server {
        assert ClientsFirst(client, server, client[0], 0);
        forall name, i: nat | ClientsFirst(client, server, name, i) ensures name == client[0] {
          if i > 0 {
            assert false;
          }
        }
      } else {
        PickIsClientsFirst(client[1..], server);
        assert client == [client[0]] + client[1..];
        forall name, i: nat | ClientsFirst(client, server, name, i) ensures Pick(client, server) == Ok(name) {
          assert i > 0;
          assert ClientsFirst(client[1..], server, name, i - 1);
        }
        if Pick(client, server).Ok? {
          var i: nat :| ClientsFirst(client[1..], server, Pick(client, server).value, i);
          assert ClientsFirst(client, server, Pick(client, server).value, i + 1);
        }
      }
    }
  }

  /** Two endpoints of this engine offer one cipher list in both directions, so both
      directions settle on one cipher: using the client-to-server choice for both is right. */
  lemma OursUseOneCipher(cc: seq<byte>, cs: seq<byte>, ciphers: seq<Name>, comps: seq<Name>, ciphers': seq<Name>, comps': seq<Name>)
    ensures var n := Negotiate(Ours(false, cc, ciphers, comps), Ours(true, cs, ciphers', comps'));
            n.Ok? ==> n.value.cipherC2s == n.value.cipherS2c && n.value.compC2s == n.value.compS2c
  {
    hide Pick, OurPayload, KexAlgorithms, Ed25519;
  }
}
