/** What one packet does to an endpoint, stated from the packet: what is let through during a
    strict handshake, what surfaces, what a peer may start and how often, which reply is
    accepted, and where the sequence numbers restart. */
module Dispatch {
  import opened Bytes
  import opened Seqs
  import opened Wire
  import opened Framing
  import opened Kdf
  import opened Transport
  import Algo
  import Budget
  import Exchange
  import OnWire
  import Version

  /** The packets an exchange is made of, as their receiver may get them, and DISCONNECT. */
  predicate OfExchange(role: Role, id: byte) {
    id == 1 || id == 20 || id == 21 || (id == 30 && role.Server?) || (id == 31 && role.Client?)
  }

  /** Before an endpoint is up, what is no part of an exchange ends the connection; IGNORE and
      DEBUG are let through only until strict KEX is settled. Afterwards they change nothing,
      and anything else surfaces, as it is, and is the traffic that a peer's re-keys are counted
      against. */
  lemma OutsideExchange(c: Suite, s: State, payload: seq<byte>)
    requires payload != [] && !OfExchange(s.cfg.role, payload[0])
    ensures HandlePacket(c, s, payload)
         == if payload[0] == 2 || payload[0] == 4 then (if s.kex.strict && !s.phase.Established? then Err(Protocol) else Ok(s))
            else if !s.phase.Established? then Err(Protocol)
            else Ok(s.(peerRekeys := 0, events := s.events + [PacketIn(payload)]))
  {
  }

  /** Chaff goes unseen. */
  lemma ChaffUnseen(c: Suite, s: State, data: seq<byte>)
    requires s.phase.Established?
    ensures HandlePacket(c, s, IgnorePayload(data)) == Ok(s)
  {
    hide StringField;
  }

  /** A DISCONNECT tells the other end its reason, and goes out once. */
  lemma DisconnectTold(c: Suite, s: State, p: State, reason: u32, text: seq<byte>)
    ensures DisconnectPayload(reason, text) == [1] + Be32(reason) + StringField(text) + StringField([])
    ensures HandlePacket(c, p, DisconnectPayload(reason, text)) == Ok(p.(events := p.events + [Disconnected(reason)]))
    ensures var t := Disconnect(s, reason, text);
            && t.out.closing
            && (!s.out.closing ==>
                  |t.out.log| == |s.out.log| + 1 && t.out.log[|s.out.log|].payload == DisconnectPayload(reason, text))
            && (s.out.closing ==> t.out.log == s.out.log)
  {
    hide Be32, FromBe32, NextDraw;
    var rest := StringField(text) + StringField([]);
    ReadU32Back(reason, [MSG_DISCONNECT], rest);
    Assoc([MSG_DISCONNECT] + Be32(reason), StringField(text), StringField([]));
  }

  // --- rounds a peer starts ------------------------------------------------------------------

  /** The peer's KEXINIT at an idle endpoint: the endpoint offers in turn and counts one more
      round started by the peer, but for one too many, at which it sends a DISCONNECT, offers
      nothing and closes. */
  lemma PeerRekeys(c: Suite, s: State, payload: seq<byte>)
    requires Budget.Idle(s) && !s.kex.kexinitSent && s.out.packets + 1 < EPOCH_HARD_PACKETS && OnPeerKexinit(c, s, payload).Ok?
    ensures var t, n := OnPeerKexinit(c, s, payload).value, |s.out.log|;
            t.peerRekeys == s.peerRekeys + 1 && |t.out.log| > n && t.out.log[..n] == s.out.log
    ensures var t, n := OnPeerKexinit(c, s, payload).value, |s.out.log|;
            if s.peerRekeys >= s.limits.maxPeerRekeys
            then t.out.closing && |t.out.log| == n + 1 && t.out.log[n].kind.DisconnectMsg?
                 && t.out.log[n].payload == DisconnectPayload(2, Ascii("re-key rate exceeded"))
            else t.kex.rekeying && t.out.log[n].kind.KexInitMsg? && t.kex.peerKexinit.Some?
  {
    hide Agree, KexinitPayload, NextDraw, Ascii, DisconnectPayload, StringField, KexKindOf;
    assert s.out.log[..|s.out.log|] == s.out.log;
    if !RekeyRefused(s) {
      AgreeKeeps(AnswerRekey(c, s), payload);
    }
  }

  lemma AgreeKeeps(s: State, payload: seq<byte>)
    ensures Agree(s, payload).Ok? ==>
              var t := Agree(s, payload).value;
              t == s.(kex := t.kex) && t.kex.rekeying == s.kex.rekeying && t.kex.peerKexinit.Some?
  {
    hide Algo.Parse, Algo.Negotiate, WrongGuess, Algo.StrictServer, Algo.StrictClient;
  }

  // --- the exchange itself -----------------------------------------------------------------------

  /** A method stands for one kind of exchange, and for the way K is hashed. */
  predicate Hybrid(k: Kex) { k.negotiated.Some? && k.negotiated.value.kex == Algo.Mlkem768() }

  function Encoded(hybrid: bool, shared: seq<byte>): Secret {
    if hybrid then StringSecret(shared) else MpintSecret(shared)
  }

  predicate KnownCipher(name: Name) { name == Algo.ChaCha20Poly1305() || name == Algo.Aes256Gcm() }

  /** The client asks with a fresh ephemeral key of the method that was settled. */
  lemma AskSent(c: Suite, s: State)
    requires !s.out.closing
    ensures var t, n, draw := SendEcdhInit(c, s), |s.out.log|, s.out.drawn;
            && t.kex.ephemeral == Some(Ephemeral(if Hybrid(s.kex) then MlKem else Classical, draw)) && t.out.drawn > draw
            && |t.out.log| == n + 1
            && t.out.log[n].payload == [30] + StringField(c.init(t.kex.ephemeral.value.kind, draw))
  {
    hide StringField, Ascii;
  }

  /** What the client hashes for a reply. */
  function ClientRound(c: Suite, s: State, blob: seq<byte>, qs: seq<byte>, shared: seq<byte>): HashInput
    requires s.peerId.Some? && s.kex.peerKexinit.Some? && s.kex.ephemeral.Some?
  {
    var e := s.kex.ephemeral.value;
    HashInput(Version.LocalId(), s.peerId.value, s.kex.localKexinit, s.kex.peerKexinit.value.payload, blob,
              c.init(e.kind, e.draw), qs, Encoded(e.kind.MlKem?, shared))
  }

  /** Both offers are in, and they settle a cipher. */
  predicate Settled(s: State) {
    s.peerId.Some? && s.kex.peerKexinit.Some? && s.kex.negotiated.Some? && KnownCipher(s.kex.negotiated.value.cipherC2s)
  }

  /** The client concludes exactly when it has asked, both offers are settled, the ephemeral keys
      make a secret, and the signature is good for what it hashes itself. */
  predicate Concludes(c: Suite, s: State, blob: seq<byte>, qs: seq<byte>, sig: seq<byte>) {
    && s.kex.ephemeral.Some? && Settled(s)
    && var shared := c.finish(s.kex.ephemeral.value.kind, s.kex.ephemeral.value.draw, qs);
       && shared.Some?
       && c.verify(blob, ExchangeHash(c.digests, Sha256, ClientRound(c, s, blob, qs, shared.value)), sig)
  }

  lemma ThreeStrings(id: byte, a: seq<byte>, b: seq<byte>, d: seq<byte>)
    requires Short(a) && Short(b) && Short(d)
    ensures var payload := [id] + StringField(a) + StringField(b) + StringField(d);
            && ReadString(payload, 1) == Ok(Parsed(a, 5 + |a|))
            && ReadString(payload, 5 + |a|) == Ok(Parsed(b, 9 + |a| + |b|))
            && ReadString(payload, 9 + |a| + |b|) == Ok(Parsed(d, 13 + |a| + |b| + |d|))
  {
    hide StringField, ReadString;
    FieldLength(a);
    FieldLength(b);
    FieldLength(d);
    var x, y, z := StringField(a), StringField(b), StringField(d);
    ReadStringBack(a, [id], y + z);
    ReadStringBack(b, [id] + x, z);
    ReadStringBack(d, [id] + x + y, []);
    assert [id] + x + (y + z) == [id] + x + y + z;
    assert [id] + x + y + z + [] == [id] + x + y + z;
  }

  lemma FieldLength(a: seq<byte>)
    ensures |StringField(a)| == 4 + |a|
  {
  }

  lemma FinishExactly(c: Suite, s: State, h: seq<byte>, k: Secret)
    ensures var r := FinishKex(c, s, h, k);
            && (r.Ok? <==> s.kex.negotiated.Some? && KnownCipher(s.kex.negotiated.value.cipherC2s))
            && (r.Ok? ==> r.value == s.(kex := r.value.kex) && r.value.kex.ephemeral == s.kex.ephemeral)
  {
    hide DeriveKey, EncodeSecret, Ascii, Be64, FromBe64, MakeCipher;
  }

  /** Nothing a round leaves behind is lost. */
  predicate KeepsRound(s: State, t: State) {
    t.rounds == s.rounds && s.events <= t.events && t.kex.ephemeral == s.kex.ephemeral && s.out.log <= t.out.log
  }

  lemma InstallKeepsRound(s: State)
    ensures var t := InstallOut(s);
            var u := if t.kex.strict then t.(out := t.out.(seqNr := 0)) else t;
            KeepsRound(s, u.(kex := u.kex.(sentNewkeys := true)))
  {
  }

  lemma CompleteKeepsRound(s: State)
    ensures KeepsRound(s, MaybeComplete(s))
  {
    hide WriteAll;
    Exchange.WriteAllGrows(s.out.(packets := 0), s.queue);
  }

  lemma SwitchKeepsRound(s: State)
    ensures KeepsRound(s, SendNewkeys(s))
  {
    hide Write, MaybeComplete, InstallOut;
    var next := if s.kex.pending.Some? then s.kex.pending.value.out else s.out.cipher;
    Exchange.WriteGrows(s.out, NewKeys(next), [MSG_NEWKEYS]);
    var w := s.(out := Write(s.out, NewKeys(next), [MSG_NEWKEYS]));
    InstallKeepsRound(w);
    var t := InstallOut(w);
    var u := if t.kex.strict then t.(out := t.out.(seqNr := 0)) else t;
    CompleteKeepsRound(u.(kex := u.kex.(sentNewkeys := true)));
  }

  /** The reply is accepted exactly then. What was hashed goes on record, the host key surfaces,
      and the ephemeral key is used up, so that no second reply is accepted on it. */
  lemma ReplyAcceptedExactly(c: Suite, s: State, blob: seq<byte>, qs: seq<byte>, sig: seq<byte>)
    requires s.cfg.role.Client? && !s.kex.skipGuess && Short(blob) && Short(qs) && Short(sig)
    ensures var r := OnEcdhReply(c, s, [31] + StringField(blob) + StringField(qs) + StringField(sig));
            && (r.Ok? <==> Concludes(c, s, blob, qs, sig))
            && (r.Ok? ==>
                  var t, e := r.value, s.kex.ephemeral.value;
                  && t.rounds == s.rounds + [ClientRound(c, s, blob, qs, c.finish(e.kind, e.draw, qs).value)]
                  && s.events + [ServerHostKey(blob)] <= t.events
                  && t.kex.ephemeral.None?)
  {
    hide StringField, ReadString, RoundHash, ExchangeHash, FinishKex, SendNewkeys, KnownCipher;
    ThreeStrings(31, blob, qs, sig);
    if s.kex.ephemeral.Some? && s.peerId.Some? && s.kex.peerKexinit.Some? {
      var e := s.kex.ephemeral.value;
      if c.finish(e.kind, e.draw, qs).Some? {
        var shared := c.finish(e.kind, e.draw, qs).value;
        var k := SecretOf(e.kind, shared);
        var x := ClientRound(c, s, blob, qs, shared);
        var h := ExchangeHash(c.digests, Sha256, x);
        assert RoundHash(c, s, blob, c.init(e.kind, e.draw), qs, k) == Ok(h) by { ClientHashes(c, s, blob, qs, shared); }
        var t := s.(kex := s.kex.(ephemeral := None), events := s.events + [ServerHostKey(blob)], rounds := s.rounds + [x]);
        FinishExactly(c, t, h, k);
        if FinishKex(c, t, h, k).Ok? {
          SwitchKeepsRound(FinishKex(c, t, h, k).value);
        }
      }
    } else {
      NoRound(c, s, blob, qs);
    }
  }

  lemma ClientHashes(c: Suite, s: State, blob: seq<byte>, qs: seq<byte>, shared: seq<byte>)
    requires s.cfg.role.Client? && s.peerId.Some? && s.kex.peerKexinit.Some? && s.kex.ephemeral.Some?
    ensures var e := s.kex.ephemeral.value;
            && RoundOf(s, blob, c.init(e.kind, e.draw), qs, SecretOf(e.kind, shared)) == ClientRound(c, s, blob, qs, shared)
            && RoundHash(c, s, blob, c.init(e.kind, e.draw), qs, SecretOf(e.kind, shared))
               == Ok(ExchangeHash(c.digests, Sha256, ClientRound(c, s, blob, qs, shared)))
  {
    hide ExchangeHash;
  }

  lemma NoRound(c: Suite, s: State, blob: seq<byte>, qs: seq<byte>)
    requires s.kex.ephemeral.None? || s.peerId.None? || s.kex.peerKexinit.None?
    ensures forall sig :: Conclude(c, s, blob, qs, sig).Err?
  {
  }

  /** What the server hashes for a request. */
  function ServerRound(c: Suite, s: State, qc: seq<byte>, qs: seq<byte>, shared: seq<byte>): HashInput
    requires s.peerId.Some? && s.kex.peerKexinit.Some?
  {
    HashInput(s.peerId.value, Version.LocalId(), s.kex.peerKexinit.value.payload, s.kex.localKexinit, c.hostBlob,
              qc, qs, Encoded(Hybrid(s.kex), shared))
  }

  lemma ServerHashes(c: Suite, s: State, qc: seq<byte>, qs: seq<byte>, shared: seq<byte>)
    requires s.cfg.role.Server? && s.peerId.Some? && s.kex.peerKexinit.Some?
    ensures var k := SecretOf(KexKindOf(s.kex), shared);
            && RoundOf(s, c.hostBlob, qc, qs, k) == ServerRound(c, s, qc, qs, shared)
            && RoundHash(c, s, c.hostBlob, qc, qs, k) == Ok(ExchangeHash(c.digests, Sha256, ServerRound(c, s, qc, qs, shared)))
  {
    hide ExchangeHash, Ascii;
  }

  /** The server answers exactly when both offers are settled and the client's key makes a secret:
      with its host key, its ephemeral key and its signature of what goes on record. */
  lemma RequestAnsweredExactly(c: Suite, s: State, qc: seq<byte>)
    requires s.cfg.role.Server? && !s.kex.skipGuess && !s.out.closing && Short(qc)
    ensures var made := c.respond(if Hybrid(s.kex) then MlKem else Classical, s.out.drawn, qc);
            var r := OnEcdhInit(c, s, [30] + StringField(qc));
            && (r.Ok? <==> Settled(s) && made.Some?)
            && (r.Ok? ==>
                  var t, n, x := r.value, |s.out.log|, ServerRound(c, s, qc, made.value.0, made.value.1);
                  && t.rounds == s.rounds + [x]
                  && s.out.log <= t.out.log && |t.out.log| > n
                  && t.out.log[n].payload == [31] + StringField(c.hostBlob) + StringField(made.value.0)
                                             + StringField(c.sign(ExchangeHash(c.digests, Sha256, x))))
  {
    hide StringField, ReadString, RoundHash, ExchangeHash, FinishKex, SendNewkeys, KnownCipher, Write, Ascii;
    ReadStringBack(qc, [30], []);
    assert [30] + StringField(qc) + [] == [30] + StringField(qc);
    var kind, draw := KexKindOf(s.kex), s.out.drawn;
    var made := c.respond(kind, draw, qc);
    if made.Some? && s.peerId.Some? && s.kex.peerKexinit.Some? {
      var (qs, shared) := made.value;
      var k := SecretOf(kind, shared);
      var x := ServerRound(c, s, qc, qs, shared);
      var h := ExchangeHash(c.digests, Sha256, x);
      ServerHashes(c, s, qc, qs, shared);
      var o := s.out.(drawn := draw + 1);
      Exchange.WriteGrows(o, EcdhReply(draw), ReplyPayload(c, h, qs));
      var t := s.(out := Write(o, EcdhReply(draw), ReplyPayload(c, h, qs)), rounds := s.rounds + [x]);
      FinishExactly(c, t, h, k);
      if FinishKex(c, t, h, k).Ok? {
        SwitchKeepsRound(FinishKex(c, t, h, k).value);
      }
    }
  }

  /** Both offers are read, and each name settled on is the first of the client's, whichever end
      this is, that the server lists too. */
  lemma AgreedAsClientLikes(s: State, kexinit: seq<byte>)
    requires Agree(s, kexinit).Ok?
    ensures Algo.Parse(kexinit).Ok? && Algo.Parse(s.kex.localKexinit).Ok?
    ensures var theirs, mine := Algo.Parse(kexinit).value, Algo.Parse(s.kex.localKexinit).value;
            var client, server := if s.cfg.role.Client? then mine else theirs, if s.cfg.role.Client? then theirs else mine;
            var t := Agree(s, kexinit).value.kex;
            && t.peerKexinit == Some(theirs) && t.negotiated.Some?
            && var n := t.negotiated.value;
               && OnWire.Chosen(client.kex, server.kex, n.kex) && OnWire.Chosen(client.hostKey, server.hostKey, n.hostKey)
               && OnWire.Chosen(client.cipherC2s, server.cipherC2s, n.cipherC2s)
               && OnWire.Chosen(client.cipherS2c, server.cipherS2c, n.cipherS2c)
               && OnWire.Chosen(client.compC2s, server.compC2s, n.compC2s)
               && OnWire.Chosen(client.compS2c, server.compS2c, n.compS2c)
  {
    hide Algo.Parse, Algo.Negotiate, Algo.StrictServer, Algo.StrictClient, WrongGuess, OnWire.Chosen;
    var theirs, mine := Algo.Parse(kexinit).value, Algo.Parse(s.kex.localKexinit).value;
    if s.cfg.role.Client? {
      OnWire.NegotiatedExactly(mine, theirs);
    } else {
      OnWire.NegotiatedExactly(theirs, mine);
    }
  }

  /** A guess of the peer's that does not match what was settled costs it one packet. */
  lemma GuessCosts(c: Suite, s: State, kexinit: seq<byte>, guess: seq<byte>)
    requires Agree(s, kexinit).Ok?
    ensures var t := Agree(s, kexinit).value;
            && t.kex.peerKexinit.Some? && t.kex.negotiated.Some?
            && var p, n := t.kex.peerKexinit.value, t.kex.negotiated.value;
               && (t.kex.skipGuess <==> p.firstFollows && !([n.kex] <= p.kex && [n.hostKey] <= p.hostKey))
               && (t.kex.skipGuess ==>
                     && OnEcdhInit(c, t, guess) == Ok(t.(kex := t.kex.(skipGuess := false)))
                     && OnEcdhReply(c, t, guess) == Ok(t.(kex := t.kex.(skipGuess := false))))
  {
    hide Algo.Parse, Algo.Negotiate, Algo.StrictServer, Algo.StrictClient;
  }

  /** Strict KEX is on from the first exchange, if the peer's first offer carries its marker, and
      no later offer changes that. */
  lemma StrictSettled(s: State, kexinit: seq<byte>)
    requires Agree(s, kexinit).Ok?
    ensures var t := Agree(s, kexinit).value;
            && t.kex.peerKexinit.Some?
            && (s.kex.initialDone ==> t.kex.strict == s.kex.strict)
            && (!s.kex.initialDone ==>
                  (t.kex.strict <==> (if s.cfg.role.Client? then Algo.StrictServer() else Algo.StrictClient())
                                     in t.kex.peerKexinit.value.kex))
  {
    hide Algo.Parse, Algo.Negotiate, WrongGuess;
  }

  /** So an IGNORE before that offer is let through, also into an exchange that is strict then. */
  lemma IgnoredBeforeOffer(c: Suite, s: State, data: seq<byte>, kexinit: seq<byte>)
    requires !s.kex.strict && !s.kex.initialDone && !s.phase.Established?
    requires Algo.Parse(kexinit).Ok? && Agree(s, kexinit).Ok?
    requires (if s.cfg.role.Client? then Algo.StrictServer() else Algo.StrictClient()) in Algo.Parse(kexinit).value.kex
    ensures HandlePacket(c, s, IgnorePayload(data)) == Ok(s) && Agree(s, kexinit).value.kex.strict
  {
    hide StringField, Algo.Parse, Algo.Negotiate, WrongGuess, Algo.StrictServer, Algo.StrictClient;
  }

  /** A round that ends leaves its offers on record, and a server answers a request that comes
      then, though no round is running: it goes through another one. */
  lemma AnsweredUnasked(c: Suite, s: State, qc: seq<byte>)
    requires s.cfg.role.Server? && Settled(s) && !s.kex.skipGuess && s.kex.sentNewkeys && s.kex.recvNewkeys && Short(qc)
    requires var u := MaybeComplete(s);
             !u.out.closing && c.respond(if Hybrid(s.kex) then MlKem else Classical, u.out.drawn, qc).Some?
    ensures !MaybeComplete(s).kex.rekeying && !MaybeComplete(s).kex.kexinitSent
    ensures var u := MaybeComplete(s);
            var r := OnEcdhInit(c, u, [30] + StringField(qc));
            r.Ok? && |r.value.rounds| == |u.rounds| + 1
  {
    hide WriteAll, StringField, Ascii;
    var u := MaybeComplete(s);
    assert Settled(u) && Hybrid(u.kex) == Hybrid(s.kex);
    hide OnEcdhInit;
    RequestAnsweredExactly(c, u, qc);
  }

  // --- the switch --------------------------------------------------------------------------------

  /** NEWKEYS goes out under the old key and number. The first packet under the new key is
      numbered zero under strict KEX, and goes on counting without. */
  lemma NumbersRestart(s: State)
    requires s.kex.pending.Some? && !s.out.closing && s.out.packets + 1 < EPOCH_HARD_PACKETS
    ensures var t, n := SendNewkeys(s), |s.out.log|;
            var first := if s.kex.strict then 0 else NextSeq(s.out.seqNr);
            && |t.out.log| > n && t.out.log[..n] == s.out.log
            && t.out.log[n].payload == [21] && t.out.log[n].cipher == s.out.cipher && t.out.log[n].seqNr == s.out.seqNr
            && (|t.out.log| == n + 1 ==> t.out.cipher == s.kex.pending.value.out && t.out.seqNr == first)
            && (|t.out.log| > n + 1 ==> t.out.log[n + 1].cipher == s.kex.pending.value.out && t.out.log[n + 1].seqNr == first)
  {
    var p := s.kex.pending.value.out;
    var f := Frame(NewKeys(p), s.out.epoch, s.out.cipher, s.out.seqNr, [MSG_NEWKEYS], s.out.drawn);
    var o := Out(s.out.log + [f], s.out.epoch + 1, p, if s.kex.strict then 0 else NextSeq(s.out.seqNr), s.out.packets + 1,
                 false, NextDraw(s.out));
    SwitchedIs(s, o);
    QueueGoesOut(o.(packets := 0), s.queue);
    assert o.log[..|s.out.log|] == s.out.log;
  }

  lemma SwitchedIs(s: State, o: Out)
    requires s.kex.pending.Some? && !s.out.closing && s.out.packets + 1 < EPOCH_HARD_PACKETS
    requires var p := s.kex.pending.value.out;
             o == Out(s.out.log + [Frame(NewKeys(p), s.out.epoch, s.out.cipher, s.out.seqNr, [MSG_NEWKEYS], s.out.drawn)],
                      s.out.epoch + 1, p, if s.kex.strict then 0 else NextSeq(s.out.seqNr), s.out.packets + 1, false, NextDraw(s.out))
    ensures SendNewkeys(s).out == if s.kex.recvNewkeys then WriteAll(o.(packets := 0), s.queue) else o
  {
    hide WriteAll, NextDraw, Advance;
  }

  lemma QueueGoesOut(o: Out, payloads: seq<seq<byte>>)
    requires !o.closing
    ensures var w := WriteAll(o, payloads);
            && o.log <= w.log
            && (payloads == [] ==> w == o)
            && (payloads != [] ==> |w.log| > |o.log| && w.log[|o.log|].cipher == o.cipher && w.log[|o.log|].seqNr == o.seqNr)
  {
    hide NextDraw, Advance;
    if payloads != [] {
      Exchange.WriteAllGrows(Write(o, App, payloads[0]), payloads[1..]);
    }
  }

  /** The peer's NEWKEYS puts its key in force, and its numbers restart likewise. */
  lemma PeerNumbersRestart(s: State)
    ensures OnNewkeys(s).Ok? <==> s.kex.pending.Some?
    ensures OnNewkeys(s).Ok? ==>
              var t := OnNewkeys(s).value;
              t.inn.cipher == s.kex.pending.value.inn && t.inn.seqNr == (if s.kex.strict then 0 else s.inn.seqNr)
  {
    hide WriteAll;
  }
}
