/** Each message of a round, handled by the endpoint it is meant for: where it leaves the
    endpoint, what is sent back, and that both ends compute the same secrets. */
module Rounds {
  import opened Bytes
  import opened Wire
  import opened Framing
  import opened Kdf
  import opened Transport
  import opened Stream
  import opened Lockstep
  import Algo
  import Version

  // --- what a round settles ---------------------------------------------------------------

  /** The outcome of one round: what is hashed, the hash, session id, the ciphers of the two directions, and
      the server's reply. */
  datatype Deal = Deal(input: HashInput, hash: seq<byte>, session: seq<byte>, c2s: Cipher, s2c: Cipher, reply: seq<byte>)

  /** The outcome as sections 7.2 and 8 of RFC 4253 define it, from the two draws and the two
      KEXINITs: each direction has its own cipher name, and the first hash stays the session
      id. */
  function Settle(c: Suite, n: Algo.Negotiated, dc: nat, ds: nat, ci: seq<byte>, si: seq<byte>, earlier: Option<seq<byte>>): Result<Deal> {
    var kind := KindOf(n.kex);
    var qc := c.init(kind, dc);
    match c.respond(kind, ds, qc)
    case None => Err(KexFailed)
    case Some((qs, shared)) =>
      var k := SecretOf(kind, shared);
      var id := Version.LocalId();
      var input := HashInput(id, id, ci, si, c.hostBlob, qc, qs, k);
      var h := ExchangeHash(c.digests, Sha256, input);
      var session := if earlier.Some? then earlier.value else h;
      var c2s :- DirectionCipher(c.digests, n.cipherC2s, k, h, session, true);
      var s2c :- DirectionCipher(c.digests, n.cipherS2c, k, h, session, false);
      Ok(Deal(input, h, session, c2s, s2c, ReplyPayload(c, h, qs)))
  }

  const SIZE := 0x1000

  ghost predicate Completes(c: Suite, kind: KexKind, dc: nat, ds: nat) {
    var r := c.respond(kind, ds, c.init(kind, dc));
    r.Some? && |r.value.0| <= SIZE && c.finish(kind, dc, r.value.0) == Some(r.value.1)
  }

  /** What is asked of the cryptography: an exchange completes with one secret, a signature
      verifies, and messages are of moderate size. */
  ghost predicate Honest(c: Suite) {
    && (forall kind, dc: nat, ds: nat :: Completes(c, kind, dc, ds))
    && (forall h :: c.verify(c.hostBlob, h, c.sign(h)) && |c.sign(h)| <= SIZE)
    && (forall kind, d: nat :: |c.init(kind, d)| <= SIZE)
    && |c.hostBlob| <= SIZE
  }

  /** Such suites exist, whatever the keystreams and digests. */
  lemma HonestSuiteExists(prim: Primitives, digests: Digests) returns (c: Suite)
    ensures Honest(c) && c.prim == prim && c.digests == digests
  {
    c := Suite(prim, digests,
               (kind: KexKind, d: nat) => [],
               (kind: KexKind, d: nat, q: seq<byte>) => Some(([], [1])),
               (kind: KexKind, d: nat, q: seq<byte>) => Some([1]),
               [],
               (h: seq<byte>) => h[..if |h| < 64 then |h| else 64],
               (blob: seq<byte>, h: seq<byte>, s: seq<byte>) => s == h[..if |h| < 64 then |h| else 64],
               (role: Role, d: nat, i: nat) => 0,
               (role: Role, d: nat, i: nat) => 0);
  }

  /** Two configurations of this engine settle on one cipher for both directions. */
  lemma OneCipher(t: Terms)
    requires ValidTerms(t) && Agreement(t).Ok?
    ensures Agreement(t).value.cipherC2s == Agreement(t).value.cipherS2c
    ensures Agreement(t).value.compC2s == Agreement(t).value.compS2c
  {
    hide Agreement, Usable, Algo.Negotiate, Algo.Ours;
    Algo.OursUseOneCipher([], [], t.client.ciphers, t.client.compressions, t.server.ciphers, t.server.compressions);
    assert Agreement(t) == Algo.Negotiate(Lists(t.client), Lists(t.server)) by { AgreementIs(t); }
  }

  lemma AgreementIs(t: Terms)
    ensures Agreement(t) == Algo.Negotiate(Lists(t.client), Lists(t.server))
  {
  }

  // --- KEXINIT -----------------------------------------------------------------------------

  lemma AnswerStayed(c: Suite, t: Terms, s: State, g: Stage)
    requires ValidTerms(t) && InStage(t, s, g) && Ready(s)
    requires !RekeyRefused(s)
    ensures Stayed(t, s, g, AnswerRekey(c, s))
    ensures AnswerRekey(c, s).kex.kexinitSent && !Now(g, AnswerRekey(c, s)).Idle?
  {
    hide Stayed, BeginRekeyRound, ValidTerms, Ready, Disconnect, Ascii, Agreement, Offer;
    if s.phase.Established? && !s.kex.kexinitSent {
      var u := s.(peerRekeys := s.peerRekeys + 1);
      StageSame(t, s, u, g);
      assert Ready(u) by { ReadySame(s, u); }
      BeginStayed(c, t, u);
      StayedFrom(t, u, s, g, BeginRekeyRound(c, u));
    } else {
      StayedSelf(t, s, g);
    }
  }

  lemma ReadySame(s: State, r: State)
    requires Ready(s) && r.queue == s.queue && r.phase == s.phase && r.out == s.out
    requires r.kex.sentNewkeys == s.kex.sentNewkeys
    ensures Ready(r)
  {
    hide AppLike;
  }

  lemma StayedFrom(t: Terms, u: State, s: State, g: Stage, r: State)
    requires Stayed(t, u, g, r)
    requires u.out == s.out && u.cfg == s.cfg && u.phase == s.phase && u.inn == s.inn && u.peerId == s.peerId
    requires u.kex == s.kex && u.events == s.events && u.rounds == s.rounds
    ensures Stayed(t, s, g, r)
  {
    hide InStage, Ready, Sent;
  }

  lemma RefusedStayed(c: Suite, t: Terms, s: State, g: Stage)
    requires InStage(t, s, g) && Ready(s) && RekeyRefused(s)
    ensures Stayed(t, s, g, AnswerRekey(c, s)) && AnswerRekey(c, s).out.closing
    ensures AnswerRekey(c, s).kex == s.kex
  {
    hide Stayed, InStage, Disconnect, BeginRekeyRound, Ready;
    var u := s.(peerRekeys := s.peerRekeys + 1);
    StageSame(t, s, u, g);
    ReadySame(s, u);
    var text := Ascii("re-key rate exceeded");
    HangupStayed(t, u, g, PROTOCOL_ERROR, text);
    StayedFrom(t, u, s, g, Disconnect(u, PROTOCOL_ERROR, text));
  }

  /** Both offers together give the terms' agreement, no guess to skip, and strict KEX. */
  lemma AgreeResult(t: Terms, s: State, payload: seq<byte>)
    requires ValidTerms(t) && InStage(t, s, Offered)
    requires Offer(PeerOf(t, s.cfg.role), payload)
    ensures Agreement(t).Err? ==> Agree(s, payload).Err?
    ensures Agreement(t).Ok? ==>
              Agree(s, payload) == Ok(s.(kex := s.kex.(strict := true, skipGuess := false, negotiated := Some(Agreement(t).value),
                                                       peerKexinit := Some(Lists(PeerOf(t, s.cfg.role)).(payload := payload)))))
  {
    hide Usable, Algo.Parse, Algo.Ed25519, Algo.StrictServer, Algo.StrictClient, Flags, Algo.Pick, Algo.Mlkem768, Algo.Curve25519,
         Algo.Curve25519Libssh, Compressed, Version.LocalId, Algo.OurPayload;
    var mine, theirs := Lists(s.cfg), Lists(PeerOf(t, s.cfg.role));
    assert Algo.KexAlgorithms(true)[3] == Algo.StrictServer() && Algo.KexAlgorithms(false)[3] == Algo.StrictClient();
    assert s.kex.initialDone ==> s.kex.strict by { assert Flags(s, Offered); FlagsStrict(s, Offered); }
  }

  lemma FlagsStrict(s: State, g: Stage)
    requires Flags(s, g)
    ensures s.kex.initialDone ==> s.kex.strict
  {
  }

  lemma AgreeMoves(t: Terms, s: State, payload: seq<byte>)
    requires ValidTerms(t) && InStage(t, s, Offered) && Ready(s)
    requires !s.phase.NeedPeerVersion?
    requires Offer(PeerOf(t, s.cfg.role), payload) && Agreement(t).Ok?
    ensures var r := Agree(s, payload);
            && r.Ok? && InStage(t, r.value, Agreed) && Ready(r.value)
            && r.value == s.(kex := r.value.kex)
            && r.value.kex.localKexinit == s.kex.localKexinit && r.value.kex.sessionId == s.kex.sessionId
            && r.value.kex.peerKexinit.Some? && r.value.kex.peerKexinit.value.payload == payload
  {
    hide Agree, Agreement, Offer, Usable, Algo.Ours, AppLike;
    AgreeResult(t, s, payload);
  }

  function AskMsg(c: Suite, a: State): Msg
    requires a.kex.ephemeral.Some?
  {
    var e := a.kex.ephemeral.value;
    Msg(EcdhInit(e.draw), [MSG_ECDH_INIT] + StringField(c.init(e.kind, e.draw)))
  }

  lemma AskMoves(c: Suite, t: Terms, s: State)
    requires Honest(c) && InStage(t, s, Agreed) && Ready(s)
    ensures var r := SendEcdhInit(c, s);
            && InStage(t, r, Asked) && Ready(r) && Sent(s.out, r.out, [AskMsg(c, r)])
            && r == s.(out := r.out, kex := r.kex)
            && r.kex.localKexinit == s.kex.localKexinit && r.kex.sessionId == s.kex.sessionId
            && r.kex.peerKexinit == s.kex.peerKexinit
  {
    hide Sent, Write, Offer, Agreement, StringField, KexKindOf, AppLike, Version.LocalId;
    var r := SendEcdhInit(c, s);
    var o := s.out.(drawn := s.out.drawn + 1);
    var kind := KexKindOf(s.kex);
    var payload := AskMsg(c, r).payload;
    SentNothing(s.out, o);
    StringLength(c.init(kind, s.out.drawn));
    SentWrite(o, EcdhInit(s.out.drawn), payload);
    SentThen(s.out, o, r.out, [], [AskMsg(c, r)]);
    var none: seq<Msg> := [];
    assert none + [AskMsg(c, r)] == [AskMsg(c, r)];
    EpochGrows(s.out, r.out, [AskMsg(c, r)]);
    assert KexKindOf(r.kex) == KexKindOf(s.kex) by { KindSame(r.kex, s.kex); }
  }

  lemma KindSame(a: Kex, b: Kex)
    requires a.negotiated == b.negotiated
    ensures KexKindOf(a) == KexKindOf(b)
  {
  }

  lemma StringLength(s: seq<byte>)
    ensures |StringField(s)| == 4 + |s|
  {
  }

  // --- switching keys ------------------------------------------------------------------------

  function KeysMsg(next: Cipher): Msg { Msg(NewKeys(next), [MSG_NEWKEYS]) }

  /** Our NEWKEYS under strict KEX, before the peer's has come. */
  lemma SendNewkeysIs(s: State)
    requires s.kex.pending.Some? && s.kex.strict && !s.kex.recvNewkeys
    ensures var p := s.kex.pending.value;
            SendNewkeys(s) == s.(out := Write(s.out, NewKeys(p.out), [MSG_NEWKEYS]).(cipher := p.out, epoch := s.out.epoch + 1, seqNr := 0),
                                 kex := s.kex.(pending := Some(Pending(Plain, p.inn)), sentNewkeys := true))
  {
  }

  /** `finish_kex` with the agreed algorithms: both directions get their keys unless the
      cipher is unknown. */
  lemma FinishIs(c: Suite, t: Terms, s: State, h: seq<byte>, k: Secret)
    requires ValidTerms(t) && Bargained(t, s.kex)
    ensures var n := Agreement(t).value;
            var sid := if s.kex.sessionId.Some? then s.kex.sessionId.value else h;
            var client := s.cfg.role.Client?;
            var c2s := DirectionCipher(c.digests, n.cipherC2s, k, h, sid, true);
            var s2c := DirectionCipher(c.digests, n.cipherS2c, k, h, sid, false);
            && (c2s.Ok? <==> s2c.Ok?) && (c2s.Ok? <==> FinishKex(c, s, h, k).Ok?)
            && (c2s.Ok? ==>
                  FinishKex(c, s, h, k).value == s.(kex := s.kex.(
                    sessionId := Some(sid),
                    pending := Some(if client then Pending(c2s.value, s2c.value) else Pending(s2c.value, c2s.value)),
                    compOut := if client then n.compC2s else n.compS2c,
                    compIn := if client then n.compS2c else n.compC2s)))
  {
    hide Agreement, Usable, DeriveKey, EncodeSecret, MakeCipher, KeyLengths;
    OneCipher(t);
  }

  // --- the two halves of the exchange --------------------------------------------------------

  lemma ReplyFits(c: Suite, h: seq<byte>, qs: seq<byte>, ds: nat, epoch: nat)
    requires Honest(c) && |qs| <= SIZE
    ensures Fits(EcdhReply(ds), ReplyPayload(c, h, qs), epoch)
  {
    hide StringField;
    StringLength(c.hostBlob);
    StringLength(qs);
    StringLength(c.sign(h));
  }

  /** The server's hash input, with the client's values on the client's side. */
  lemma ServerHash(c: Suite, s: State, qc: seq<byte>, qs: seq<byte>, k: Secret)
    requires s.cfg.role.Server? && s.peerId == Some(Version.LocalId()) && s.kex.peerKexinit.Some?
    ensures RoundOf(s, c.hostBlob, qc, qs, k)
         == HashInput(Version.LocalId(), Version.LocalId(), s.kex.peerKexinit.value.payload, s.kex.localKexinit, c.hostBlob, qc, qs, k)
    ensures RoundHash(c, s, c.hostBlob, qc, qs, k)
         == Ok(ExchangeHash(c.digests, Sha256, RoundOf(s, c.hostBlob, qc, qs, k)))
  {
    hide ExchangeHash;
  }

  lemma ClientHash(c: Suite, s: State, blob: seq<byte>, qc: seq<byte>, qs: seq<byte>, k: Secret)
    requires s.cfg.role.Client? && s.peerId == Some(Version.LocalId()) && s.kex.peerKexinit.Some?
    ensures RoundOf(s, blob, qc, qs, k)
         == HashInput(Version.LocalId(), Version.LocalId(), s.kex.localKexinit, s.kex.peerKexinit.value.payload, blob, qc, qs, k)
    ensures RoundHash(c, s, blob, qc, qs, k)
         == Ok(ExchangeHash(c.digests, Sha256, RoundOf(s, blob, qc, qs, k)))
  {
    hide ExchangeHash;
  }

  /** The state after the server has replied and switched. */
  function Answered(c: Suite, n: Algo.Negotiated, s: State, d: Deal, ds: nat): State {
    var o := Write(s.out.(drawn := ds + 1), EcdhReply(ds), d.reply);
    s.(out := Write(o, NewKeys(d.s2c), [MSG_NEWKEYS]).(cipher := d.s2c, epoch := s.out.epoch + 1, seqNr := 0),
       kex := s.kex.(sessionId := Some(d.session), pending := Some(Pending(Plain, d.c2s)), sentNewkeys := true,
                     compOut := n.compS2c, compIn := n.compC2s),
       rounds := s.rounds + [d.input])
  }

  lemma RespondIs(c: Suite, t: Terms, s: State, dc: nat)
    requires Honest(c) && ValidTerms(t) && InStage(t, s, Agreed) && s.cfg.role.Server?
    ensures var n := Agreement(t).value;
            var d := Settle(c, n, dc, s.out.drawn, s.kex.peerKexinit.value.payload, s.kex.localKexinit, s.kex.sessionId);
            var r := Respond(c, s, c.init(KindOf(n.kex), dc));
            && (r.Ok? <==> d.Ok?)
            && (d.Ok? ==> r == Ok(Answered(c, n, s, d.value, s.out.drawn)))
  {
    hide Agreement, Usable, ExchangeHash, RoundHash, RoundOf, FinishKex, DirectionCipher, SendNewkeys, Write, ReplyPayload, Offer,
         Compressed, Version.LocalId, SecretOf, KindOf;
    var n := Agreement(t).value;
    var kind := KindOf(n.kex);
    var qc := c.init(kind, dc);
    var ds := s.out.drawn;
    assert Completes(c, kind, dc, ds);
    var (qs, shared) := c.respond(kind, ds, qc).value;
    var k := SecretOf(kind, shared);
    ServerHash(c, s, qc, qs, k);
    var h := RoundHash(c, s, c.hostBlob, qc, qs, k).value;
    var m := s.(out := Write(s.out.(drawn := ds + 1), EcdhReply(ds), ReplyPayload(c, h, qs)),
                rounds := s.rounds + [RoundOf(s, c.hostBlob, qc, qs, k)]);
    FinishIs(c, t, m, h, k);
    assert m.out.epoch == s.out.epoch by { WriteKeepsEpoch(s.out.(drawn := ds + 1), EcdhReply(ds), ReplyPayload(c, h, qs)); }
    if FinishKex(c, m, h, k).Ok? {
      SendNewkeysIs(FinishKex(c, m, h, k).value);
    }
  }

  lemma WriteKeepsEpoch(o: Out, kind: Kind, payload: seq<byte>)
    ensures Write(o, kind, payload).epoch == o.epoch
  {
  }

  lemma SentReplyAndKeys(o: Out, ds: nat, reply: seq<byte>, next: Cipher)
    requires Fits(EcdhReply(ds), reply, o.epoch)
    ensures var m := Write(o.(drawn := ds + 1), EcdhReply(ds), reply);
            Sent(o, Write(m, NewKeys(next), [MSG_NEWKEYS]).(cipher := next, epoch := o.epoch + 1, seqNr := 0),
                 [Msg(EcdhReply(ds), reply), KeysMsg(next)])
  {
    hide Sent, Write, Fits;
    var p := o.(drawn := ds + 1);
    var m := Write(p, EcdhReply(ds), reply);
    SentNothing(o, p);
    SentWrite(p, EcdhReply(ds), reply);
    var reply' := Msg(EcdhReply(ds), reply);
    var none: seq<Msg> := [];
    SentThen(o, p, m, none, [reply']);
    assert none + [reply'] == [reply'];
    SentNewKeys(m, next);
    WriteKeepsEpoch(p, EcdhReply(ds), reply);
    SentThen(o, m, Write(m, NewKeys(next), [MSG_NEWKEYS]).(cipher := next, epoch := o.epoch + 1, seqNr := 0), [reply'], [KeysMsg(next)]);
    assert [reply'] + [KeysMsg(next)] == [reply', KeysMsg(next)];
  }

  lemma SettleFits(c: Suite, n: Algo.Negotiated, dc: nat, ds: nat, ci: seq<byte>, si: seq<byte>, earlier: Option<seq<byte>>, epoch: nat)
    requires Honest(c)
    ensures var d := Settle(c, n, dc, ds, ci, si, earlier);
            d.Ok? ==> Fits(EcdhReply(ds), d.value.reply, epoch)
  {
    hide ExchangeHash, DirectionCipher, ReplyPayload, Fits;
    var d := Settle(c, n, dc, ds, ci, si, earlier);
    assert Completes(c, KindOf(n.kex), dc, ds);
    if d.Ok? {
      var (qs, shared) := c.respond(KindOf(n.kex), ds, c.init(KindOf(n.kex), dc)).value;
      ReplyFits(c, d.value.hash, qs, ds, epoch);
    }
  }

  lemma AnsweredMoves(c: Suite, t: Terms, s: State, d: Deal)
    requires ValidTerms(t) && InStage(t, s, Agreed) && Ready(s) && s.cfg.role.Server?
    requires Fits(EcdhReply(s.out.drawn), d.reply, s.out.epoch)
    ensures var r := Answered(c, Agreement(t).value, s, d, s.out.drawn);
            && InStage(t, r, Keyed) && Ready(r)
            && Sent(s.out, r.out, [Msg(EcdhReply(s.out.drawn), d.reply), KeysMsg(d.s2c)])
  {
    hide Agreement, Usable, Fits, Sent, Offer, AppLike, Write, Version.LocalId;
    SentReplyAndKeys(s.out, s.out.drawn, d.reply, d.s2c);
  }

  /** The client reads the reply back. */
  lemma ReplyReads(c: Suite, h: seq<byte>, qs: seq<byte>)
    requires Honest(c) && |qs| <= SIZE
    ensures var p := ReplyPayload(c, h, qs);
            var blob := ReadString(p, 1);
            && blob.Ok? && blob.value.value == c.hostBlob
            && var q := ReadString(p, blob.value.next);
               && q.Ok? && q.value.value == qs
               && var sig := ReadString(p, q.value.next);
                  sig.Ok? && sig.value.value == c.sign(h)
  {
    hide StringField, ReadString;
    var p := ReplyPayload(c, h, qs);
    var a, b, g := StringField(c.hostBlob), StringField(qs), StringField(c.sign(h));
    ReadStringBack(c.hostBlob, [MSG_ECDH_REPLY], b + g);
    assert p == [MSG_ECDH_REPLY] + a + (b + g);
    ReadStringBack(qs, [MSG_ECDH_REPLY] + a, g);
    assert p == [MSG_ECDH_REPLY] + a + b + g;
    ReadStringBack(c.sign(h), [MSG_ECDH_REPLY] + a + b, []);
    assert p == [MSG_ECDH_REPLY] + a + b + g + [];
    StringLength(c.hostBlob);
    StringLength(qs);
  }

  /** The state after the client has concluded and switched. */
  function Concluded(c: Suite, n: Algo.Negotiated, s: State, d: Deal): State {
    s.(out := Write(s.out, NewKeys(d.c2s), [MSG_NEWKEYS]).(cipher := d.c2s, epoch := s.out.epoch + 1, seqNr := 0),
       kex := s.kex.(ephemeral := None, sessionId := Some(d.session), pending := Some(Pending(Plain, d.s2c)), sentNewkeys := true,
                     compOut := n.compC2s, compIn := n.compS2c),
       events := s.events + [ServerHostKey(c.hostBlob)], rounds := s.rounds + [d.input])
  }

  /** The client computes what the server computed: its hash passes the signature check, and
      it installs the same keys. */
  lemma ConcludeIs(c: Suite, t: Terms, s: State, ds: nat)
    requires Honest(c) && ValidTerms(t) && InStage(t, s, Asked) && s.cfg.role.Client?
    requires var e := s.kex.ephemeral.value;
             Settle(c, Agreement(t).value, e.draw, ds, s.kex.localKexinit, s.kex.peerKexinit.value.payload, s.kex.sessionId).Ok?
    ensures var e := s.kex.ephemeral.value;
            var n := Agreement(t).value;
            var d := Settle(c, n, e.draw, ds, s.kex.localKexinit, s.kex.peerKexinit.value.payload, s.kex.sessionId).value;
            OnEcdhReply(c, s, d.reply) == Ok(Concluded(c, n, s, d))
  {
    hide Agreement, Usable, ExchangeHash, RoundHash, RoundOf, FinishKex, DirectionCipher, SendNewkeys, Write, ReplyPayload, Offer,
         Compressed, Version.LocalId, SecretOf, KindOf, ReadString;
    var e := s.kex.ephemeral.value;
    var n := Agreement(t).value;
    assert Completes(c, e.kind, e.draw, ds);
    assert e.kind == KindOf(n.kex);
    var qc := c.init(e.kind, e.draw);
    var (qs, shared) := c.respond(e.kind, ds, qc).value;
    var k := SecretOf(e.kind, shared);
    ClientHash(c, s, c.hostBlob, qc, qs, k);
    var h := RoundHash(c, s, c.hostBlob, qc, qs, k).value;
    ReplyReads(c, h, qs);
    var m := s.(kex := s.kex.(ephemeral := None), events := s.events + [ServerHostKey(c.hostBlob)],
                rounds := s.rounds + [RoundOf(s, c.hostBlob, qc, qs, k)]);
    FinishIs(c, t, m, h, k);
    assert c.verify(c.hostBlob, h, c.sign(h));
    SendNewkeysIs(FinishKex(c, m, h, k).value);
  }

  lemma ConcludedMoves(c: Suite, t: Terms, s: State, d: Deal)
    requires ValidTerms(t) && InStage(t, s, Asked) && Ready(s) && s.cfg.role.Client?
    ensures var r := Concluded(c, Agreement(t).value, s, d);
            && InStage(t, r, Keyed) && Ready(r)
            && Sent(s.out, r.out, [KeysMsg(d.c2s)])
            && PacketsIn(r.events) == PacketsIn(s.events)
  {
    hide Agreement, Usable, Sent, Offer, AppLike, Write, PacketsIn, Version.LocalId;
    SentNewKeys(s.out, d.c2s);
    PacketsInSnoc(s.events, ServerHostKey(c.hostBlob));
    assert PacketsIn(s.events) + [] == PacketsIn(s.events);
  }

  /** The peer's NEWKEYS completes the round: the receiver switches to the keys it announced
      and starts clean. */
  lemma NewkeysMoves(t: Terms, s: State)
    requires InStage(t, s, Keyed) && Ready(s)
    ensures var r := OnNewkeys(s);
            && r.Ok? && InStage(t, r.value, Idle) && Ready(r.value) && Sent(s.out, r.value.out, [])
            && r.value.inn.cipher == s.kex.pending.value.inn && r.value.inn.seqNr == 0
            && r.value.cfg == s.cfg && r.value.kex.sessionId == s.kex.sessionId && r.value.phase.Established?
            && r.value.peerId == s.peerId && r.value.rounds == s.rounds
            && PacketsIn(r.value.events) == PacketsIn(s.events)
  {
    hide Agreement, Sent, Offer, AppLike, WriteAll, PacketsIn, Version.LocalId, Compressed;
    var o := s.out.(packets := 0);
    SentNothing(s.out, o);
    SentAll(o, s.queue);
    var none: seq<Msg> := [];
    SentThen(s.out, o, WriteAll(o, s.queue), none, none);
    assert none + none == none;
    EpochGrows(s.out, WriteAll(o, s.queue), none);
    PacketsInSnoc(s.events, Up);
    assert PacketsIn(s.events) + [] == PacketsIn(s.events);
    assert Compressed(t, s.cfg.role, s.kex);
    CompressedSame(t, s.cfg.role, s.kex, OnNewkeys(s).value.kex);
  }

  lemma CompressedSame(t: Terms, role: Role, a: Kex, b: Kex)
    requires Compressed(t, role, a) && a.compOut == b.compOut && a.compIn == b.compIn
    ensures Compressed(t, role, b)
  {
  }
}
