/** What the rounds of one endpoint rest on, whatever the peer sends: a client has checked a
    signature for every round it went through, and what was hashed is what this end had put
    on the wire and what its peer had said. */
module Exchange {
  import opened Bytes
  import opened Wire
  import opened Framing
  import opened Kdf
  import opened Transport
  import opened Runs
  import Algo
  import Sessions
  import Version

  // --- the record ------------------------------------------------------------------------

  /** The host keys that surfaced, in order. */
  function HostKeys(events: seq<Event>): seq<seq<byte>> {
    if events == [] then []
    else
      var last := events[|events| - 1];
      HostKeys(events[..|events| - 1]) + (if last.ServerHostKey? then [last.blob] else [])
  }

  function Blobs(rounds: seq<HashInput>): seq<seq<byte>> {
    seq(|rounds|, i requires 0 <= i < |rounds| => rounds[i].hostKeyBlob)
  }

  /** A signature of the exchange hash was good under the host key that was hashed. */
  ghost predicate Signed(c: Suite, x: HashInput) {
    exists sig :: c.verify(x.hostKeyBlob, ExchangeHash(c.digests, Sha256, x), sig)
  }

  ghost predicate Wrote(log: seq<Frame>, payload: seq<byte>) {
    exists i :: 0 <= i < |log| && log[i].payload == payload
  }

  ghost predicate WroteOffer(log: seq<Frame>, payload: seq<byte>) {
    exists i :: 0 <= i < |log| && log[i].kind.KexInitMsg? && log[i].payload == payload
  }

  /** A client hashes its own identification, an offer it sent, an ephemeral key it sent, and
      the identification it read; a server the same from its side, and has sent a reply with
      the host key, the ephemeral key and its signature. */
  ghost predicate Mine(c: Suite, role: Role, log: seq<Frame>, peerId: Option<seq<byte>>, x: HashInput) {
    match role
    case Client =>
      && x.clientId == Version.LocalId() && peerId == Some(x.serverId)
      && WroteOffer(log, x.clientKexinit)
      && Wrote(log, [30] + StringField(x.clientEphemeral))
    case Server =>
      && x.serverId == Version.LocalId() && peerId == Some(x.clientId)
      && WroteOffer(log, x.serverKexinit)
      && x.hostKeyBlob == c.hostBlob
      && Wrote(log, [31] + StringField(c.hostBlob) + StringField(x.serverEphemeral)
                    + StringField(c.sign(ExchangeHash(c.digests, Sha256, x))))
  }

  /** The offer the next round will hash went out, unless nothing goes out any more. */
  ghost predicate Offered(s: State) { s.out.closing || WroteOffer(s.out.log, s.kex.localKexinit) }

  ghost predicate Asked(c: Suite, s: State) {
    s.kex.ephemeral.Some? && !s.out.closing ==>
      Wrote(s.out.log, [30] + StringField(c.init(s.kex.ephemeral.value.kind, s.kex.ephemeral.value.draw)))
  }

  /** The endpoint is past its first exchange of secrets. */
  predicate Past(s: State) {
    s.kex.pending.Some? || s.kex.sentNewkeys || s.phase.Established? || Up in s.events
  }

  ghost predicate Recorded(c: Suite, cfg: Config, s: State) {
    && s.cfg == cfg
    && (s.cfg.role.Client? ==> HostKeys(s.events) == Blobs(s.rounds) && forall i :: 0 <= i < |s.rounds| ==> Signed(c, s.rounds[i]))
    && (forall i :: 0 <= i < |s.rounds| ==> Mine(c, s.cfg.role, s.out.log, s.peerId, s.rounds[i]))
    && Offered(s) && Asked(c, s)
    && (Past(s) ==> s.rounds != [])
    && (s.phase.NeedPeerVersion? ==> s.peerId.None?)
  }

  // --- operations that go through no round ---------------------------------------------------

  /** Nothing on record changes; the log only grows. */
  ghost predicate Still(c: Suite, s: State, t: State) {
    && t.cfg == s.cfg && t.rounds == s.rounds && HostKeys(t.events) == HostKeys(s.events)
    && s.out.log <= t.out.log && (s.out.closing ==> t.out.closing)
    && (s.peerId.Some? ==> t.peerId == s.peerId)
    && (t.phase.NeedPeerVersion? ==> s.phase.NeedPeerVersion? && t.peerId == s.peerId)
    && (t.kex.localKexinit == s.kex.localKexinit || Offered(t))
    && (t.kex.ephemeral == s.kex.ephemeral || Asked(c, t))
  }

  ghost predicate Calm(c: Suite, s: State, t: State) {
    Still(c, s, t) && (Past(t) ==> Past(s))
  }

  lemma WroteGrows(a: seq<Frame>, b: seq<Frame>, payload: seq<byte>)
    requires a <= b
    ensures Wrote(a, payload) ==> Wrote(b, payload)
    ensures WroteOffer(a, payload) ==> WroteOffer(b, payload)
  {
    if Wrote(a, payload) {
      var i :| 0 <= i < |a| && a[i].payload == payload;
      assert b[i] == a[i];
    }
    if WroteOffer(a, payload) {
      var i :| 0 <= i < |a| && a[i].kind.KexInitMsg? && a[i].payload == payload;
      assert b[i] == a[i];
    }
  }

  lemma MineGrows(c: Suite, role: Role, a: seq<Frame>, b: seq<Frame>, peerId: Option<seq<byte>>, x: HashInput)
    requires Mine(c, role, a, peerId, x) && a <= b
    ensures Mine(c, role, b, peerId, x)
  {
    hide Wrote, WroteOffer, StringField, ExchangeHash;
    match role
    case Client =>
      WroteGrows(a, b, x.clientKexinit);
      WroteGrows(a, b, [30] + StringField(x.clientEphemeral));
    case Server =>
      WroteGrows(a, b, x.serverKexinit);
      WroteGrows(a, b, [31] + StringField(c.hostBlob) + StringField(x.serverEphemeral)
                       + StringField(c.sign(ExchangeHash(c.digests, Sha256, x))));
  }

  lemma OfferedGrows(c: Suite, s: State, t: State)
    requires Offered(s) && Asked(c, s) && Still(c, s, t)
    ensures Offered(t) && Asked(c, t)
  {
    hide Wrote, WroteOffer, StringField, HostKeys;
    WroteGrows(s.out.log, t.out.log, s.kex.localKexinit);
    if s.kex.ephemeral.Some? {
      WroteGrows(s.out.log, t.out.log, [30] + StringField(c.init(s.kex.ephemeral.value.kind, s.kex.ephemeral.value.draw)));
    }
  }

  lemma MinesGrow(c: Suite, s: State, t: State)
    requires forall i :: 0 <= i < |s.rounds| ==> Mine(c, s.cfg.role, s.out.log, s.peerId, s.rounds[i])
    requires Still(c, s, t)
    ensures forall i :: 0 <= i < |t.rounds| ==> Mine(c, t.cfg.role, t.out.log, t.peerId, t.rounds[i])
  {
    forall i | 0 <= i < |t.rounds| ensures Mine(c, t.cfg.role, t.out.log, t.peerId, t.rounds[i]) {
      assert s.peerId.Some? by {
        hide Wrote, WroteOffer, StringField, ExchangeHash;
        assert Mine(c, s.cfg.role, s.out.log, s.peerId, s.rounds[i]);
      }
      hide Mine;
      MineGrows(c, s.cfg.role, s.out.log, t.out.log, s.peerId, s.rounds[i]);
    }
  }

  lemma StillRecorded(c: Suite, cfg: Config, s: State, t: State)
    requires Recorded(c, cfg, s) && Still(c, s, t) && (Past(t) ==> s.rounds != [])
    ensures Recorded(c, cfg, t)
  {
    hide Mine, Signed, HostKeys, Blobs, Offered, Asked, Past;
    OfferedGrows(c, s, t);
    MinesGrow(c, s, t);
  }

  lemma HostKeysSnoc(events: seq<Event>, e: Event)
    ensures HostKeys(events + [e]) == HostKeys(events) + (if e.ServerHostKey? then [e.blob] else [])
  {
    assert (events + [e])[..|events|] == events;
  }

  lemma WriteGrows(o: Out, kind: Kind, payload: seq<byte>)
    ensures var w := Write(o, kind, payload);
            && o.log <= w.log && (o.closing ==> w.closing && w == o)
            && (!o.closing ==> |w.log| == |o.log| + 1 && w.log[|o.log|].kind == kind && w.log[|o.log|].payload == payload)
  {
  }

  lemma {:induction false} WriteAllGrows(o: Out, payloads: seq<seq<byte>>)
    ensures o.log <= WriteAll(o, payloads).log && (o.closing ==> WriteAll(o, payloads).closing)
    decreases |payloads|
  {
    hide Write;
    if payloads != [] {
      WriteGrows(o, App, payloads[0]);
      WriteAllGrows(Write(o, App, payloads[0]), payloads[1..]);
    }
  }

  lemma BeginCalm(c: Suite, s: State)
    ensures Calm(c, s, BeginRekeyRound(c, s))
  {
    hide Write, KexinitPayload, HostKeys;
    var o := s.out.(drawn := s.out.drawn + 1);
    WriteGrows(o, KexInitMsg, KexinitPayload(c, s.cfg, s.out.drawn));
  }

  lemma DisconnectCalm(c: Suite, s: State, reason: u32, text: seq<byte>)
    ensures Calm(c, s, Disconnect(s, reason, text))
  {
    hide Write, DisconnectPayload, HostKeys;
    WriteGrows(s.out, DisconnectMsg, DisconnectPayload(reason, text));
  }

  lemma RekeyCalm(c: Suite, s: State)
    ensures Calm(c, s, InitiateRekey(c, s)) && Calm(c, s, AnswerRekey(c, s))
  {
    hide BeginRekeyRound, Disconnect, Ascii, HostKeys;
    BeginCalm(c, s);
    var u := s.(peerRekeys := s.peerRekeys + 1);
    BeginCalm(c, u);
    DisconnectCalm(c, u, PROTOCOL_ERROR, Ascii("re-key rate exceeded"));
  }

  lemma CalmThen(c: Suite, s: State, t: State, u: State)
    requires Calm(c, s, t) && Calm(c, t, u)
    ensures Calm(c, s, u)
  {
    hide HostKeys, StringField, Wrote;
    WroteGrows(t.out.log, u.out.log, t.kex.localKexinit);
    if t.kex.ephemeral.Some? {
      WroteGrows(t.out.log, u.out.log, [30] + StringField(c.init(t.kex.ephemeral.value.kind, t.kex.ephemeral.value.draw)));
    }
  }

  lemma SendCalm(c: Suite, s: State, payload: seq<byte>)
    ensures SendPacket(c, s, payload).Ok? ==> Calm(c, s, SendPacket(c, s, payload).value)
  {
    hide Write, InitiateRekey, HostKeys;
    var t := s.(out := Write(s.out, App, payload), bytesSince := SaturatingAdd(s.bytesSince, |payload|));
    WriteGrows(s.out, App, payload);
    RekeyCalm(c, t);
    CalmThen(c, s, t, InitiateRekey(c, t));
  }

  lemma EndStill(c: Suite, s: State)
    requires s.kex.sentNewkeys
    ensures Calm(c, s, EndRound(s))
  {
    hide HostKeys;
    HostKeysSnoc(s.events, Up);
  }

  lemma CompleteCalm(c: Suite, s: State)
    ensures Calm(c, s, MaybeComplete(s))
  {
    hide HostKeys, WriteAll, EndRound;
    if s.kex.sentNewkeys && s.kex.recvNewkeys {
      EndStill(c, s);
      var t := EndRound(s);
      WriteAllGrows(t.out, t.queue);
      var u := t.(out := WriteAll(t.out, t.queue), queue := []);
      CalmThen(c, s, t, u);
    }
  }

  lemma NewkeysCalm(c: Suite, s: State)
    ensures OnNewkeys(s).Ok? ==> Calm(c, s, OnNewkeys(s).value)
  {
    hide HostKeys, MaybeComplete;
    if s.kex.pending.Some? {
      var p := s.kex.pending.value;
      var t := s.(inn := s.inn.(cipher := p.inn, seqNr := if s.kex.strict then 0 else s.inn.seqNr),
                  kex := s.kex.(pending := Some(p.(inn := Plain)), recvNewkeys := true));
      CompleteCalm(c, t);
      CalmThen(c, s, t, MaybeComplete(t));
    }
  }

  lemma AgreeCalm(c: Suite, s: State, payload: seq<byte>)
    ensures Agree(s, payload).Ok? ==> Calm(c, s, Agree(s, payload).value)
  {
    hide Algo.Parse, Algo.Negotiate, Algo.StrictServer, Algo.StrictClient, WrongGuess, HostKeys;
  }

  lemma AskCalm(c: Suite, s: State)
    ensures Calm(c, s, SendEcdhInit(c, s))
  {
    hide Write, StringField, KexKindOf, HostKeys;
    var kind, draw := KexKindOf(s.kex), s.out.drawn;
    WriteGrows(s.out.(drawn := draw + 1), EcdhInit(draw), [MSG_ECDH_INIT] + StringField(c.init(kind, draw)));
  }

  lemma KexinitCalm(c: Suite, s: State, payload: seq<byte>)
    ensures OnPeerKexinit(c, s, payload).Ok? ==> Calm(c, s, OnPeerKexinit(c, s, payload).value)
  {
    hide AnswerRekey, Agree, SendEcdhInit, RekeyRefused, Calm;
    RekeyCalm(c, s);
    var t := AnswerRekey(c, s);
    AgreeCalm(c, t, payload);
    if Agree(t, payload).Ok? && !RekeyRefused(s) {
      var u := Agree(t, payload).value;
      CalmThen(c, s, t, u);
      AskCalm(c, u);
      CalmThen(c, s, u, SendEcdhInit(c, u));
    }
  }

  lemma PlainCalm(c: Suite, s: State, payload: seq<byte>)
    ensures OnDisconnect(s, payload).Ok? ==> Calm(c, s, OnDisconnect(s, payload).value)
    ensures OnOther(s, payload).Ok? ==> Calm(c, s, OnOther(s, payload).value)
    ensures Calm(c, s, s.(kex := s.kex.(skipGuess := false)))
  {
    hide ReadU32, HostKeys;
    HostKeysSnoc(s.events, PacketIn(payload));
    if OnDisconnect(s, payload).Ok? {
      HostKeysSnoc(s.events, Disconnected(ReadU32(payload, 1).value.value));
    }
  }

  // --- a round -----------------------------------------------------------------------------------

  lemma FinishStill(c: Suite, s: State, h: seq<byte>, k: Secret)
    ensures FinishKex(c, s, h, k).Ok? ==> Still(c, s, FinishKex(c, s, h, k).value)
  {
    hide DirectionCipher, HostKeys;
  }

  lemma InstallStill(c: Suite, s: State)
    ensures var t := InstallOut(s);
            var u := if t.kex.strict then t.(out := t.out.(seqNr := 0)) else t;
            Still(c, s, u.(kex := u.kex.(sentNewkeys := true)))
  {
    hide HostKeys;
  }

  lemma SwitchStill(c: Suite, s: State)
    ensures Still(c, s, SendNewkeys(s))
  {
    hide Write, MaybeComplete, InstallOut, Still;
    var next := if s.kex.pending.Some? then s.kex.pending.value.out else s.out.cipher;
    var w := s.(out := Write(s.out, NewKeys(next), [MSG_NEWKEYS]));
    WriteGrows(s.out, NewKeys(next), [MSG_NEWKEYS]);
    WroteStill(c, s, w);
    InstallStill(c, w);
    var t := InstallOut(w);
    var u := if t.kex.strict then t.(out := t.out.(seqNr := 0)) else t;
    var v := u.(kex := u.kex.(sentNewkeys := true));
    StillThen(c, s, w, v);
    CompleteCalm(c, v);
    StillThen(c, s, v, MaybeComplete(v));
  }

  lemma WroteStill(c: Suite, s: State, w: State)
    requires w == s.(out := w.out) && s.out.log <= w.out.log && (s.out.closing ==> w.out.closing)
    ensures Still(c, s, w)
  {
    hide HostKeys;
  }

  lemma StillThen(c: Suite, s: State, t: State, u: State)
    requires Still(c, s, t) && Still(c, t, u)
    ensures Still(c, s, u)
  {
    hide HostKeys, StringField, Wrote;
    WroteGrows(t.out.log, u.out.log, t.kex.localKexinit);
    if t.kex.ephemeral.Some? {
      WroteGrows(t.out.log, u.out.log, [30] + StringField(c.init(t.kex.ephemeral.value.kind, t.kex.ephemeral.value.draw)));
    }
  }

  /** Keying and switching keep a record that already has the round. */
  lemma KeyedRecorded(c: Suite, cfg: Config, t: State, h: seq<byte>, k: Secret)
    requires Recorded(c, cfg, t) && t.rounds != [] && FinishKex(c, t, h, k).Ok?
    ensures Recorded(c, cfg, SendNewkeys(FinishKex(c, t, h, k).value))
  {
    hide FinishKex, SendNewkeys, Recorded, Still;
    var u := FinishKex(c, t, h, k).value;
    FinishStill(c, t, h, k);
    SwitchStill(c, u);
    StillThen(c, t, u, SendNewkeys(u));
    StillRecorded(c, cfg, t, SendNewkeys(u));
  }

  lemma BlobsSnoc(rounds: seq<HashInput>, x: HashInput)
    ensures Blobs(rounds + [x]) == Blobs(rounds) + [x.hostKeyBlob]
  {
  }

  /** The client: a reply is on record only with a signature that was checked. */
  lemma ConcludeRecorded(c: Suite, cfg: Config, s: State, blob: seq<byte>, qs: seq<byte>, sig: seq<byte>)
    requires Recorded(c, cfg, s) && !s.out.closing && s.cfg.role.Client? && Conclude(c, s, blob, qs, sig).Ok?
    ensures Recorded(c, cfg, Conclude(c, s, blob, qs, sig).value)
  {
    hide FinishKex, SendNewkeys, RoundHash, RoundOf, SecretOf, ExchangeHash, HostKeys, Blobs, StringField, Wrote, WroteOffer;
    var e := s.kex.ephemeral.value;
    var k := SecretOf(e.kind, c.finish(e.kind, e.draw, qs).value);
    Sessions.HashIs(c, s, blob, c.init(e.kind, e.draw), qs, k);
    var x := RoundOf(s, blob, c.init(e.kind, e.draw), qs, k);
    var h := ExchangeHash(c.digests, Sha256, x);
    RoundIsClients(s, blob, c.init(e.kind, e.draw), qs, k);
    assert c.verify(x.hostKeyBlob, h, sig);
    var t := s.(kex := s.kex.(ephemeral := None), events := s.events + [ServerHostKey(blob)], rounds := s.rounds + [x]);
    HostKeysSnoc(s.events, ServerHostKey(blob));
    BlobsSnoc(s.rounds, x);
    assert Mine(c, Client, s.out.log, s.peerId, x);
    KeyedRecorded(c, cfg, t, h, k);
  }

  lemma RoundIsClients(s: State, blob: seq<byte>, qc: seq<byte>, qs: seq<byte>, k: Secret)
    requires s.cfg.role.Client? && s.peerId.Some? && s.kex.peerKexinit.Some?
    ensures var x := RoundOf(s, blob, qc, qs, k);
            && x.clientId == Version.LocalId() && x.serverId == s.peerId.value
            && x.clientKexinit == s.kex.localKexinit && x.serverKexinit == s.kex.peerKexinit.value.payload
            && x.hostKeyBlob == blob && x.clientEphemeral == qc && x.serverEphemeral == qs && x.secret == k
  {
  }

  lemma RoundIsServers(s: State, blob: seq<byte>, qc: seq<byte>, qs: seq<byte>, k: Secret)
    requires s.cfg.role.Server? && s.peerId.Some? && s.kex.peerKexinit.Some?
    ensures var x := RoundOf(s, blob, qc, qs, k);
            && x.serverId == Version.LocalId() && x.clientId == s.peerId.value
            && x.serverKexinit == s.kex.localKexinit && x.clientKexinit == s.kex.peerKexinit.value.payload
            && x.hostKeyBlob == blob && x.clientEphemeral == qc && x.serverEphemeral == qs && x.secret == k
  {
  }

  /** The server: a round is on record with the reply that signs it. */
  lemma RespondRecorded(c: Suite, cfg: Config, s: State, qc: seq<byte>)
    requires Recorded(c, cfg, s) && !s.out.closing && s.cfg.role.Server? && Respond(c, s, qc).Ok?
    ensures Recorded(c, cfg, Respond(c, s, qc).value)
  {
    hide FinishKex, SendNewkeys, RoundHash, RoundOf, SecretOf, ExchangeHash, HostKeys, Blobs, StringField, Write,
         KexKindOf, WroteOffer;
    var kind, draw := KexKindOf(s.kex), s.out.drawn;
    var (qs, shared) := c.respond(kind, draw, qc).value;
    var k := SecretOf(kind, shared);
    Sessions.HashIs(c, s, c.hostBlob, qc, qs, k);
    var x := RoundOf(s, c.hostBlob, qc, qs, k);
    var h := ExchangeHash(c.digests, Sha256, x);
    RoundIsServers(s, c.hostBlob, qc, qs, k);
    var o := s.out.(drawn := draw + 1);
    WriteGrows(o, EcdhReply(draw), ReplyPayload(c, h, qs));
    var w := s.(out := Write(o, EcdhReply(draw), ReplyPayload(c, h, qs)));
    assert w.out.log[|s.out.log|].payload == ReplyPayload(c, h, qs);
    WroteGrows(s.out.log, w.out.log, s.kex.localKexinit);
    assert Mine(c, Server, w.out.log, s.peerId, x);
    assert Still(c, s, w);
    StillRecorded(c, cfg, s, w);
    var t := w.(rounds := s.rounds + [x]);
    AddRound(c, cfg, w, t, x);
    KeyedRecorded(c, cfg, t, h, k);
  }

  lemma AddRound(c: Suite, cfg: Config, w: State, t: State, x: HashInput)
    requires Recorded(c, cfg, w) && w.cfg.role.Server? && t == w.(rounds := w.rounds + [x])
    requires Mine(c, Server, w.out.log, w.peerId, x)
    ensures Recorded(c, cfg, t)
  {
    hide Mine, HostKeys, Wrote, WroteOffer;
  }

  lemma EcdhRecorded(c: Suite, cfg: Config, s: State, payload: seq<byte>)
    requires Recorded(c, cfg, s) && !s.out.closing
    ensures s.cfg.role.Server? && OnEcdhInit(c, s, payload).Ok? ==> Recorded(c, cfg, OnEcdhInit(c, s, payload).value)
    ensures s.cfg.role.Client? && OnEcdhReply(c, s, payload).Ok? ==> Recorded(c, cfg, OnEcdhReply(c, s, payload).value)
  {
    hide Respond, Conclude, ReadString, Recorded, Calm;
    if s.kex.skipGuess {
      PlainCalm(c, s, payload);
      CalmRecorded(c, cfg, s, s.(kex := s.kex.(skipGuess := false)));
    } else {
      if s.cfg.role.Server? && OnEcdhInit(c, s, payload).Ok? {
        RespondRecorded(c, cfg, s, ReadString(payload, 1).value.value);
      }
      if s.cfg.role.Client? && OnEcdhReply(c, s, payload).Ok? {
        var blob := ReadString(payload, 1).value;
        var qs := ReadString(payload, blob.next).value;
        ConcludeRecorded(c, cfg, s, blob.value, qs.value, ReadString(payload, qs.next).value.value);
      }
    }
  }

  lemma CalmRecorded(c: Suite, cfg: Config, s: State, t: State)
    requires Recorded(c, cfg, s) && Calm(c, s, t)
    ensures Recorded(c, cfg, t)
  {
    hide Mine, Signed, HostKeys, Blobs, Offered, Asked, Past, Still;
    StillRecorded(c, cfg, s, t);
  }

  lemma HandleRecorded(c: Suite, cfg: Config, s: State, payload: seq<byte>)
    requires Recorded(c, cfg, s) && !s.out.closing && HandlePacket(c, s, payload).Ok?
    ensures Recorded(c, cfg, HandlePacket(c, s, payload).value)
  {
    hide OnPeerKexinit, OnEcdhInit, OnEcdhReply, OnNewkeys, OnDisconnect, OnOther, Recorded, Calm;
    EcdhRecorded(c, cfg, s, payload);
    KexinitCalm(c, s, payload);
    NewkeysCalm(c, s);
    PlainCalm(c, s, payload);
    var t := HandlePacket(c, s, payload).value;
    if t != s && Calm(c, s, t) {
      CalmRecorded(c, cfg, s, t);
    }
  }

  lemma AcceptRecorded(c: Suite, cfg: Config, s: State, payload: seq<byte>, n: nat)
    requires Recorded(c, cfg, s) && !s.out.closing && Accept(c, s, payload, n).Ok?
    ensures Recorded(c, cfg, Accept(c, s, payload, n).value)
  {
    hide HandlePacket, InitiateRekey, Recorded, Calm;
    var t := Count(s, n);
    assert Calm(c, s, t) by { CountCalm(c, s, n); }
    CalmRecorded(c, cfg, s, t);
    HandleRecorded(c, cfg, t, payload);
    var u := HandlePacket(c, t, payload).value;
    RekeyCalm(c, u);
    CalmRecorded(c, cfg, u, InitiateRekey(c, u));
  }

  lemma CountCalm(c: Suite, s: State, n: nat)
    ensures Calm(c, s, Count(s, n))
  {
    hide HostKeys;
  }

  lemma DriveOnceRecorded(c: Suite, cfg: Config, s: State, rx: seq<byte>)
    requires Recorded(c, cfg, s) && !s.out.closing && DriveOnce(c, s, rx).Took?
    ensures Recorded(c, cfg, DriveOnce(c, s, rx).state)
  {
    hide Accept, Open, Version.Parse, Recorded;
    if s.phase.NeedPeerVersion? {
      VersionRecorded(c, cfg, s, rx);
    } else {
      var r := Open(c.prim, s.inn.cipher, s.inn.seqNr, rx);
      AcceptRecorded(c, cfg, s, r.value.payload, r.value.consumed);
    }
  }

  lemma VersionRecorded(c: Suite, cfg: Config, s: State, rx: seq<byte>)
    requires Recorded(c, cfg, s) && s.phase.NeedPeerVersion? && ReadVersion(s, rx).Took?
    ensures Recorded(c, cfg, ReadVersion(s, rx).state)
  {
    hide Mine, Signed, HostKeys, Blobs, Version.Parse;
    var t := ReadVersion(s, rx).state;
    CalmRecorded(c, cfg, s, t);
  }

  lemma {:induction false} DriveRecorded(c: Suite, cfg: Config, s: State, rx: seq<byte>)
    requires Recorded(c, cfg, s)
    ensures Recorded(c, cfg, Drive(c, s, rx).state)
    decreases |rx|
  {
    hide DriveOnce, Recorded;
    if !s.out.closing {
      match DriveOnce(c, s, rx)
      case Took(t, n) =>
        DriveOnceRecorded(c, cfg, s, rx);
        DriveRecorded(c, cfg, t, rx[n..]);
      case _ =>
    }
  }

  lemma ActRecorded(c: Suite, cfg: Config, e: Endpoint, a: Action)
    requires Recorded(c, cfg, e.state)
    ensures Recorded(c, cfg, Act(c, e, a).state)
  {
    hide SendPacket, InitiateRekey, Disconnect, Drive, IgnorePayload, Recorded, Calm;
    var s := e.state;
    match a
    case Send(payload) => SendRecorded(c, cfg, s, payload);
    case Chaff(data) =>
      var t := s.(out := s.out.(drawn := s.out.drawn + 1));
      assert Calm(c, s, t) by { SettingsCalm(c, s, t); }
      CalmRecorded(c, cfg, s, t);
      SendRecorded(c, cfg, t, IgnorePayload(data));
    case Rekey =>
      RekeyCalm(c, s);
      CalmRecorded(c, cfg, s, InitiateRekey(c, s));
    case Hangup(reason, text) =>
      DisconnectCalm(c, s, reason, text);
      CalmRecorded(c, cfg, s, Disconnect(s, reason, text));
    case SetRekeyLimits(b, p) =>
      SettingsCalm(c, s, s.(limits := s.limits.(bytes := b, packets := p)));
      CalmRecorded(c, cfg, s, s.(limits := s.limits.(bytes := b, packets := p)));
    case SetMaxPeerRekeys(n) =>
      SettingsCalm(c, s, s.(limits := s.limits.(maxPeerRekeys := n)));
      CalmRecorded(c, cfg, s, s.(limits := s.limits.(maxPeerRekeys := n)));
    case Input(data) => DriveRecorded(c, cfg, s, e.rx + data);
  }

  lemma SendRecorded(c: Suite, cfg: Config, s: State, payload: seq<byte>)
    requires Recorded(c, cfg, s)
    ensures SendPacket(c, s, payload).Ok? ==> Recorded(c, cfg, SendPacket(c, s, payload).value)
  {
    hide SendPacket, Recorded, Calm;
    SendCalm(c, s, payload);
    if SendPacket(c, s, payload).Ok? {
      CalmRecorded(c, cfg, s, SendPacket(c, s, payload).value);
    }
  }

  lemma SettingsCalm(c: Suite, s: State, t: State)
    requires t == s.(limits := t.limits, out := s.out.(drawn := t.out.drawn))
    ensures Calm(c, s, t)
  {
    hide HostKeys;
  }

  lemma {:induction false} RunRecorded(c: Suite, cfg: Config, e: Endpoint, actions: seq<Action>)
    requires Recorded(c, cfg, e.state)
    ensures Recorded(c, cfg, Run(c, e, actions).state)
    decreases |actions|
  {
    hide Act, Recorded;
    if actions != [] {
      ActRecorded(c, cfg, e, actions[0]);
      RunRecorded(c, cfg, Act(c, e, actions[0]), actions[1..]);
    }
  }

  lemma StartRecorded(c: Suite, cfg: Config)
    ensures Recorded(c, cfg, Start(c, cfg))
  {
    hide Write, KexinitPayload, Ascii;
    var o := Initial(cfg).out;
    WriteGrows(o.(drawn := 1), KexInitMsg, KexinitPayload(c, cfg, 0));
    assert HostKeys([]) == [] && Blobs([]) == [];
  }

  // --- the results ---------------------------------------------------------------------------------

  /** For any peer and any calls: every host key a client surfaced, in order, is the one hashed
      in one of its rounds, and a signature of that round's hash was good under it; a client that
      is up has been through such a round, and its session id is a hash that was signed. */
  lemma EveryRoundSigned(c: Suite, cfg: Config, actions: seq<Action>)
    requires cfg.role.Client?
    ensures var s := Run(c, Launch(c, cfg), actions).state;
            && HostKeys(s.events) == Blobs(s.rounds)
            && (forall i :: 0 <= i < |s.rounds| ==> Signed(c, s.rounds[i]))
            && (s.phase.Established? || Up in s.events ==> s.rounds != [])
            && (s.kex.sessionId.Some? ==> exists blob, sig :: c.verify(blob, s.kex.sessionId.value, sig))
  {
    hide Run, Start, Mine, HostKeys, Blobs, ExchangeHash, Offered, Asked;
    var s := Run(c, Launch(c, cfg), actions).state;
    StartRecorded(c, cfg);
    RunRecorded(c, cfg, Launch(c, cfg), actions);
    Sessions.RoundsCounted(c, cfg, actions);
    if s.kex.sessionId.Some? {
      assert Signed(c, s.rounds[0]);
    }
  }

  /** Where no signature is good, no client gets up, nor does it surface any host key. */
  lemma NoForgery(c: Suite, cfg: Config, actions: seq<Action>)
    requires cfg.role.Client? && forall blob, h, sig :: !c.verify(blob, h, sig)
    ensures var s := Run(c, Launch(c, cfg), actions).state;
            Up !in s.events && !s.phase.Established? && s.rounds == [] && s.kex.sessionId.None? && HostKeys(s.events) == []
  {
    hide Run, Launch, ExchangeHash;
    EveryRoundSigned(c, cfg, actions);
    Sessions.RoundsCounted(c, cfg, actions);
    var s := Run(c, Launch(c, cfg), actions).state;
    SignedFirst(c, s.rounds);
  }

  ghost predicate FirstSigned(c: Suite, rounds: seq<HashInput>) { rounds == [] || Signed(c, rounds[0]) }

  lemma SignedFirst(c: Suite, rounds: seq<HashInput>)
    requires forall i :: 0 <= i < |rounds| ==> Signed(c, rounds[i])
    ensures FirstSigned(c, rounds)
  {
    hide Signed;
  }

  /** For any peer and any calls: what an endpoint hashed in a round is what it had sent for
      it. A client hashed its own identification, an offer and an ephemeral key that it sent; a
      server its own identification, an offer it sent, and the host key and the ephemeral key of
      a reply that carries its signature of this very hash; both, the identification they read. */
  lemma EveryRoundMine(c: Suite, cfg: Config, actions: seq<Action>)
    ensures var s := Run(c, Launch(c, cfg), actions).state;
            forall i :: 0 <= i < |s.rounds| ==> Mine(c, cfg.role, s.out.log, s.peerId, s.rounds[i])
  {
    hide Run, Start, Mine, Signed, HostKeys, Blobs, Offered, Asked;
    StartRecorded(c, cfg);
    RunRecorded(c, cfg, Launch(c, cfg), actions);
  }
}
