/** The session identifier of a connection, whatever the peer does: the first round settles
    it and no later round changes it (RFC 4253 section 7.2). */
module Sessions {
  import opened Bytes
  import opened Framing
  import opened Kdf
  import opened Transport
  import opened Runs
  import Algo
  import Version
  import Wire

  /** The rounds gone through and what they left: an outbound key epoch for each, and the hash
      of the first as the session id. */
  predicate Historied(c: Suite, s: State) {
    && s.out.epoch == |s.rounds|
    && s.kex.sessionId == if s.rounds == [] then None else Some(ExchangeHash(c.digests, Sha256, s.rounds[0]))
  }

  predicate Keeps(c: Suite, s: State, r: State) {
    && (s.kex.sessionId.Some? ==> r.kex.sessionId == s.kex.sessionId)
    && s.rounds <= r.rounds
    && (Historied(c, s) ==> Historied(c, r))
  }

  lemma WriteEpoch(o: Out, kind: Kind, payload: seq<byte>)
    ensures Write(o, kind, payload).epoch == o.epoch
  {
  }

  lemma {:induction false} WriteAllEpoch(o: Out, payloads: seq<seq<byte>>)
    ensures WriteAll(o, payloads).epoch == o.epoch
    decreases |payloads|
  {
    hide Write;
    if payloads != [] {
      WriteEpoch(o, App, payloads[0]);
      WriteAllEpoch(Write(o, App, payloads[0]), payloads[1..]);
    }
  }

  lemma BeginKeeps(c: Suite, s: State)
    ensures Keeps(c, s, BeginRekeyRound(c, s))
  {
    hide Write, KexinitPayload;
    var u := s.out.(drawn := s.out.drawn + 1);
    WriteEpoch(u, KexInitMsg, KexinitPayload(c, s.cfg, s.out.drawn));
  }

  lemma DisconnectKeeps(c: Suite, s: State, reason: u32, text: seq<byte>)
    ensures Keeps(c, s, Disconnect(s, reason, text))
  {
    hide Write, DisconnectPayload;
    WriteEpoch(s.out, DisconnectMsg, DisconnectPayload(reason, text));
  }

  lemma RekeyKeeps(c: Suite, s: State)
    ensures Keeps(c, s, InitiateRekey(c, s)) && Keeps(c, s, AnswerRekey(c, s))
  {
    hide BeginRekeyRound, Disconnect, Ascii;
    BeginKeeps(c, s);
    var u := s.(peerRekeys := s.peerRekeys + 1);
    BeginKeeps(c, u);
    DisconnectKeeps(c, u, PROTOCOL_ERROR, Ascii("re-key rate exceeded"));
  }

  lemma SendKeeps(c: Suite, s: State, payload: seq<byte>)
    ensures SendPacket(c, s, payload).Ok? ==> Keeps(c, s, SendPacket(c, s, payload).value)
  {
    hide Write, InitiateRekey;
    var t := s.(out := Write(s.out, App, payload), bytesSince := SaturatingAdd(s.bytesSince, |payload|));
    WriteEpoch(s.out, App, payload);
    RekeyKeeps(c, t);
  }

  lemma CompleteFacts(s: State)
    ensures var r := MaybeComplete(s);
            r.out.epoch == s.out.epoch && r.rounds == s.rounds && r.kex.sessionId == s.kex.sessionId
  {
    hide Write, WriteAll;
    WriteAllEpoch(s.out.(packets := 0), s.queue);
  }

  lemma NewkeysFacts(s: State)
    ensures var r := SendNewkeys(s);
            && r.out.epoch == s.out.epoch + (if s.kex.pending.Some? then 1 else 0)
            && r.rounds == s.rounds && r.kex.sessionId == s.kex.sessionId
    ensures OnNewkeys(s).Ok? ==>
              var r := OnNewkeys(s).value;
              r.out.epoch == s.out.epoch && r.rounds == s.rounds && r.kex.sessionId == s.kex.sessionId
  {
    hide Write, MaybeComplete;
    var next := if s.kex.pending.Some? then s.kex.pending.value.out else s.out.cipher;
    WriteEpoch(s.out, NewKeys(next), [MSG_NEWKEYS]);
    var t := InstallOut(s.(out := Write(s.out, NewKeys(next), [MSG_NEWKEYS])));
    var u := if t.kex.strict then t.(out := t.out.(seqNr := 0)) else t;
    CompleteFacts(u.(kex := u.kex.(sentNewkeys := true)));
    if s.kex.pending.Some? {
      var p := s.kex.pending.value;
      var v := s.(inn := s.inn.(cipher := p.inn, seqNr := if s.kex.strict then 0 else s.inn.seqNr),
                  kex := s.kex.(pending := Some(p.(inn := Plain)), recvNewkeys := true));
      CompleteFacts(v);
    }
  }

  /** A round's own hash becomes the session id only if it is the first. */
  lemma FinishFacts(c: Suite, s: State, h: seq<byte>, k: Secret)
    ensures FinishKex(c, s, h, k).Ok? ==>
              var r := FinishKex(c, s, h, k).value;
              && r.kex.sessionId == Some(if s.kex.sessionId.Some? then s.kex.sessionId.value else h)
              && r.kex.pending.Some? && r.out == s.out && r.rounds == s.rounds
  {
    hide DirectionCipher;
  }

  /** Hashing, keying and switching, as both ends do them, keep the history. */
  lemma RoundKeeps(c: Suite, s: State, t: State, x: HashInput, k: Secret)
    requires t.rounds == s.rounds + [x] && t.kex.sessionId == s.kex.sessionId && t.out.epoch == s.out.epoch
    ensures var u := FinishKex(c, t, ExchangeHash(c.digests, Sha256, x), k);
            u.Ok? ==> Keeps(c, s, SendNewkeys(u.value))
  {
    hide FinishKex, SendNewkeys, ExchangeHash;
    var h := ExchangeHash(c.digests, Sha256, x);
    FinishFacts(c, t, h, k);
    if FinishKex(c, t, h, k).Ok? {
      NewkeysFacts(FinishKex(c, t, h, k).value);
    }
  }

  lemma HashIs(c: Suite, s: State, blob: seq<byte>, qc: seq<byte>, qs: seq<byte>, k: Secret)
    requires RoundHash(c, s, blob, qc, qs, k).Ok?
    ensures RoundHash(c, s, blob, qc, qs, k).value == ExchangeHash(c.digests, Sha256, RoundOf(s, blob, qc, qs, k))
  {
    hide ExchangeHash, RoundOf;
  }

  lemma EcdhKeeps(c: Suite, s: State, payload: seq<byte>)
    ensures OnEcdhInit(c, s, payload).Ok? ==> Keeps(c, s, OnEcdhInit(c, s, payload).value)
  {
    hide FinishKex, SendNewkeys, RoundHash, RoundOf, Write, ReplyPayload, Wire.ReadString, SecretOf, KexKindOf, ExchangeHash;
    var r := OnEcdhInit(c, s, payload);
    if r.Ok? && !s.kex.skipGuess {
      var qc := Wire.ReadString(payload, 1).value.value;
      var kind, draw := KexKindOf(s.kex), s.out.drawn;
      var (qs, shared) := c.respond(kind, draw, qc).value;
      var k := SecretOf(kind, shared);
      HashIs(c, s, c.hostBlob, qc, qs, k);
      var h := RoundHash(c, s, c.hostBlob, qc, qs, k).value;
      var x := RoundOf(s, c.hostBlob, qc, qs, k);
      WriteEpoch(s.out.(drawn := draw + 1), EcdhReply(draw), ReplyPayload(c, h, qs));
      RoundKeeps(c, s, s.(out := Write(s.out.(drawn := draw + 1), EcdhReply(draw), ReplyPayload(c, h, qs)), rounds := s.rounds + [x]), x, k);
    }
  }

  lemma ConcludeKeeps(c: Suite, s: State, blob: seq<byte>, qs: seq<byte>, sig: seq<byte>)
    ensures Conclude(c, s, blob, qs, sig).Ok? ==> Keeps(c, s, Conclude(c, s, blob, qs, sig).value)
  {
    hide FinishKex, SendNewkeys, RoundHash, RoundOf, SecretOf, ExchangeHash;
    if Conclude(c, s, blob, qs, sig).Ok? {
      var e := s.kex.ephemeral.value;
      var k := SecretOf(e.kind, c.finish(e.kind, e.draw, qs).value);
      HashIs(c, s, blob, c.init(e.kind, e.draw), qs, k);
      var x := RoundOf(s, blob, c.init(e.kind, e.draw), qs, k);
      RoundKeeps(c, s, s.(kex := s.kex.(ephemeral := None), events := s.events + [ServerHostKey(blob)], rounds := s.rounds + [x]), x, k);
    }
  }

  lemma ReplyKeeps(c: Suite, s: State, payload: seq<byte>)
    ensures OnEcdhReply(c, s, payload).Ok? ==> Keeps(c, s, OnEcdhReply(c, s, payload).value)
  {
    hide Conclude, Wire.ReadString;
    if OnEcdhReply(c, s, payload).Ok? && !s.kex.skipGuess {
      var blob := Wire.ReadString(payload, 1).value;
      var qs := Wire.ReadString(payload, blob.next).value;
      var sig := Wire.ReadString(payload, qs.next).value;
      ConcludeKeeps(c, s, blob.value, qs.value, sig.value);
    }
  }

  lemma AgreeFacts(s: State, payload: seq<byte>)
    ensures Agree(s, payload).Ok? ==>
              var r := Agree(s, payload).value;
              r.out == s.out && r.rounds == s.rounds && r.kex.sessionId == s.kex.sessionId
  {
    hide Algo.Parse, Algo.Negotiate, Algo.StrictClient, Algo.StrictServer, WrongGuess;
  }

  lemma AskFacts(c: Suite, s: State)
    ensures var r := SendEcdhInit(c, s);
            r.out.epoch == s.out.epoch && r.rounds == s.rounds && r.kex.sessionId == s.kex.sessionId
  {
    hide Write, Wire.StringField, KexKindOf;
    var kind, draw := KexKindOf(s.kex), s.out.drawn;
    WriteEpoch(s.out.(drawn := draw + 1), EcdhInit(draw), [MSG_ECDH_INIT] + Wire.StringField(c.init(kind, draw)));
  }

  lemma KexinitKeeps(c: Suite, s: State, payload: seq<byte>)
    ensures OnPeerKexinit(c, s, payload).Ok? ==> Keeps(c, s, OnPeerKexinit(c, s, payload).value)
  {
    hide AnswerRekey, Agree, SendEcdhInit, ExchangeHash, RekeyRefused;
    RekeyKeeps(c, s);
    var u := AnswerRekey(c, s);
    AgreeFacts(u, payload);
    if Agree(u, payload).Ok? {
      AskFacts(c, Agree(u, payload).value);
    }
  }

  lemma HandleKeeps(c: Suite, s: State, payload: seq<byte>)
    ensures HandlePacket(c, s, payload).Ok? ==> Keeps(c, s, HandlePacket(c, s, payload).value)
  {
    hide OnPeerKexinit, OnEcdhInit, OnEcdhReply, OnNewkeys, Wire.ReadU32, ExchangeHash;
    KexinitKeeps(c, s, payload);
    EcdhKeeps(c, s, payload);
    ReplyKeeps(c, s, payload);
    NewkeysFacts(s);
  }

  lemma DriveOnceKeeps(c: Suite, s: State, rx: seq<byte>)
    ensures DriveOnce(c, s, rx).Took? ==> Keeps(c, s, DriveOnce(c, s, rx).state)
  {
    hide HandlePacket, InitiateRekey, Open, Version.Parse, ExchangeHash;
    if !s.phase.NeedPeerVersion? {
      var r := Open(c.prim, s.inn.cipher, s.inn.seqNr, rx);
      if r.Ok? && r.value.Packet? {
        var t := Count(s, r.value.consumed);
        HandleKeeps(c, t, r.value.payload);
        if HandlePacket(c, t, r.value.payload).Ok? {
          RekeyKeeps(c, HandlePacket(c, t, r.value.payload).value);
        }
      }
    }
  }

  lemma {:induction false} DriveKeeps(c: Suite, s: State, rx: seq<byte>)
    ensures Keeps(c, s, Drive(c, s, rx).state)
    decreases |rx|
  {
    hide DriveOnce;
    if !s.out.closing {
      DriveOnceKeeps(c, s, rx);
      match DriveOnce(c, s, rx)
      case Took(t, n) => DriveKeeps(c, t, rx[n..]);
      case _ =>
    }
  }

  lemma ActKeeps(c: Suite, e: Endpoint, a: Action)
    ensures Keeps(c, e.state, Act(c, e, a).state)
  {
    hide SendPacket, InitiateRekey, Drive, Disconnect, IgnorePayload, ExchangeHash;
    match a
    case Send(payload) => SendKeeps(c, e.state, payload);
    case Chaff(data) => SendKeeps(c, e.state.(out := e.state.out.(drawn := e.state.out.drawn + 1)), IgnorePayload(data));
    case Rekey => RekeyKeeps(c, e.state);
    case Hangup(reason, text) => DisconnectKeeps(c, e.state, reason, text);
    case Input(data) => DriveKeeps(c, e.state, e.rx + data);
    case _ =>
  }

  /** Once an endpoint has a session id it keeps it, through every call, every byte the peer
      sends and every further round. */
  lemma {:induction false} SessionIdStays(c: Suite, e: Endpoint, actions: seq<Action>)
    requires e.state.kex.sessionId.Some?
    ensures Run(c, e, actions).state.kex.sessionId == e.state.kex.sessionId
    decreases |actions|
  {
    hide Act;
    if actions != [] {
      ActKeeps(c, e, actions[0]);
      SessionIdStays(c, Act(c, e, actions[0]), actions[1..]);
    }
  }

  lemma {:induction false} RunKeeps(c: Suite, e: Endpoint, actions: seq<Action>)
    ensures Keeps(c, e.state, Run(c, e, actions).state)
    decreases |actions|
  {
    hide Act;
    if actions != [] {
      ActKeeps(c, e, actions[0]);
      RunKeeps(c, Act(c, e, actions[0]), actions[1..]);
    }
  }

  lemma StartHistoried(c: Suite, cfg: Config)
    ensures Historied(c, Start(c, cfg))
  {
    hide Write, KexinitPayload, Ascii, ExchangeHash;
    var o := Initial(cfg).out;
    WriteEpoch(o.(drawn := o.drawn + 1), KexInitMsg, KexinitPayload(c, cfg, o.drawn));
  }

  /** For any peer: the session id is the hash of the first round gone through, and there has
      been one outbound key epoch for each round. */
  lemma RoundsCounted(c: Suite, cfg: Config, actions: seq<Action>)
    ensures Historied(c, Run(c, Launch(c, cfg), actions).state)
  {
    hide Run, Start, ExchangeHash, Historied;
    StartHistoried(c, cfg);
    RunKeeps(c, Launch(c, cfg), actions);
  }
}
