/** Whatever the peer does, no application packet leaves in the clear. */
module Cleartext {
  import opened Bytes
  import opened Wire
  import opened Framing
  import opened Kdf
  import opened Transport
  import opened Runs
  import Algo
  import Version

  ghost predicate AppsSealed(log: seq<Frame>) {
    forall i :: 0 <= i < |log| && log[i].kind.App? ==> !log[i].cipher.Plain?
  }

  /** Past its own NEWKEYS an endpoint sends under a key. */
  ghost predicate Covered(s: State) {
    AppsSealed(s.out.log) && (s.kex.sentNewkeys || s.phase.Established? ==> !s.out.cipher.Plain?)
  }

  lemma WriteSealed(o: Out, kind: Kind, payload: seq<byte>)
    requires AppsSealed(o.log) && (kind.App? ==> !o.cipher.Plain?)
    ensures AppsSealed(Write(o, kind, payload).log) && Write(o, kind, payload).cipher.Plain? == o.cipher.Plain?
  {
  }

  lemma {:induction false} WriteAllSealed(o: Out, payloads: seq<seq<byte>>)
    requires AppsSealed(o.log) && !o.cipher.Plain?
    ensures AppsSealed(WriteAll(o, payloads).log) && !WriteAll(o, payloads).cipher.Plain?
    decreases |payloads|
  {
    hide Write, AppsSealed;
    if payloads != [] {
      WriteSealed(o, App, payloads[0]);
      WriteAllSealed(Write(o, App, payloads[0]), payloads[1..]);
    }
  }

  /** What the invariant sees of an operation that switches no keys. */
  lemma SameCover(s: State, t: State)
    requires Covered(s) && AppsSealed(t.out.log) && t.out.cipher.Plain? == s.out.cipher.Plain?
    requires (t.kex.sentNewkeys ==> s.kex.sentNewkeys) && (t.phase.Established? ==> s.phase.Established? || s.kex.sentNewkeys)
    ensures Covered(t)
  {
    hide AppsSealed;
  }

  lemma BeginCovered(c: Suite, s: State)
    requires Covered(s)
    ensures Covered(BeginRekeyRound(c, s))
  {
    hide Write, KexinitPayload, AppsSealed;
    WriteSealed(s.out.(drawn := s.out.drawn + 1), KexInitMsg, KexinitPayload(c, s.cfg, s.out.drawn));
  }

  lemma DisconnectCovered(s: State, reason: u32, text: seq<byte>)
    requires Covered(s)
    ensures Covered(Disconnect(s, reason, text))
  {
    hide Write, DisconnectPayload, AppsSealed;
    WriteSealed(s.out, DisconnectMsg, DisconnectPayload(reason, text));
  }

  lemma RekeyCovered(c: Suite, s: State)
    requires Covered(s)
    ensures Covered(InitiateRekey(c, s)) && Covered(AnswerRekey(c, s))
  {
    hide BeginRekeyRound, Disconnect, Ascii, AppsSealed;
    var u := s.(peerRekeys := s.peerRekeys + 1);
    BeginCovered(c, s);
    BeginCovered(c, u);
    DisconnectCovered(u, PROTOCOL_ERROR, Ascii("re-key rate exceeded"));
  }

  lemma SendCovered(c: Suite, s: State, payload: seq<byte>)
    requires Covered(s)
    ensures SendPacket(c, s, payload).Ok? ==> Covered(SendPacket(c, s, payload).value)
  {
    hide Write, InitiateRekey, AppsSealed;
    if s.phase.Established? {
      WriteSealed(s.out, App, payload);
      RekeyCovered(c, s.(out := Write(s.out, App, payload), bytesSince := SaturatingAdd(s.bytesSince, |payload|)));
    }
  }

  lemma CompleteCovered(s: State)
    requires Covered(s)
    ensures Covered(MaybeComplete(s))
  {
    hide WriteAll, AppsSealed;
    if s.kex.sentNewkeys {
      WriteAllSealed(s.out.(packets := 0), s.queue);
    }
  }

  lemma NewkeysCovered(s: State)
    requires Covered(s)
    ensures OnNewkeys(s).Ok? ==> Covered(OnNewkeys(s).value)
  {
    hide MaybeComplete, AppsSealed;
    if s.kex.pending.Some? {
      var p := s.kex.pending.value;
      CompleteCovered(s.(inn := s.inn.(cipher := p.inn, seqNr := if s.kex.strict then 0 else s.inn.seqNr),
                         kex := s.kex.(pending := Some(p.(inn := Plain)), recvNewkeys := true)));
    }
  }

  lemma FinishCovers(c: Suite, s: State, h: seq<byte>, k: Secret)
    ensures FinishKex(c, s, h, k).Ok? ==>
              var t := FinishKex(c, s, h, k).value;
              t == s.(kex := t.kex) && t.kex.pending.Some? && !t.kex.pending.value.out.Plain? && t.kex.sentNewkeys == s.kex.sentNewkeys
  {
    hide DeriveKey, EncodeSecret, FromBe64, Ascii;
  }

  /** Switching to a staged key. */
  lemma SwitchCovered(s: State)
    requires Covered(s) && s.kex.pending.Some? && !s.kex.pending.value.out.Plain?
    ensures Covered(SendNewkeys(s))
  {
    hide Write, MaybeComplete, AppsSealed;
    var next := s.kex.pending.value.out;
    WriteSealed(s.out, NewKeys(next), [MSG_NEWKEYS]);
    var t := InstallOut(s.(out := Write(s.out, NewKeys(next), [MSG_NEWKEYS])));
    var u := if t.kex.strict then t.(out := t.out.(seqNr := 0)) else t;
    CompleteCovered(u.(kex := u.kex.(sentNewkeys := true)));
  }

  lemma KeyedCovered(c: Suite, t: State, h: seq<byte>, k: Secret)
    requires Covered(t) && FinishKex(c, t, h, k).Ok?
    ensures Covered(SendNewkeys(FinishKex(c, t, h, k).value))
  {
    hide FinishKex, SendNewkeys, AppsSealed;
    FinishCovers(c, t, h, k);
    SwitchCovered(FinishKex(c, t, h, k).value);
  }

  lemma EcdhCovered(c: Suite, s: State, payload: seq<byte>)
    requires Covered(s)
    ensures OnEcdhInit(c, s, payload).Ok? ==> Covered(OnEcdhInit(c, s, payload).value)
    ensures OnEcdhReply(c, s, payload).Ok? ==> Covered(OnEcdhReply(c, s, payload).value)
  {
    hide Respond, Conclude, ReadString, AppsSealed;
    var first := ReadString(payload, 1);
    if first.Ok? {
      RespondCovered(c, s, first.value.value);
      var qs := ReadString(payload, first.value.next);
      if qs.Ok? {
        var sig := ReadString(payload, qs.value.next);
        if sig.Ok? {
          ConcludeCovered(c, s, first.value.value, qs.value.value, sig.value.value);
        }
      }
    }
  }

  lemma RespondCovered(c: Suite, s: State, qc: seq<byte>)
    requires Covered(s)
    ensures Respond(c, s, qc).Ok? ==> Covered(Respond(c, s, qc).value)
  {
    hide FinishKex, SendNewkeys, RoundHash, ReplyPayload, Write, AppsSealed, RoundOf, SecretOf, KexKindOf;
    if Respond(c, s, qc).Ok? {
      var kind, draw := KexKindOf(s.kex), s.out.drawn;
      var (qs, shared) := c.respond(kind, draw, qc).value;
      var k := SecretOf(kind, shared);
      var h := RoundHash(c, s, c.hostBlob, qc, qs, k).value;
      var o := s.out.(drawn := draw + 1);
      WriteSealed(o, EcdhReply(draw), ReplyPayload(c, h, qs));
      var t := s.(out := Write(o, EcdhReply(draw), ReplyPayload(c, h, qs)), rounds := s.rounds + [RoundOf(s, c.hostBlob, qc, qs, k)]);
      SameCover(s, t);
      KeyedCovered(c, t, h, k);
    }
  }

  lemma ConcludeCovered(c: Suite, s: State, blob: seq<byte>, qs: seq<byte>, sig: seq<byte>)
    requires Covered(s)
    ensures Conclude(c, s, blob, qs, sig).Ok? ==> Covered(Conclude(c, s, blob, qs, sig).value)
  {
    hide FinishKex, SendNewkeys, RoundHash, AppsSealed, RoundOf, SecretOf;
    if Conclude(c, s, blob, qs, sig).Ok? {
      var e := s.kex.ephemeral.value;
      var k := SecretOf(e.kind, c.finish(e.kind, e.draw, qs).value);
      var h := RoundHash(c, s, blob, c.init(e.kind, e.draw), qs, k).value;
      var t := s.(kex := s.kex.(ephemeral := None), events := s.events + [ServerHostKey(blob)],
                  rounds := s.rounds + [RoundOf(s, blob, c.init(e.kind, e.draw), qs, k)]);
      KeyedCovered(c, t, h, k);
    }
  }

  lemma AskCovered(c: Suite, s: State)
    requires Covered(s)
    ensures Covered(SendEcdhInit(c, s))
  {
    hide Write, StringField, KexKindOf, AppsSealed;
    var kind, draw := KexKindOf(s.kex), s.out.drawn;
    WriteSealed(s.out.(drawn := draw + 1), EcdhInit(draw), [MSG_ECDH_INIT] + StringField(c.init(kind, draw)));
  }

  lemma AgreeCovered(s: State, payload: seq<byte>)
    requires Covered(s)
    ensures Agree(s, payload).Ok? ==> Covered(Agree(s, payload).value)
  {
    hide Algo.Parse, Algo.Negotiate, Algo.StrictServer, Algo.StrictClient, WrongGuess, AppsSealed;
  }

  lemma KexinitCovered(c: Suite, s: State, payload: seq<byte>)
    requires Covered(s)
    ensures OnPeerKexinit(c, s, payload).Ok? ==> Covered(OnPeerKexinit(c, s, payload).value)
  {
    hide AnswerRekey, Agree, SendEcdhInit, RekeyRefused, Covered;
    RekeyCovered(c, s);
    AgreeCovered(AnswerRekey(c, s), payload);
    if Agree(AnswerRekey(c, s), payload).Ok? {
      AskCovered(c, Agree(AnswerRekey(c, s), payload).value);
    }
  }

  lemma AcceptCovered(c: Suite, s: State, payload: seq<byte>, n: nat)
    requires Covered(s)
    ensures Accept(c, s, payload, n).Ok? ==> Covered(Accept(c, s, payload, n).value)
  {
    hide OnPeerKexinit, OnEcdhInit, OnEcdhReply, OnNewkeys, ReadU32, InitiateRekey, AppsSealed;
    var t := Count(s, n);
    KexinitCovered(c, t, payload);
    EcdhCovered(c, t, payload);
    NewkeysCovered(t);
    if HandlePacket(c, t, payload).Ok? {
      RekeyCovered(c, HandlePacket(c, t, payload).value);
    }
  }

  lemma {:induction false} DriveCovered(c: Suite, s: State, rx: seq<byte>)
    requires Covered(s)
    ensures Covered(Drive(c, s, rx).state)
    decreases |rx|
  {
    hide Accept, Open, Version.Parse, AppsSealed;
    if !s.out.closing {
      if !s.phase.NeedPeerVersion? {
        var r := Open(c.prim, s.inn.cipher, s.inn.seqNr, rx);
        if r.Ok? && r.value.Packet? {
          AcceptCovered(c, s, r.value.payload, r.value.consumed);
        }
      }
      match DriveOnce(c, s, rx)
      case Took(t, n) => DriveCovered(c, t, rx[n..]);
      case _ =>
    }
  }

  lemma ActCovered(c: Suite, e: Endpoint, a: Action)
    requires Covered(e.state)
    ensures Covered(Act(c, e, a).state)
  {
    hide SendPacket, InitiateRekey, Drive, IgnorePayload, Disconnect, AppsSealed;
    var s := e.state;
    match a
    case Send(payload) => SendCovered(c, s, payload);
    case Chaff(data) => SendCovered(c, s.(out := s.out.(drawn := s.out.drawn + 1)), IgnorePayload(data));
    case Rekey => RekeyCovered(c, s);
    case Hangup(reason, text) => DisconnectCovered(s, reason, text);
    case Input(data) => DriveCovered(c, s, e.rx + data);
    case _ =>
  }

  lemma {:induction false} RunCovered(c: Suite, e: Endpoint, actions: seq<Action>)
    requires Covered(e.state)
    ensures Covered(Run(c, e, actions).state)
    decreases |actions|
  {
    hide Act, Covered;
    if actions != [] {
      ActCovered(c, e, actions[0]);
      RunCovered(c, Act(c, e, actions[0]), actions[1..]);
    }
  }

  /** For any peer and any calls, every application packet ever sent is encrypted. */
  lemma NothingInTheClear(c: Suite, cfg: Config, actions: seq<Action>)
    ensures AppsSealed(Run(c, Launch(c, cfg), actions).state.out.log)
  {
    hide Run, Write, KexinitPayload, AppsSealed;
    var o := Initial(cfg).out;
    assert AppsSealed(o.log) by { Empty(o); }
    WriteSealed(o.(drawn := o.drawn + 1), KexInitMsg, KexinitPayload(c, cfg, o.drawn));
    RunCovered(c, Launch(c, cfg), actions);
  }

  lemma Empty(o: Out)
    requires o.log == []
    ensures AppsSealed(o.log)
  {
  }
}
