/** Traffic makes an endpoint re-key (RFC 4253 section 9): which packet starts a round, and that
    no live endpoint stays idle with its budget spent. */
module Budget {
  import opened Bytes
  import opened Wire
  import opened Framing
  import opened Kdf
  import opened Transport
  import opened Runs
  import Algo
  import Version

  /** Up, with no round running, and still writing. */
  predicate Idle(s: State) { s.phase.Established? && !s.kex.rekeying && !s.out.closing }

  // --- one packet ----------------------------------------------------------------------------

  /** An idle endpoint sends an application packet at once. If that brings bytes or packets to a
      limit, its KEXINIT follows and a round is running; if not, nothing else goes out and both
      counts are up. */
  lemma SendSpends(c: Suite, s: State, payload: seq<byte>)
    requires Idle(s) && s.out.packets + 1 < EPOCH_HARD_PACKETS
    ensures var spent := s.bytesSince + |payload| >= s.limits.bytes || s.out.packets + 1 >= s.limits.packets;
            var r := SendPacket(c, s, payload);
            && r.Ok?
            && var t := r.value;
               && |t.out.log| == |s.out.log| + (if spent then 2 else 1)
               && t.out.log[..|s.out.log|] == s.out.log
               && t.out.log[|s.out.log|].kind.App? && t.out.log[|s.out.log|].payload == payload
               && t.kex.rekeying == spent
               && (spent ==> t.out.log[|s.out.log| + 1].kind.KexInitMsg? && t.out.log[|s.out.log| + 1].payload == t.kex.localKexinit)
               && (!spent ==> Idle(t) && t.bytesSince == s.bytesSince + |payload| && t.out.packets == s.out.packets + 1)
  {
    hide KexinitPayload, NextDraw;
  }

  /** An application packet is taken if and only if the endpoint is up. While a round runs it
      joins the end of the queue and nothing is written. */
  lemma SendDecides(c: Suite, s: State, payload: seq<byte>)
    ensures SendPacket(c, s, payload).Ok? <==> s.phase.Established?
    ensures s.phase.Established? && s.kex.rekeying ==> SendPacket(c, s, payload) == Ok(s.(queue := s.queue + [payload]))
  {
    hide KexinitPayload, Write;
  }

  /** A round asked for starts at an idle endpoint, with a KEXINIT, and nowhere else. */
  lemma RekeyStarts(c: Suite, s: State)
    ensures var t := InitiateRekey(c, s);
            if s.phase.Established? && !s.kex.rekeying
            then t.kex.rekeying && t.kex.kexinitSent && !t.kex.sentNewkeys && !t.kex.recvNewkeys
                 && (!s.out.closing ==>
                       && |t.out.log| == |s.out.log| + 1 && t.out.log[..|s.out.log|] == s.out.log
                       && t.out.log[|s.out.log|].kind.KexInitMsg? && t.out.log[|s.out.log|].payload == t.kex.localKexinit)
            else t == s
  {
    hide KexinitPayload, NextDraw;
  }

  /** Chaff is one IGNORE message, sent as application traffic is; none before the endpoint is up. */
  lemma ChaffSent(c: Suite, s: State, data: seq<byte>)
    ensures !s.phase.Established? ==> SendChaff(c, s, data) == Ok(s)
    ensures Idle(s) && s.out.packets + 1 < EPOCH_HARD_PACKETS ==>
              var r := SendChaff(c, s, data);
              && r.Ok? && |r.value.out.log| > |s.out.log| && r.value.out.log[..|s.out.log|] == s.out.log
              && r.value.out.log[|s.out.log|].payload == [2] + StringField(data)
  {
    hide SendPacket, StringField;
    var t := s.(out := s.out.(drawn := s.out.drawn + 1));
    if Idle(s) && s.out.packets + 1 < EPOCH_HARD_PACKETS {
      SendSpends(c, t, IgnorePayload(data));
    }
  }

  /** Packets that are no part of a key exchange and do not end the connection. */
  predicate Ordinary(s: State, payload: seq<byte>) {
    && payload != [] && payload[0] != MSG_DISCONNECT && payload[0] != MSG_KEXINIT && payload[0] != MSG_NEWKEYS
    && !(payload[0] == MSG_ECDH_INIT && s.cfg.role.Server?) && !(payload[0] == MSG_ECDH_REPLY && s.cfg.role.Client?)
  }

  /** The same for a packet received: every one counts, whatever it is for. */
  lemma AcceptSpends(c: Suite, s: State, payload: seq<byte>, n: nat)
    requires Idle(s) && s.inn.packets + 1 < EPOCH_HARD_PACKETS && Ordinary(s, payload)
    ensures var spent := s.inn.bytes + n >= s.limits.bytes || s.inn.packets + 1 >= s.limits.packets;
            var r := Accept(c, s, payload, n);
            && r.Ok?
            && var t := r.value;
               && |t.out.log| == |s.out.log| + (if spent then 1 else 0)
               && t.out.log[..|s.out.log|] == s.out.log
               && t.kex.rekeying == spent
               && (spent ==> t.out.log[|s.out.log|].kind.KexInitMsg? && t.out.log[|s.out.log|].payload == t.kex.localKexinit)
               && (!spent ==> Idle(t) && t.inn.bytes == s.inn.bytes + n && t.inn.packets == s.inn.packets + 1)
  {
    hide KexinitPayload, NextDraw, Advance;
    assert s.out.log[..|s.out.log|] == s.out.log;
  }

  // --- whole runs ------------------------------------------------------------------------------

  predicate Below(s: State) {
    s.bytesSince < s.limits.bytes && s.inn.bytes < s.limits.bytes && s.inn.packets < s.limits.packets
  }

  predicate Under(s: State) {
    s.limits.bytes > 0 && s.limits.packets > 0 && (Idle(s) ==> Below(s))
  }

  /** An operation that is not itself counted: an endpoint it leaves idle has either just begun
      anew, or was idle before and has sent nothing. */
  predicate Uncounted(s: State, t: State) {
    && t.limits == s.limits && (t.inn == s.inn || (t.inn.bytes == s.inn.bytes && t.inn.packets == s.inn.packets)
                                || (t.inn.bytes == 0 && t.inn.packets == 0))
    && (Idle(t) ==> t.bytesSince == 0 || (t.bytesSince == s.bytesSince && Idle(s)))
  }

  lemma WriteCloses(o: Out, kind: Kind, payload: seq<byte>)
    ensures o.closing ==> Write(o, kind, payload).closing
  {
  }

  lemma {:induction false} WriteAllCloses(o: Out, payloads: seq<seq<byte>>)
    ensures o.closing ==> WriteAll(o, payloads).closing
    decreases |payloads|
  {
    hide Write;
    if payloads != [] {
      WriteCloses(o, App, payloads[0]);
      WriteAllCloses(Write(o, App, payloads[0]), payloads[1..]);
    }
  }

  lemma BeginUncounted(c: Suite, s: State)
    ensures Uncounted(s, BeginRekeyRound(c, s)) && !Idle(BeginRekeyRound(c, s))
  {
    hide Write, KexinitPayload;
  }

  lemma AnswerUncounted(c: Suite, s: State)
    ensures Uncounted(s, AnswerRekey(c, s))
  {
    hide BeginRekeyRound, Write, Ascii, DisconnectPayload;
    BeginUncounted(c, s.(peerRekeys := s.peerRekeys + 1));
  }

  lemma CompleteUncounted(s: State)
    ensures Uncounted(s, MaybeComplete(s))
  {
    hide WriteAll;
  }

  lemma InstallUncounted(s: State)
    ensures var t := InstallOut(s);
            var u := if t.kex.strict then t.(out := t.out.(seqNr := 0)) else t;
            Uncounted(s, u.(kex := u.kex.(sentNewkeys := true)))
  {
  }

  lemma UncountedThen(s: State, t: State, u: State)
    requires Uncounted(s, t) && Uncounted(t, u)
    ensures Uncounted(s, u)
  {
  }

  lemma SwitchUncounted(s: State)
    ensures Uncounted(s, SendNewkeys(s))
  {
    hide Write, MaybeComplete, InstallOut, Uncounted;
    var next := if s.kex.pending.Some? then s.kex.pending.value.out else s.out.cipher;
    WriteCloses(s.out, NewKeys(next), [MSG_NEWKEYS]);
    var w := s.(out := Write(s.out, NewKeys(next), [MSG_NEWKEYS]));
    OutUncounted(s, w);
    InstallUncounted(w);
    var t := InstallOut(w);
    var u := if t.kex.strict then t.(out := t.out.(seqNr := 0)) else t;
    var v := u.(kex := u.kex.(sentNewkeys := true));
    UncountedThen(s, w, v);
    CompleteUncounted(v);
    UncountedThen(s, v, MaybeComplete(v));
  }

  lemma OutUncounted(s: State, w: State)
    requires w == s.(out := w.out, kex := w.kex, events := w.events, rounds := w.rounds) && w.kex.rekeying == s.kex.rekeying
    requires s.out.closing ==> w.out.closing
    ensures Uncounted(s, w)
  {
  }

  lemma NewkeysUncounted(s: State)
    ensures OnNewkeys(s).Ok? ==> Uncounted(s, OnNewkeys(s).value)
  {
    hide MaybeComplete;
    if s.kex.pending.Some? {
      var p := s.kex.pending.value;
      var t := s.(inn := s.inn.(cipher := p.inn, seqNr := if s.kex.strict then 0 else s.inn.seqNr),
                  kex := s.kex.(pending := Some(p.(inn := Plain)), recvNewkeys := true));
      CompleteUncounted(t);
      UncountedThen(s, t, MaybeComplete(t));
    }
  }

  lemma FinishUncounted(c: Suite, s: State, h: seq<byte>, k: Secret)
    ensures FinishKex(c, s, h, k).Ok? ==> Uncounted(s, FinishKex(c, s, h, k).value)
  {
    hide DirectionCipher;
  }

  lemma KeyedUncounted(c: Suite, s: State, t: State, h: seq<byte>, k: Secret)
    requires Uncounted(s, t)
    ensures FinishKex(c, t, h, k).Ok? ==> Uncounted(s, SendNewkeys(FinishKex(c, t, h, k).value))
  {
    hide FinishKex, SendNewkeys, Uncounted;
    FinishUncounted(c, t, h, k);
    if FinishKex(c, t, h, k).Ok? {
      var u := FinishKex(c, t, h, k).value;
      SwitchUncounted(u);
      UncountedThen(s, t, u);
      UncountedThen(s, u, SendNewkeys(u));
    }
  }

  lemma RespondUncounted(c: Suite, s: State, qc: seq<byte>)
    ensures Respond(c, s, qc).Ok? ==> Uncounted(s, Respond(c, s, qc).value)
  {
    hide FinishKex, SendNewkeys, RoundHash, ReplyPayload, Write, Uncounted, RoundOf, SecretOf, KexKindOf;
    if Respond(c, s, qc).Ok? {
      var kind, draw := KexKindOf(s.kex), s.out.drawn;
      var (qs, shared) := c.respond(kind, draw, qc).value;
      var k := SecretOf(kind, shared);
      var h := RoundHash(c, s, c.hostBlob, qc, qs, k).value;
      WriteCloses(s.out.(drawn := draw + 1), EcdhReply(draw), ReplyPayload(c, h, qs));
      var t := s.(out := Write(s.out.(drawn := draw + 1), EcdhReply(draw), ReplyPayload(c, h, qs)),
                  rounds := s.rounds + [RoundOf(s, c.hostBlob, qc, qs, k)]);
      OutUncounted(s, t);
      KeyedUncounted(c, s, t, h, k);
    }
  }

  lemma ConcludeUncounted(c: Suite, s: State, blob: seq<byte>, qs: seq<byte>, sig: seq<byte>)
    ensures Conclude(c, s, blob, qs, sig).Ok? ==> Uncounted(s, Conclude(c, s, blob, qs, sig).value)
  {
    hide FinishKex, SendNewkeys, RoundHash, Uncounted, RoundOf, SecretOf;
    if Conclude(c, s, blob, qs, sig).Ok? {
      var e := s.kex.ephemeral.value;
      var k := SecretOf(e.kind, c.finish(e.kind, e.draw, qs).value);
      var h := RoundHash(c, s, blob, c.init(e.kind, e.draw), qs, k).value;
      var t := s.(kex := s.kex.(ephemeral := None), events := s.events + [ServerHostKey(blob)],
                  rounds := s.rounds + [RoundOf(s, blob, c.init(e.kind, e.draw), qs, k)]);
      OutUncounted(s, t);
      KeyedUncounted(c, s, t, h, k);
    }
  }

  lemma EcdhUncounted(c: Suite, s: State, payload: seq<byte>)
    ensures OnEcdhInit(c, s, payload).Ok? ==> Uncounted(s, OnEcdhInit(c, s, payload).value)
    ensures OnEcdhReply(c, s, payload).Ok? ==> Uncounted(s, OnEcdhReply(c, s, payload).value)
  {
    hide Respond, Conclude, ReadString, Uncounted;
    OutUncounted(s, s.(kex := s.kex.(skipGuess := false)));
    var first := ReadString(payload, 1);
    if first.Ok? {
      RespondUncounted(c, s, first.value.value);
      var qs := ReadString(payload, first.value.next);
      if qs.Ok? {
        var sig := ReadString(payload, qs.value.next);
        if sig.Ok? {
          ConcludeUncounted(c, s, first.value.value, qs.value.value, sig.value.value);
        }
      }
    }
  }

  lemma AgreeUncounted(c: Suite, s: State, payload: seq<byte>)
    ensures Agree(s, payload).Ok? ==> Uncounted(s, Agree(s, payload).value)
    ensures Uncounted(s, SendEcdhInit(c, s))
  {
    hide Algo.Parse, Algo.Negotiate, Algo.StrictServer, Algo.StrictClient, WrongGuess, Write, StringField, KexKindOf;
    var draw := s.out.drawn;
    WriteCloses(s.out.(drawn := draw + 1), EcdhInit(draw), [MSG_ECDH_INIT] + StringField(c.init(KexKindOf(s.kex), draw)));
  }

  lemma KexinitUncounted(c: Suite, s: State, payload: seq<byte>)
    ensures OnPeerKexinit(c, s, payload).Ok? ==> Uncounted(s, OnPeerKexinit(c, s, payload).value)
  {
    hide AnswerRekey, Agree, SendEcdhInit, RekeyRefused, Uncounted;
    AnswerUncounted(c, s);
    var t := AnswerRekey(c, s);
    AgreeUncounted(c, t, payload);
    if Agree(t, payload).Ok? {
      var u := Agree(t, payload).value;
      UncountedThen(s, t, u);
      AgreeUncounted(c, u, payload);
      UncountedThen(s, u, SendEcdhInit(c, u));
    }
  }

  lemma HandleUncounted(c: Suite, s: State, payload: seq<byte>)
    ensures HandlePacket(c, s, payload).Ok? ==> Uncounted(s, HandlePacket(c, s, payload).value)
  {
    hide OnPeerKexinit, OnEcdhInit, OnEcdhReply, OnNewkeys, ReadU32;
    KexinitUncounted(c, s, payload);
    EcdhUncounted(c, s, payload);
    NewkeysUncounted(s);
  }

  lemma AcceptUnder(c: Suite, s: State, payload: seq<byte>, n: nat)
    requires Under(s) && !s.out.closing && Accept(c, s, payload, n).Ok?
    ensures Under(Accept(c, s, payload, n).value) && Accept(c, s, payload, n).value.limits == s.limits
  {
    hide HandlePacket, BeginRekeyRound;
    var t := Count(s, n);
    HandleUncounted(c, t, payload);
    BeginUncounted(c, HandlePacket(c, t, payload).value);
  }

  lemma {:induction false} DriveUnder(c: Suite, s: State, rx: seq<byte>)
    requires Under(s)
    ensures Under(Drive(c, s, rx).state) && Drive(c, s, rx).state.limits == s.limits
    decreases |rx|
  {
    hide Accept, Open, Version.Parse, Under;
    if !s.out.closing {
      match DriveOnce(c, s, rx)
      case Took(t, n) =>
        DriveOnceUnder(c, s, rx);
        DriveUnder(c, t, rx[n..]);
      case _ =>
    }
  }

  lemma DriveOnceUnder(c: Suite, s: State, rx: seq<byte>)
    requires Under(s) && !s.out.closing && DriveOnce(c, s, rx).Took?
    ensures Under(DriveOnce(c, s, rx).state) && DriveOnce(c, s, rx).state.limits == s.limits
  {
    hide Accept, Open, Version.Parse;
    if !s.phase.NeedPeerVersion? {
      var r := Open(c.prim, s.inn.cipher, s.inn.seqNr, rx);
      AcceptUnder(c, s, r.value.payload, r.value.consumed);
    }
  }

  lemma SendUnder(c: Suite, s: State, payload: seq<byte>)
    requires Under(s) && SendPacket(c, s, payload).Ok?
    ensures Under(SendPacket(c, s, payload).value) && SendPacket(c, s, payload).value.limits == s.limits
  {
    hide BeginRekeyRound, Write;
    WriteCloses(s.out, App, payload);
    BeginUncounted(c, s.(out := Write(s.out, App, payload), bytesSince := SaturatingAdd(s.bytesSince, |payload|)));
  }

  lemma ActUnder(c: Suite, e: Endpoint, a: Action)
    requires Under(e.state) && !a.SetRekeyLimits?
    ensures Under(Act(c, e, a).state)
    ensures var l, m := e.state.limits, Act(c, e, a).state.limits; m.bytes == l.bytes && m.packets == l.packets
  {
    hide SendPacket, BeginRekeyRound, Drive, IgnorePayload, Write, DisconnectPayload;
    var s := e.state;
    match a
    case Send(payload) =>
      if SendPacket(c, s, payload).Ok? {
        SendUnder(c, s, payload);
      }
    case Chaff(data) =>
      var t := s.(out := s.out.(drawn := s.out.drawn + 1));
      if SendPacket(c, t, IgnorePayload(data)).Ok? {
        SendUnder(c, t, IgnorePayload(data));
      }
    case Rekey => BeginUncounted(c, s);
    case Input(data) => DriveUnder(c, s, e.rx + data);
    case _ =>
  }

  predicate LimitsKept(actions: seq<Action>) {
    forall i :: 0 <= i < |actions| ==> !actions[i].SetRekeyLimits?
  }

  lemma {:induction false} RunUnder(c: Suite, e: Endpoint, actions: seq<Action>)
    requires Under(e.state) && LimitsKept(actions)
    ensures Under(Run(c, e, actions).state)
    ensures var l, m := e.state.limits, Run(c, e, actions).state.limits; m.bytes == l.bytes && m.packets == l.packets
    decreases |actions|
  {
    hide Act, Under;
    if actions != [] {
      ActUnder(c, e, actions[0]);
      RunUnder(c, Act(c, e, actions[0]), actions[1..]);
    }
  }

  /** For any peer and any calls, under any positive limits that are set once: a live endpoint
      that is up with no round running has sent and received less than the limits allow since
      its last round. Where they are not set, they are 1 GiB and 2^28 packets. */
  lemma NeverIdleOverBudget(c: Suite, cfg: Config, bytes: u64, packets: u64, actions: seq<Action>)
    requires bytes > 0 && packets > 0 && LimitsKept(actions)
    ensures var s := Run(c, Act(c, Launch(c, cfg), SetRekeyLimits(bytes, packets)), actions).state;
            Idle(s) ==> s.bytesSince < bytes && s.inn.bytes < bytes && s.inn.packets < packets
    ensures var s := Run(c, Launch(c, cfg), actions).state;
            Idle(s) ==> s.bytesSince < 0x4000_0000 && s.inn.bytes < 0x4000_0000 && s.inn.packets < 0x1000_0000
  {
    hide Run, Write, KexinitPayload;
    var e := Launch(c, cfg);
    RunUnder(c, e, actions);
    RunUnder(c, Act(c, e, SetRekeyLimits(bytes, packets)), actions);
  }

  // --- the inbound cap -----------------------------------------------------------------------------

  /** The packet that reaches the cap is not taken, whatever it is. */
  lemma CapRefuses(c: Suite, s: State, payload: seq<byte>, n: nat)
    requires s.inn.packets + 1 >= EPOCH_HARD_PACKETS
    ensures Accept(c, s, payload, n) == Err(Protocol)
  {
  }

  lemma AcceptCapped(c: Suite, s: State, payload: seq<byte>, n: nat)
    requires Accept(c, s, payload, n).Ok?
    ensures Accept(c, s, payload, n).value.inn.packets < EPOCH_HARD_PACKETS
  {
    hide HandlePacket, BeginRekeyRound;
    var t := Count(s, n);
    HandleUncounted(c, t, payload);
    BeginUncounted(c, HandlePacket(c, t, payload).value);
  }

  lemma {:induction false} DriveCapped(c: Suite, s: State, rx: seq<byte>)
    requires s.inn.packets < EPOCH_HARD_PACKETS
    ensures Drive(c, s, rx).state.inn.packets < EPOCH_HARD_PACKETS
    decreases |rx|
  {
    hide Accept, Open, Version.Parse;
    if !s.out.closing {
      if !s.phase.NeedPeerVersion? {
        var r := Open(c.prim, s.inn.cipher, s.inn.seqNr, rx);
        if r.Ok? && r.value.Packet? && Accept(c, s, r.value.payload, r.value.consumed).Ok? {
          AcceptCapped(c, s, r.value.payload, r.value.consumed);
        }
      }
      match DriveOnce(c, s, rx)
      case Took(t, n) => DriveCapped(c, t, rx[n..]);
      case _ =>
    }
  }

  lemma ActCapped(c: Suite, e: Endpoint, a: Action)
    requires e.state.inn.packets < EPOCH_HARD_PACKETS
    ensures Act(c, e, a).state.inn.packets < EPOCH_HARD_PACKETS
  {
    hide BeginRekeyRound, Drive, IgnorePayload, Write, DisconnectPayload;
    var s := e.state;
    match a
    case Send(payload) => SendKeepsIn(c, s, payload);
    case Chaff(data) => SendKeepsIn(c, s.(out := s.out.(drawn := s.out.drawn + 1)), IgnorePayload(data));
    case Rekey => BeginUncounted(c, s);
    case Input(data) => DriveCapped(c, s, e.rx + data);
    case _ =>
  }

  lemma SendKeepsIn(c: Suite, s: State, payload: seq<byte>)
    ensures SendPacket(c, s, payload).Ok? ==> SendPacket(c, s, payload).value.inn == s.inn
  {
    hide KexinitPayload, Write;
  }

  /** For any peer and any calls: since its last round an endpoint has taken fewer than 2^31
      packets. */
  lemma {:induction false} FewTaken(c: Suite, e: Endpoint, actions: seq<Action>)
    requires e.state.inn.packets < EPOCH_HARD_PACKETS
    ensures Run(c, e, actions).state.inn.packets < 0x8000_0000
    decreases |actions|
  {
    hide Act;
    if actions != [] {
      ActCapped(c, e, actions[0]);
      FewTaken(c, Act(c, e, actions[0]), actions[1..]);
    }
  }
}
