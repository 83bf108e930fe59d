/** The transport as the object it is: fields updated in place, a receive buffer with a read
    cursor, an output buffer that grows. Each method is proved against the state machine of
    module Transport; `log` and the two histories exist for the proof alone. */
module Engine {
  import opened Bytes
  import opened Seqs
  import opened Wire
  import opened Framing
  import opened Kdf
  import opened Transport
  import opened Runs
  import Algo
  import Version

  /** What was ever queued for the socket: the identification line, then every packet. */
  ghost predicate Carries(c: Suite, role: Role, queued: seq<byte>, log: seq<Frame>) {
    queued == Version.LocalIdLine() + WireBytes(c, role, log)
  }

  lemma CarriesSnoc(c: Suite, role: Role, flushed: seq<byte>, tx: seq<byte>, log: seq<Frame>, f: Frame)
    requires Carries(c, role, flushed + tx, log)
    ensures Carries(c, role, flushed + (tx + FrameBytes(c, role, f)), log + [f])
  {
    hide FrameBytes, Version.LocalIdLine;
    assert (log + [f])[..|log|] == log;
    Assoc(Version.LocalIdLine(), WireBytes(c, role, log), FrameBytes(c, role, f));
    Assoc(flushed, tx, FrameBytes(c, role, f));
  }

  class Endpoint {
    const suite: Suite
    const cfg: Config

    var phase: Phase
    var rx: seq<byte>
    var rxPos: nat
    var tx: seq<byte>
    var txSeq: u32
    var cipherOut: Cipher
    var txPackets: nat
    var closing: bool
    var drawn: nat
    /** Receiving cipher, sequence number, bytes and packets of this epoch. */
    var inn: In
    /** The state of the current round. */
    var kex: Kex
    var peerId: Option<seq<byte>>
    var txAppQueue: seq<seq<byte>>
    var bytesSince: u64
    var peerRekeys: nat
    var limits: Limits
    var events: seq<Event>

    ghost var log: seq<Frame>
    ghost var epoch: nat
    /** Output already flushed, and events already polled. */
    ghost var flushed: seq<byte>
    ghost var polled: seq<Event>
    /** What was hashed in each round gone through. */
    ghost var rounds: seq<HashInput>

    ghost function OutView(): Out
      reads this`log, this`epoch, this`cipherOut, this`txSeq, this`txPackets, this`closing, this`drawn
    {
      Out(log, epoch, cipherOut, txSeq, txPackets, closing, drawn)
    }

    /** The abstract state. */
    ghost function View(): State
      reads this
    {
      State(cfg, phase, OutView(), inn, kex, peerId, txAppQueue, bytesSince, peerRekeys, limits, polled + events, rounds)
    }

    /** The output buffer holds what was sealed and not yet flushed. */
    ghost predicate Valid()
      reads this`tx, this`flushed, this`log
    {
      Carries(suite, cfg.role, flushed + tx, log)
    }

    /** Seals one payload straight into the output buffer and steps the counters; the packet
        that reaches the cap is the last. */
    method SealFrame(ghost kind: Kind, payload: seq<byte>)
      requires Valid() && !closing
      modifies this`tx, this`txSeq, this`cipherOut, this`txPackets, this`closing, this`drawn, this`log
      ensures Valid()
      ensures OutView() == Write(old(OutView()), kind, payload)
    {
      hide Seal, Advance, Carries;
      ghost var f := Frame(kind, epoch, cipherOut, txSeq, payload, drawn);
      var sealed, next := SealInto(suite.prim, cipherOut, txSeq, payload, NoiseAt(suite, cfg.role, drawn), tx);
      CarriesSnoc(suite, cfg.role, flushed, tx, log, f);
      tx, log := sealed, log + [f];
      if !cipherOut.Plain? {
        drawn := drawn + 1;
      }
      cipherOut := next;
      txPackets := txPackets + 1;
      txSeq := (txSeq + 1) % 0x1_0000_0000;
      if txPackets >= EPOCH_HARD_PACKETS {
        closing := true;
      }
    }

    /** Queues one packet, unless the endpoint is closing. */
    method WritePacket(ghost kind: Kind, payload: seq<byte>)
      requires Valid()
      modifies this`tx, this`txSeq, this`cipherOut, this`txPackets, this`closing, this`drawn, this`log
      ensures Valid()
      ensures View() == old(View()).(out := Write(old(View()).out, kind, payload))
    {
      hide Carries, Write;
      if closing {
        ClosedWrites(OutView(), kind, payload);
      } else {
        SealFrame(kind, payload);
      }
    }

    /** One use of the random generator. */
    method Draw() returns (draw: nat)
      modifies this`drawn
      ensures draw == old(drawn)
      ensures View() == old(View()).(out := old(View()).out.(drawn := draw + 1))
    {
      draw, drawn := drawn, drawn + 1;
    }

    /** Our KEXINIT with a fresh cookie. */
    method BuildKexinit() returns (payload: seq<byte>)
      modifies this`drawn
      ensures payload == KexinitPayload(suite, cfg, old(drawn))
      ensures View() == old(View()).(out := old(View()).out.(drawn := old(drawn) + 1))
    {
      hide Algo.OurPayload, Cookie;
      var draw := Draw();
      payload := Algo.WritePayload(cfg.role.Server?, Cookie(suite, cfg.role, draw), cfg.ciphers, cfg.compressions);
    }

    /** Builds and queues our KEXINIT. */
    method SendKexinit()
      requires Valid()
      modifies this
      ensures Valid() && rx == old(rx) && rxPos == old(rxPos)
      ensures View() == Transport.SendKexinit(suite, old(View()))
    {
      hide Write, Carries, KexinitPayload;
      var payload := BuildKexinit();
      WritePacket(KexInitMsg, payload);
      ghost var s := View();
      kex := kex.(localKexinit := payload, kexinitSent := true);
      assert View() == s.(kex := s.kex.(localKexinit := payload, kexinitSent := true));
    }

    /** Resets the state of the round and offers a new one. */
    method BeginRekeyRound()
      requires Valid()
      modifies this
      ensures Valid() && rx == old(rx) && rxPos == old(rxPos)
      ensures View() == Transport.BeginRekeyRound(suite, old(View()))
    {
      hide Transport.SendKexinit, Carries;
      kex := kex.(rekeying := true, sentNewkeys := false, recvNewkeys := false, peerKexinit := None,
                  negotiated := None, ephemeral := None, skipGuess := false);
      assert View() == old(View()).(kex := kex);
      SendKexinit();
    }

    method InitiateRekey()
      requires Valid()
      modifies this
      ensures Valid() && rx == old(rx) && rxPos == old(rxPos)
      ensures View() == Transport.InitiateRekey(suite, old(View()))
    {
      hide Transport.BeginRekeyRound, Carries;
      if phase.Established? && !kex.rekeying {
        BeginRekeyRound();
      }
    }

    /** Queues an application packet, or holds it back while a round is running. */
    method SendPacket(payload: seq<byte>) returns (r: Result<()>)
      requires Valid()
      modifies this
      ensures Valid() && rx == old(rx) && rxPos == old(rxPos)
      ensures match Transport.SendPacket(suite, old(View()), payload)
              case Ok(s) => r == Ok(()) && View() == s
              case Err(e) => r == Err(e) && View() == old(View())
    {
      hide Transport.InitiateRekey, Write, Carries;
      if !phase.Established? {
        return Err(Protocol);
      }
      if kex.rekeying {
        txAppQueue := txAppQueue + [payload];
        assert View() == old(View()).(queue := old(txAppQueue) + [payload]);
        return Ok(());
      }
      WritePacket(App, payload);
      ghost var s := View();
      bytesSince := SaturatingAdd(bytesSince, |payload|);
      assert View() == s.(bytesSince := bytesSince);
      if bytesSince >= limits.bytes || txPackets >= limits.packets {
        InitiateRekey();
      }
      return Ok(());
    }

    method SendChaff(data: seq<byte>) returns (r: Result<()>)
      requires Valid()
      modifies this
      ensures Valid() && rx == old(rx) && rxPos == old(rxPos)
      ensures match Transport.SendChaff(suite, old(View()), data)
              case Ok(s) => r == Ok(()) && View() == s
              case Err(e) => r == Err(e)
    {
      hide Transport.SendPacket, IgnorePayload, Carries;
      if !phase.Established? {
        return Ok(());
      }
      var draw := Draw();
      r := SendPacket(IgnorePayload(data));
    }

    method Disconnect(reason: u32, text: seq<byte>)
      requires Valid()
      modifies this
      ensures Valid() && rx == old(rx) && rxPos == old(rxPos)
      ensures View() == Transport.Disconnect(old(View()), reason, text)
    {
      hide Write, DisconnectPayload, Carries;
      if closing {
        ClosedWrites(OutView(), DisconnectMsg, DisconnectPayload(reason, text));
        return;
      }
      WritePacket(DisconnectMsg, DisconnectPayload(reason, text));
      ghost var s := View();
      closing := true;
      assert View() == s.(out := s.out.(closing := true));
    }

    // --- ending a round ------------------------------------------------------------------

    method ResetCounters()
      modifies this`bytesSince, this`txPackets, this`inn
      ensures View() == old(View()).(bytesSince := 0, inn := old(inn).(bytes := 0, packets := 0),
                                     out := old(View()).out.(packets := 0))
    {
      bytesSince, txPackets, inn := 0, 0, inn.(bytes := 0, packets := 0);
    }

    method GoUp()
      modifies this`phase, this`events
      ensures View() == old(View()).(phase := Established, events := old(View()).events + [Up])
    {
      phase, events := Established, events + [Up];
      Assoc(polled, old(events), [Up]);
    }

    /** Up on the first round, and clean for the next. */
    method EndRound()
      modifies this`kex, this`phase, this`events, this`bytesSince, this`txPackets, this`inn
      ensures View() == Transport.EndRound(old(View()))
    {
      if !kex.initialDone {
        GoUp();
      }
      kex := kex.(pending := None, initialDone := true, rekeying := false, kexinitSent := false, sentNewkeys := false,
                  recvNewkeys := false);
      ResetCounters();
    }

    /** Writes the packets held back during the round. */
    method FlushQueue()
      requires Valid()
      modifies this
      ensures Valid() && rx == old(rx) && rxPos == old(rxPos)
      ensures View() == old(View()).(out := WriteAll(old(View()).out, old(txAppQueue)), queue := [])
    {
      hide Write, Carries;
      var queued := txAppQueue;
      txAppQueue := [];
      ghost var s := View();
      for i := 0 to |queued|
        invariant Valid() && rx == old(rx) && rxPos == old(rxPos)
        invariant View() == s.(out := View().out)
        invariant WriteAll(View().out, queued[i..]) == WriteAll(s.out, queued)
      {
        assert queued[i..][1..] == queued[i + 1..];
        WritePacket(App, queued[i]);
      }
      assert queued[|queued|..] == [];
    }

    method MaybeCompleteKex()
      requires Valid()
      modifies this
      ensures Valid() && rx == old(rx) && rxPos == old(rxPos)
      ensures View() == MaybeComplete(old(View()))
    {
      hide Transport.EndRound, WriteAll, Carries;
      if !(kex.sentNewkeys && kex.recvNewkeys) {
        return;
      }
      EndRound();
      FlushQueue();
    }

    // --- switching keys --------------------------------------------------------------------

    /** The outbound keys take effect, and under strict KEX the numbers restart. */
    method SwitchOut()
      modifies this`cipherOut, this`epoch, this`kex, this`txSeq
      ensures var t := InstallOut(old(View()));
              var u := if t.kex.strict then t.(out := t.out.(seqNr := 0)) else t;
              View() == u.(kex := u.kex.(sentNewkeys := true))
    {
      if kex.pending.Some? {
        var p := kex.pending.value;
        cipherOut, epoch := p.out, epoch + 1;
        kex := kex.(pending := Some(p.(out := Plain)));
      }
      assert View() == InstallOut(old(View()));
      if kex.strict {
        txSeq := 0;
      }
      kex := kex.(sentNewkeys := true);
    }

    method SendNewkeys()
      requires Valid()
      modifies this
      ensures Valid() && rx == old(rx) && rxPos == old(rxPos)
      ensures View() == Transport.SendNewkeys(old(View()))
    {
      hide Write, Carries, MaybeComplete, InstallOut;
      ghost var next := if kex.pending.Some? then kex.pending.value.out else cipherOut;
      WritePacket(NewKeys(next), [MSG_NEWKEYS]);
      SwitchOut();
      MaybeCompleteKex();
    }

    method OnNewkeys() returns (r: Result<()>)
      requires Valid()
      modifies this
      ensures Valid() && rx == old(rx) && rxPos == old(rxPos)
      ensures match Transport.OnNewkeys(old(View()))
              case Ok(s) => r == Ok(()) && View() == s
              case Err(e) => r == Err(e)
    {
      hide Carries, MaybeComplete;
      if kex.pending.None? {
        return Err(Protocol);
      }
      var p := kex.pending.value;
      inn := inn.(cipher := p.inn, seqNr := if kex.strict then 0 else inn.seqNr);
      kex := kex.(pending := Some(p.(inn := Plain)), recvNewkeys := true);
      MaybeCompleteKex();
      return Ok(());
    }

    /** Key and IV of one direction, each by the expansion loop. */
    method DeriveCipher(name: Name, k: Secret, h: seq<byte>, session: seq<byte>, c2s: bool) returns (r: Result<Cipher>)
      ensures r == DirectionCipher(suite.digests, name, k, h, session, c2s)
    {
      hide DeriveKey, KeyLengths, EncodeSecret, MakeCipher;
      var lens := KeyLengths(name);
      if lens.Err? {
        return Err(lens.error);
      }
      var e := EncodeSecret(k);
      var key := DeriveKeyWith(suite.digests, Sha256, e, h, if c2s then 67 else 68, session, lens.value.0);
      var iv := DeriveKeyWith(suite.digests, Sha256, e, h, if c2s then 65 else 66, session, lens.value.1);
      return Ok(MakeCipher(name, key, iv));
    }

    /** Fixes the session id on the first round and stages both directions' keys. */
    method FinishKex(h: seq<byte>, k: Secret) returns (r: Result<()>)
      modifies this`kex
      ensures match Transport.FinishKex(suite, old(View()), h, k)
              case Ok(s) => r == Ok(()) && View() == s
              case Err(e) => r == Err(e)
    {
      hide DirectionCipher;
      if kex.negotiated.None? {
        return Err(Protocol);
      }
      var n := kex.negotiated.value;
      var sid := if kex.sessionId.Some? then kex.sessionId.value else h;
      var client := cfg.role.Client?;
      var out := DeriveCipher(n.cipherC2s, k, h, sid, client);
      if out.Err? {
        return Err(out.error);
      }
      var inbound := DeriveCipher(n.cipherC2s, k, h, sid, !client);
      if inbound.Err? {
        return Err(inbound.error);
      }
      kex := kex.(sessionId := Some(sid), pending := Some(Pending(out.value, inbound.value)),
                  compOut := if client then n.compC2s else n.compS2c,
                  compIn := if client then n.compS2c else n.compC2s);
      return Ok(());
    }

    // --- the exchange ------------------------------------------------------------------------

    /** Each value hashed under the name of the side it came from. */
    method ComputeExchangeHash(blob: seq<byte>, qc: seq<byte>, qs: seq<byte>, k: Secret) returns (r: Result<seq<byte>>)
      ensures r == RoundHash(suite, View(), blob, qc, qs, k)
    {
      hide ExchangeHash;
      if peerId.None? || kex.peerKexinit.None? {
        return Err(Protocol);
      }
      var h := ExchangeHashInto(suite.digests, Sha256,
        RoundInput(cfg.role, peerId.value, kex.localKexinit, kex.peerKexinit.value.payload, blob, qc, qs, k));
      return Ok(h);
    }

    /** The signed reply, under the draw of the server's ephemeral key. */
    method SendReply(h: seq<byte>, qs: seq<byte>, ghost x: HashInput)
      requires Valid()
      modifies this`tx, this`txSeq, this`cipherOut, this`txPackets, this`closing, this`drawn, this`log, this`rounds
      ensures Valid()
      ensures var s := old(View());
              View() == s.(out := Write(s.out.(drawn := s.out.drawn + 1), EcdhReply(s.out.drawn), ReplyPayload(suite, h, qs)),
                           rounds := s.rounds + [x])
    {
      hide Write, Carries, ReplyPayload;
      var draw := Draw();
      WritePacket(EcdhReply(draw), ReplyPayload(suite, h, qs));
      rounds := rounds + [x];
    }

    /** The server's half, from the client's ephemeral key on. */
    method Respond(qc: seq<byte>) returns (r: Result<()>)
      requires Valid()
      modifies this
      ensures r.Ok? ==> Valid() && rx == old(rx) && rxPos == old(rxPos)
      ensures match Transport.Respond(suite, old(View()), qc)
              case Ok(s) => r == Ok(()) && View() == s
              case Err(e) => r == Err(e)
    {
      hide Write, Carries, RoundHash, RoundOf, Transport.FinishKex, Transport.SendNewkeys, ReplyPayload, SecretOf, KexKindOf;
      var kind := KexKindOf(kex);
      var answer := suite.respond(kind, drawn, qc);
      if answer.None? {
        return Err(KexFailed);
      }
      var (qs, shared) := answer.value;
      var k := SecretOf(kind, shared);
      var h := ComputeExchangeHash(suite.hostBlob, qc, qs, k);
      if h.Err? {
        return Err(h.error);
      }
      SendReply(h.value, qs, RoundOf(View(), suite.hostBlob, qc, qs, k));
      r := FinishKex(h.value, k);
      if r.Ok? {
        SendNewkeys();
      }
    }

    method OnEcdhInit(payload: seq<byte>) returns (r: Result<()>)
      requires Valid()
      modifies this
      ensures r.Ok? ==> Valid() && rx == old(rx) && rxPos == old(rxPos)
      ensures match Transport.OnEcdhInit(suite, old(View()), payload)
              case Ok(s) => r == Ok(()) && View() == s
              case Err(e) => r == Err(e)
    {
      hide Carries, Transport.Respond, ReadString;
      if kex.skipGuess {
        kex := kex.(skipGuess := false);
        return Ok(());
      }
      var qc := ReadString(payload, 1);
      if qc.Err? {
        return Err(qc.error);
      }
      r := Respond(qc.value.value);
    }

    /** The host key is genuine: the ephemeral key is used up. */
    method AcceptReply(blob: seq<byte>, ghost x: HashInput)
      modifies this`kex, this`events, this`rounds
      ensures var s := old(View());
              View() == s.(kex := s.kex.(ephemeral := None), events := s.events + [ServerHostKey(blob)], rounds := s.rounds + [x])
    {
      kex := kex.(ephemeral := None);
      events := events + [ServerHostKey(blob)];
      Assoc(polled, old(events), [ServerHostKey(blob)]);
      rounds := rounds + [x];
    }

    /** The client's half, from the server's reply on. */
    method Conclude(blob: seq<byte>, qs: seq<byte>, sig: seq<byte>) returns (r: Result<()>)
      requires Valid()
      modifies this
      ensures r.Ok? ==> Valid() && rx == old(rx) && rxPos == old(rxPos)
      ensures match Transport.Conclude(suite, old(View()), blob, qs, sig)
              case Ok(s) => r == Ok(()) && View() == s
              case Err(e) => r == Err(e)
    {
      hide Carries, RoundHash, RoundOf, Transport.FinishKex, Transport.SendNewkeys, SecretOf;
      if kex.ephemeral.None? {
        return Err(Protocol);
      }
      var e := kex.ephemeral.value;
      var shared := suite.finish(e.kind, e.draw, qs);
      if shared.None? {
        return Err(KexFailed);
      }
      var k := SecretOf(e.kind, shared.value);
      var h := ComputeExchangeHash(blob, suite.init(e.kind, e.draw), qs, k);
      if h.Err? {
        return Err(h.error);
      }
      if !suite.verify(blob, h.value, sig) {
        return Err(KexFailed);
      }
      AcceptReply(blob, RoundOf(View(), blob, suite.init(e.kind, e.draw), qs, k));
      r := FinishKex(h.value, k);
      if r.Ok? {
        SendNewkeys();
      }
    }

    method OnEcdhReply(payload: seq<byte>) returns (r: Result<()>)
      requires Valid()
      modifies this
      ensures r.Ok? ==> Valid() && rx == old(rx) && rxPos == old(rxPos)
      ensures match Transport.OnEcdhReply(suite, old(View()), payload)
              case Ok(s) => r == Ok(()) && View() == s
              case Err(e) => r == Err(e)
    {
      hide Carries, Transport.Conclude, ReadString;
      if kex.skipGuess {
        kex := kex.(skipGuess := false);
        return Ok(());
      }
      var blob := ReadString(payload, 1);
      if blob.Err? {
        return Err(blob.error);
      }
      var qs := ReadString(payload, blob.value.next);
      if qs.Err? {
        return Err(qs.error);
      }
      var sig := ReadString(payload, qs.value.next);
      if sig.Err? {
        return Err(sig.error);
      }
      r := Conclude(blob.value.value, qs.value.value, sig.value.value);
    }

    /** Reads both offers, settles the algorithms, and on the first round strict KEX. */
    method Agree(payload: seq<byte>) returns (r: Result<()>)
      modifies this`kex
      ensures match Transport.Agree(old(View()), payload)
              case Ok(s) => r == Ok(()) && View() == s
              case Err(e) => r == Err(e)
    {
      hide Algo.Parse, Algo.Negotiate, Algo.StrictServer, Algo.StrictClient, WrongGuess;
      var peer := Algo.ReadPayload(payload);
      if peer.Err? {
        return Err(peer.error);
      }
      var local := Algo.ReadPayload(kex.localKexinit);
      if local.Err? {
        return Err(local.error);
      }
      var client := cfg.role.Client?;
      var n := if client then Algo.Negotiate(local.value, peer.value) else Algo.Negotiate(peer.value, local.value);
      if n.Err? {
        return Err(n.error);
      }
      var marker := if client then Algo.StrictServer() else Algo.StrictClient();
      kex := kex.(strict := if kex.initialDone then kex.strict else marker in peer.value.kex,
                  skipGuess := WrongGuess(peer.value, n.value), negotiated := Some(n.value), peerKexinit := Some(peer.value));
      return Ok(());
    }

    method SendEcdhInit()
      requires Valid()
      modifies this
      ensures Valid() && rx == old(rx) && rxPos == old(rxPos)
      ensures View() == Transport.SendEcdhInit(suite, old(View()))
    {
      hide Write, Carries, StringField, KexKindOf;
      var kind := KexKindOf(kex);
      var draw := Draw();
      WritePacket(EcdhInit(draw), [MSG_ECDH_INIT] + StringField(suite.init(kind, draw)));
      ghost var s1 := View();
      kex := kex.(ephemeral := Some(Ephemeral(kind, draw)));
      assert View() == s1.(kex := s1.kex.(ephemeral := Some(Ephemeral(kind, draw))));
    }

    /** A round the peer starts is answered, unless there were too many in a row; `refused`
        then tells that the endpoint is closing. */
    method AnswerRekey() returns (refused: bool)
      requires Valid()
      modifies this
      ensures Valid() && rx == old(rx) && rxPos == old(rxPos)
      ensures refused == RekeyRefused(old(View()))
      ensures View() == Transport.AnswerRekey(suite, old(View()))
    {
      hide Carries, Transport.Disconnect, Transport.BeginRekeyRound, Ascii;
      if !phase.Established? || kex.kexinitSent {
        return false;
      }
      peerRekeys := peerRekeys + 1;
      assert View() == old(View()).(peerRekeys := peerRekeys);
      if peerRekeys > limits.maxPeerRekeys {
        Disconnect(PROTOCOL_ERROR, Ascii("re-key rate exceeded"));
        return true;
      }
      BeginRekeyRound();
      return false;
    }

    method OnPeerKexinit(payload: seq<byte>) returns (r: Result<()>)
      requires Valid()
      modifies this
      ensures r.Ok? ==> Valid() && rx == old(rx) && rxPos == old(rxPos)
      ensures match Transport.OnPeerKexinit(suite, old(View()), payload)
              case Ok(s) => r == Ok(()) && View() == s
              case Err(e) => r == Err(e)
    {
      hide Carries, Transport.AnswerRekey, Transport.Agree, Transport.SendEcdhInit, RekeyRefused;
      var refused := AnswerRekey();
      if refused {
        return Ok(());
      }
      r := Agree(payload);
      if r.Ok? && cfg.role.Client? {
        SendEcdhInit();
      }
    }

    // --- receiving -----------------------------------------------------------------------------

    method OnDisconnect(payload: seq<byte>) returns (r: Result<()>)
      modifies this`events
      ensures match Transport.OnDisconnect(old(View()), payload)
              case Ok(s) => r == Ok(()) && View() == s
              case Err(e) => r == Err(e)
    {
      hide ReadU32;
      var reason := ReadU32(payload, 1);
      if reason.Err? {
        return Err(reason.error);
      }
      events := events + [Disconnected(reason.value.value)];
      Assoc(polled, old(events), [Disconnected(reason.value.value)]);
      return Ok(());
    }

    method OnOther(payload: seq<byte>) returns (r: Result<()>)
      modifies this`events, this`peerRekeys
      ensures match Transport.OnOther(old(View()), payload)
              case Ok(s) => r == Ok(()) && View() == s
              case Err(e) => r == Err(e)
    {
      if !phase.Established? {
        return Err(Protocol);
      }
      peerRekeys, events := 0, events + [PacketIn(payload)];
      Assoc(polled, old(events), [PacketIn(payload)]);
      return Ok(());
    }

    method HandlePacket(payload: seq<byte>) returns (r: Result<()>)
      requires Valid()
      modifies this
      ensures r.Ok? ==> Valid() && rx == old(rx) && rxPos == old(rxPos)
      ensures match Transport.HandlePacket(suite, old(View()), payload)
              case Ok(s) => r == Ok(()) && View() == s
              case Err(e) => r == Err(e)
    {
      hide Carries, Transport.OnPeerKexinit, Transport.OnEcdhInit, Transport.OnEcdhReply, Transport.OnNewkeys, Transport.OnDisconnect,
           Transport.OnOther;
      if payload == [] {
        return Err(BadPacket);
      }
      var id := payload[0];
      if kex.strict && !phase.Established? && Housekeeping(id) {
        return Err(Protocol);
      }
      if id == MSG_IGNORE || id == MSG_DEBUG {
        return Ok(());
      } else if id == MSG_DISCONNECT {
        r := OnDisconnect(payload);
      } else if id == MSG_KEXINIT {
        r := OnPeerKexinit(payload);
      } else if id == MSG_ECDH_INIT && cfg.role.Server? {
        r := OnEcdhInit(payload);
      } else if id == MSG_ECDH_REPLY && cfg.role.Client? {
        r := OnEcdhReply(payload);
      } else if id == MSG_NEWKEYS {
        r := OnNewkeys();
      } else {
        r := OnOther(payload);
      }
    }

    /** Counts one opened packet, refuses an overlong epoch, handles it, and re-keys when the
        epoch has run long enough. */
    method Accept(payload: seq<byte>, n: nat) returns (r: Result<()>)
      requires Valid()
      modifies this
      ensures r.Ok? ==> Valid() && rx == old(rx) && rxPos == old(rxPos)
      ensures match Transport.Accept(suite, old(View()), payload, n)
              case Ok(s) => r == Ok(()) && View() == s
              case Err(e) => r == Err(e)
    {
      hide Carries, Transport.HandlePacket, Transport.InitiateRekey, Advance;
      inn := In(Advance(inn.cipher), NextSeq(inn.seqNr), SaturatingAdd(inn.bytes, n), inn.packets + 1);
      assert View() == Count(old(View()), n);
      if inn.packets >= EPOCH_HARD_PACKETS {
        return Err(Protocol);
      }
      r := HandlePacket(payload);
      if r.Ok? && phase.Established? && (inn.bytes >= limits.bytes || inn.packets >= limits.packets) {
        InitiateRekey();
      }
    }

    /** Reclaims the consumed front of the receive buffer. */
    method CompactRx()
      requires rxPos <= |rx|
      modifies this`rx, this`rxPos
      ensures rxPos == 0 && rx == old(rx[rxPos..])
    {
      if rxPos == 0 {
        return;
      }
      if rxPos >= |rx| {
        rx := [];
      } else {
        rx := rx[rxPos..];
      }
      rxPos := 0;
    }

    /** Takes the identification line or one packet from the unread bytes; false when more
        bytes are needed. */
    method TakeOne() returns (r: Result<bool>)
      requires Valid() && rxPos <= |rx|
      modifies this
      ensures match DriveOnce(suite, old(View()), old(rx[rxPos..]))
              case Wait => r == Ok(false) && Valid() && View() == old(View()) && rxPos == 0 && rx == old(rx[rxPos..])
              case Fail(e) => r == Err(e)
              case Took(s, n) => r == Ok(true) && Valid() && View() == s && rx == old(rx) && rxPos == old(rxPos) + n
    {
      hide Carries, Transport.Accept, Open, Version.Parse;
      if phase.NeedPeerVersion? {
        r := TakeVersion();
        return;
      }
      var unit := OpenFrom(suite.prim, inn.cipher, inn.seqNr, rx[rxPos..]);
      if unit.Err? {
        return Err(unit.error);
      }
      if unit.value.NeedMore? {
        CompactRx();
        return Ok(false);
      }
      rxPos := rxPos + unit.value.consumed;
      var done := Accept(unit.value.payload, unit.value.consumed);
      if done.Err? {
        return Err(done.error);
      }
      return Ok(true);
    }

    method TakeVersion() returns (r: Result<bool>)
      requires Valid() && rxPos <= |rx| && phase.NeedPeerVersion?
      modifies this
      ensures match Transport.ReadVersion(old(View()), old(rx[rxPos..]))
              case Wait => r == Ok(false) && Valid() && View() == old(View()) && rxPos == 0 && rx == old(rx[rxPos..])
              case Fail(e) => r == Err(e)
              case Took(s, n) => r == Ok(true) && Valid() && View() == s && rx == old(rx) && rxPos == old(rxPos) + n
    {
      hide Carries, Version.Parse;
      var scan := Version.ParsePeerId(rx[rxPos..], cfg.role.Client?);
      if scan.Err? {
        return Err(scan.error);
      }
      if scan.value.Incomplete? {
        CompactRx();
        return Ok(false);
      }
      peerId, phase := Some(scan.value.raw), Handshake;
      rxPos := rxPos + scan.value.consumed;
      return Ok(true);
    }

    /** The receive loop. */
    method Drive() returns (r: Result<()>)
      requires Valid() && rxPos <= |rx|
      modifies this
      ensures var d := Runs.Drive(suite, old(View()), old(rx[rxPos..]));
              match d.error
              case None => r == Ok(()) && Valid() && View() == d.state && rxPos <= |rx| && rx[rxPos..] == d.rest
              case Some(e) => r == Err(e)
    {
      hide DriveOnce, Carries;
      while !closing
        invariant Valid() && rxPos <= |rx|
        invariant Runs.Drive(suite, View(), rx[rxPos..]) == Runs.Drive(suite, old(View()), old(rx[rxPos..]))
        decreases |rx| - rxPos
      {
        ghost var s, unread := View(), rx[rxPos..];
        var took := TakeOne();
        if took.Err? {
          return Err(took.error);
        }
        if !took.value {
          assert rx[rxPos..] == unread;
          return Ok(());
        }
        ghost var n := DriveOnce(suite, s, unread).consumed;
        assert rx[rxPos..] == unread[n..];
      }
      return Ok(());
    }

    /** Bytes from the socket; a closing endpoint neither reads nor keeps them. */
    method OnInput(data: seq<byte>) returns (r: Result<()>)
      requires Valid() && rxPos <= |rx|
      modifies this
      ensures var d := Runs.OnInput(suite, old(View()), old(rx[rxPos..]), data);
              match d.error
              case None => r == Ok(()) && Valid() && View() == d.state && rxPos <= |rx| && rx[rxPos..] == d.rest
              case Some(e) => r == Err(e)
    {
      hide Runs.Drive, Carries;
      if closing {
        return Ok(());
      }
      rx := rx + data;
      assert rx[rxPos..] == old(rx[rxPos..]) + data;
      r := Drive();
    }

    // --- the driver's side ---------------------------------------------------------------------

    /** The bytes to write to the socket, each handed out once. */
    method TakeOutput() returns (out: seq<byte>)
      requires Valid()
      modifies this`tx, this`flushed
      ensures out == old(tx) && tx == [] && flushed == old(flushed) + out
      ensures Valid() && View() == old(View())
    {
      out := tx;
      flushed, tx := flushed + tx, [];
      assert flushed + tx == old(flushed + tx);
    }

    method PollEvent() returns (e: Option<Event>)
      requires Valid()
      modifies this`events, this`polled
      ensures Valid() && View() == old(View())
      ensures if old(events) == [] then e == None && events == []
              else e == Some(old(events)[0]) && events == old(events)[1..]
    {
      if events == [] {
        return None;
      }
      e := Some(events[0]);
      polled, events := polled + [events[0]], events[1..];
      assert polled + events == old(polled + events);
    }

    method SetRekeyLimits(bytes: u64, packets: u64)
      modifies this`limits
      ensures View() == old(View()).(limits := Limits(bytes, packets, old(limits).maxPeerRekeys))
    {
      limits := limits.(bytes := bytes, packets := packets);
    }

    method SetMaxPeerRekeys(n: u32)
      modifies this`limits
      ensures View() == old(View()).(limits := old(limits).(maxPeerRekeys := n))
    {
      limits := limits.(maxPeerRekeys := n);
    }

    /** A new endpoint, its identification line and KEXINIT queued. */
    constructor (suite: Suite, cfg: Config)
      ensures Valid() && View() == Start(suite, cfg) && this.suite == suite && this.cfg == cfg
      ensures rx == [] && rxPos == 0
    {
      this.suite, this.cfg := suite, cfg;
      phase, rx, rxPos, tx := NeedPeerVersion, [], 0, Version.LocalIdLine();
      txSeq, cipherOut, txPackets, closing, drawn := 0, Plain, 0, false, 0;
      inn := In(Plain, 0, 0, 0);
      kex := Kex([], None, None, None, None, false, false, false, false, false, false, false, None, Ascii("none"), Ascii("none"));
      peerId, txAppQueue, bytesSince, peerRekeys := None, [], 0, 0;
      limits := Limits(REKEY_BYTES, REKEY_PACKETS, DEFAULT_MAX_PEER_REKEYS);
      events, log, epoch, flushed, polled, rounds := [], [], 0, [], [], [];
      new;
      hide Transport.SendKexinit, Version.LocalIdLine, Ascii;
      assert View() == Initial(cfg);
      assert flushed + tx == Version.LocalIdLine() + WireBytes(suite, cfg.role, log);
      SendKexinit();
    }
  }

  lemma ClosedWrites(o: Out, kind: Kind, payload: seq<byte>)
    requires o.closing
    ensures Write(o, kind, payload) == o
  {
  }
}
