/** What holds of one endpoint whatever its peer sends and whatever its driver calls: no
    nonce is used twice, no application packet is written while keys are being exchanged,
    and every accepted packet is written exactly once, in order. */
module Safety {
  import opened Bytes
  import opened Framing
  import opened Transport
  import opened Runs

  // --- nonces ------------------------------------------------------------------------

  /** The number that must not repeat under one key: the invocation counter of GCM, else
      the sequence number. */
  function Nonce(f: Frame): nat {
    if f.cipher.Gcm? then f.cipher.counter else f.seqNr
  }

  function AdvanceBy(c: Cipher, n: nat): Cipher {
    if c.Gcm? then c.(counter := (c.counter + n) % 0x1_0000_0000_0000_0000) else c
  }

  predicate Follows(f: Frame, n: nat, cipher: Cipher, seqNr: u32) {
    seqNr == (f.seqNr + n) % 0x1_0000_0000 && cipher == AdvanceBy(f.cipher, n)
  }

  /** Packets at the end of the log that were sealed in epoch `e`. */
  function Tail(log: seq<Frame>, e: nat): (n: nat)
    ensures n <= |log|
    ensures forall i :: |log| - n <= i < |log| ==> log[i].epoch == e
  {
    if log == [] || log[|log| - 1].epoch != e then 0 else 1 + Tail(log[..|log| - 1], e)
  }

  /** Two packets of one epoch are less than 2^32 apart and numbered by their distance. */
  ghost predicate Spaced(log: seq<Frame>) {
    forall i, j :: 0 <= i < j < |log| && log[i].epoch == log[j].epoch ==>
      j - i < 0xFFFF_FFFF && Follows(log[i], j - i, log[j].cipher, log[j].seqNr)
  }

  /** The sender's counters continue the packets of its epoch. */
  ghost predicate TailFollows(o: Out) {
    var t := Tail(o.log, o.epoch);
    && (forall i :: 0 <= i < |o.log| - t ==> o.log[i].epoch < o.epoch)
    && (forall i :: |o.log| - t <= i < |o.log| ==> Follows(o.log[i], |o.log| - i, o.cipher, o.seqNr))
  }

  /** How many packets an epoch may hold. Once its NEWKEYS is out, and until the round is
      complete, they are all counted by `packets`; completing the round restarts the count,
      at most once in an epoch. */
  ghost predicate Bounded(o: Out, sent: bool) {
    var t := Tail(o.log, o.epoch);
    && t <= 0xFFFF_FFFF
    && (!o.closing ==> o.packets < EPOCH_HARD_PACKETS
                       && t <= o.packets + (if sent then 0 else EPOCH_HARD_PACKETS - 1))
  }

  ghost predicate NonceInv(o: Out, sent: bool) {
    Spaced(o.log) && TailFollows(o) && Bounded(o, sent)
  }

  lemma FollowsNext(f: Frame, n: nat, cipher: Cipher, seqNr: u32)
    requires Follows(f, n, cipher, seqNr)
    ensures Follows(f, n + 1, Advance(cipher), NextSeq(seqNr))
  {
    ModNext(f.seqNr + n, 0x1_0000_0000);
    if cipher.Gcm? {
      ModNext(f.cipher.counter + n, 0x1_0000_0000_0000_0000);
    }
  }

  lemma ModNext(a: nat, m: nat)
    requires m == 0x1_0000_0000 || m == 0x1_0000_0000_0000_0000
    ensures (a % m + 1) % m == (a + 1) % m
  {
  }

  lemma FollowsSelf(f: Frame)
    ensures Follows(f, 1, Advance(f.cipher), NextSeq(f.seqNr))
  {
  }

  lemma TailSnoc(log: seq<Frame>, f: Frame)
    ensures Tail(log + [f], f.epoch) == 1 + Tail(log, f.epoch)
  {
    assert (log + [f])[..|log|] == log;
  }

  lemma SpacedSnoc(o: Out, f: Frame)
    requires Spaced(o.log) && TailFollows(o) && Tail(o.log, o.epoch) < 0xFFFF_FFFF
    requires f.epoch == o.epoch && f.cipher == o.cipher && f.seqNr == o.seqNr
    ensures Spaced(o.log + [f])
  {
    hide Follows;
    var log := o.log + [f];
    forall i, j | 0 <= i < j < |log| && log[i].epoch == log[j].epoch
      ensures j - i < 0xFFFF_FFFF && Follows(log[i], j - i, log[j].cipher, log[j].seqNr)
    {
      if j < |o.log| {
        assert log[i] == o.log[i] && log[j] == o.log[j];
      } else {
        assert log[i] == o.log[i];
      }
    }
  }

  lemma TailFollowsSnoc(o: Out, f: Frame, cipher: Cipher, seqNr: u32)
    requires TailFollows(o)
    requires f.epoch == o.epoch && f.cipher == o.cipher && f.seqNr == o.seqNr
    requires cipher == Advance(o.cipher) && seqNr == NextSeq(o.seqNr)
    ensures TailFollows(o.(log := o.log + [f], cipher := cipher, seqNr := seqNr))
  {
    hide Follows;
    TailSnoc(o.log, f);
    var log := o.log + [f];
    FollowsSelf(f);
    forall i | |log| - Tail(log, o.epoch) <= i < |log| ensures Follows(log[i], |log| - i, cipher, seqNr) {
      if i < |o.log| {
        FollowsNext(o.log[i], |o.log| - i, o.cipher, o.seqNr);
      }
    }
  }

  lemma WriteKeepsNonces(o: Out, sent: bool, kind: Kind, payload: seq<byte>)
    requires NonceInv(o, sent)
    ensures NonceInv(Write(o, kind, payload), sent)
  {
    hide Spaced, TailFollows;
    if !o.closing {
      var f := Frame(kind, o.epoch, o.cipher, o.seqNr, payload, o.drawn);
      TailSnoc(o.log, f);
      SpacedSnoc(o, f);
      TailFollowsSnoc(o, f, Advance(o.cipher), NextSeq(o.seqNr));
      var w := Write(o, kind, payload);
      TailFollowsCongruent(o.(log := o.log + [f], cipher := w.cipher, seqNr := w.seqNr), w);
    }
  }

  lemma TailFollowsCongruent(a: Out, b: Out)
    requires TailFollows(a) && a.log == b.log && a.epoch == b.epoch && a.cipher == b.cipher && a.seqNr == b.seqNr
    ensures TailFollows(b)
  {
    hide Follows;
  }

  /** A new key starts a new epoch, in which nothing has been sealed yet; the sequence
      number may restart or go on. */
  lemma InstallKeepsNonces(o: Out, sent: bool, cipher: Cipher, seqNr: u32)
    requires NonceInv(o, sent)
    ensures NonceInv(o.(cipher := cipher, epoch := o.epoch + 1, seqNr := seqNr), true)
  {
    hide Follows;
    var p := o.(cipher := cipher, epoch := o.epoch + 1, seqNr := seqNr);
    if o.log != [] {
      var last := |o.log| - 1;
      assert o.log[last].epoch <= o.epoch;
    }
    assert Tail(p.log, p.epoch) == 0;
    forall i | 0 <= i < |p.log| ensures p.log[i].epoch < p.epoch {
    }
  }

  lemma CompleteKeepsNonces(o: Out)
    requires NonceInv(o, true)
    ensures NonceInv(o.(packets := 0), false)
  {
    hide Follows;
  }

  lemma WeakenNonces(o: Out, sent: bool, drawn: nat)
    requires NonceInv(o, sent)
    ensures NonceInv(o.(drawn := drawn), false) && NonceInv(o.(drawn := drawn), sent)
  {
    hide Follows;
  }

  lemma {:induction false} WriteAllKeepsNonces(o: Out, sent: bool, payloads: seq<seq<byte>>)
    requires NonceInv(o, sent)
    ensures NonceInv(WriteAll(o, payloads), sent)
    decreases |payloads|
  {
    hide NonceInv, Write;
    if payloads != [] {
      WriteKeepsNonces(o, sent, App, payloads[0]);
      WriteAllKeepsNonces(Write(o, App, payloads[0]), sent, payloads[1..]);
    }
  }

  /** Packets of one epoch never share a nonce. */
  lemma SpacedIsUnique(log: seq<Frame>, i: nat, j: nat)
    requires Spaced(log)
    requires i < j < |log| && log[i].epoch == log[j].epoch
    ensures Nonce(log[i]) != Nonce(log[j]) && log[i].seqNr != log[j].seqNr
    ensures j - i < 0xFFFF_FFFF
  {
    assert Follows(log[i], j - i, log[j].cipher, log[j].seqNr);
    if log[i].cipher.Gcm? {
      ModApart(log[i].cipher.counter, j - i, 0x1_0000_0000_0000_0000);
    }
    ModApart(log[i].seqNr, j - i, 0x1_0000_0000);
  }

  lemma ModApart(a: nat, d: nat, m: nat)
    requires m == 0x1_0000_0000 || m == 0x1_0000_0000_0000_0000
    requires a < m && 0 < d < m
    ensures (a + d) % m != a
  {
  }

  // --- the quiet period and the queue ----------------------------------------------------

  /** Whether the packets so far leave room for application traffic: a KEXINIT forbids it,
      the NEWKEYS after it allows it again. */
  predicate OpenAfter(log: seq<Frame>) {
    if log == [] then false
    else
      var last := log[|log| - 1];
      if last.kind.KexInitMsg? then false
      else last.kind.NewKeys? || OpenAfter(log[..|log| - 1])
  }

  /** No application packet lies between our KEXINIT and our NEWKEYS. */
  predicate Quiet(log: seq<Frame>) {
    log == []
    || (Quiet(log[..|log| - 1]) && (log[|log| - 1].kind.App? ==> OpenAfter(log[..|log| - 1])))
  }

  /** Payloads of the application packets, in the order written. */
  function Apps(log: seq<Frame>): seq<seq<byte>> {
    if log == [] then []
    else Apps(log[..|log| - 1]) + (if log[|log| - 1].kind.App? then [log[|log| - 1].payload] else [])
  }

  function OpenBy(open: bool, kind: Kind): bool {
    if kind.KexInitMsg? then false else kind.NewKeys? || open
  }

  lemma WriteKeepsQuiet(o: Out, kind: Kind, payload: seq<byte>)
    requires Quiet(o.log) && (kind.App? && !o.closing ==> OpenAfter(o.log))
    ensures var w := Write(o, kind, payload);
            && Quiet(w.log)
            && OpenAfter(w.log) == (if o.closing then OpenAfter(o.log) else OpenBy(OpenAfter(o.log), kind))
            && Apps(w.log) == Apps(o.log) + (if kind.App? && !o.closing then [payload] else [])
  {
    if !o.closing {
      var log := Write(o, kind, payload).log;
      assert log[..|log| - 1] == o.log;
    }
  }

  lemma {:induction false} WriteAllKeepsQuiet(o: Out, payloads: seq<seq<byte>>)
    requires Quiet(o.log) && (!o.closing ==> OpenAfter(o.log))
    ensures var w := WriteAll(o, payloads);
            && Quiet(w.log)
            && (!w.closing ==> OpenAfter(w.log) && Apps(w.log) == Apps(o.log) + payloads)
            && Apps(w.log) <= Apps(o.log) + payloads
            && (o.closing ==> w == o)
    decreases |payloads|
  {
    if payloads == [] {
      assert Apps(o.log) + payloads == Apps(o.log);
    } else {
      hide Quiet, OpenAfter, Apps;
      var w := Write(o, App, payloads[0]);
      WriteKeepsQuiet(o, App, payloads[0]);
      WriteAllKeepsQuiet(w, payloads[1..]);
      assert payloads == [payloads[0]] + payloads[1..];
      if !o.closing {
        assert Apps(w.log) + payloads[1..] == Apps(o.log) + payloads;
      }
    }
  }

  /** The state agrees with its log about whether application traffic is allowed, and only
      a running round keeps packets back. */
  ghost predicate QuietInv(s: State) {
    && Quiet(s.out.log)
    && (!s.out.closing && s.kex.sentNewkeys ==> OpenAfter(s.out.log))
    && (!s.out.closing && s.phase.Established? && !s.kex.rekeying ==> OpenAfter(s.out.log))
    && (!s.kex.rekeying ==> s.queue == [])
  }

  /** Accepted packets are the written ones followed by the queue; closing can only lose
      the end. */
  ghost predicate Delivered(s: State, accepted: seq<seq<byte>>) {
    && Apps(s.out.log) <= accepted
    && (!s.out.closing ==> accepted == Apps(s.out.log) + s.queue)
  }

  ghost predicate Safe(s: State, accepted: seq<seq<byte>>) {
    NonceInv(s.out, s.kex.sentNewkeys) && QuietInv(s) && Delivered(s, accepted)
  }

  // --- every operation keeps it --------------------------------------------------------

  /** Writing a packet that is neither application data nor a KEXINIT. */
  lemma WriteControl(s: State, accepted: seq<seq<byte>>, drawn: nat, kind: Kind, payload: seq<byte>)
    requires Safe(s, accepted) && !kind.App? && !kind.KexInitMsg?
    ensures Safe(s.(out := Write(s.out.(drawn := drawn), kind, payload)), accepted)
    ensures var w := Write(s.out.(drawn := drawn), kind, payload);
            !w.closing && kind.NewKeys? ==> OpenAfter(w.log)
  {
    hide NonceInv, Quiet, OpenAfter, Apps;
    var o := s.out.(drawn := drawn);
    WeakenNonces(s.out, s.kex.sentNewkeys, drawn);
    WriteKeepsNonces(o, s.kex.sentNewkeys, kind, payload);
    WriteKeepsQuiet(o, kind, payload);
  }

  lemma DisconnectSafe(s: State, accepted: seq<seq<byte>>, reason: u32, text: seq<byte>)
    requires Safe(s, accepted)
    ensures Safe(Disconnect(s, reason, text), accepted)
  {
    hide Spaced, TailFollows, Quiet, OpenAfter, Apps, DisconnectPayload, Write;
    WriteControl(s, accepted, s.out.drawn, DisconnectMsg, DisconnectPayload(reason, text));
    var w := Write(s.out, DisconnectMsg, DisconnectPayload(reason, text));
    TailFollowsCongruent(w, w.(closing := true));
  }

  lemma KexinitSafe(c: Suite, s: State, accepted: seq<seq<byte>>)
    requires Safe(s, accepted) && !s.kex.sentNewkeys
    requires s.phase.Established? ==> s.kex.rekeying
    ensures Safe(SendKexinit(c, s), accepted)
  {
    hide NonceInv, Quiet, OpenAfter, Apps, KexinitPayload;
    var payload := KexinitPayload(c, s.cfg, s.out.drawn);
    var o := s.out.(drawn := s.out.drawn + 1);
    WeakenNonces(s.out, false, s.out.drawn + 1);
    WriteKeepsNonces(o, false, KexInitMsg, payload);
    WriteKeepsQuiet(o, KexInitMsg, payload);
  }

  lemma BeginSafe(c: Suite, s: State, accepted: seq<seq<byte>>)
    requires Safe(s, accepted)
    ensures Safe(BeginRekeyRound(c, s), accepted)
  {
    hide NonceInv, Quiet, OpenAfter, Apps, SendKexinit;
    WeakenNonces(s.out, s.kex.sentNewkeys, s.out.drawn);
    assert s.out.(drawn := s.out.drawn) == s.out;
    KexinitSafe(c, s.(kex := s.kex.(rekeying := true, sentNewkeys := false, recvNewkeys := false,
                                    peerKexinit := None, negotiated := None, ephemeral := None,
                                    skipGuess := false)), accepted);
  }

  lemma InitiateSafe(c: Suite, s: State, accepted: seq<seq<byte>>)
    requires Safe(s, accepted)
    ensures Safe(InitiateRekey(c, s), accepted)
  {
    hide Safe, BeginRekeyRound;
    if s.phase.Established? && !s.kex.rekeying {
      BeginSafe(c, s, accepted);
    }
  }

  lemma SendSafe(c: Suite, s: State, accepted: seq<seq<byte>>, payload: seq<byte>)
    requires Safe(s, accepted)
    ensures var r := SendPacket(c, s, payload);
            r.Ok? ==> Safe(r.value, accepted + [payload])
  {
    hide NonceInv, Quiet, OpenAfter, Apps;
    if s.phase.Established? && !s.kex.rekeying {
      WriteKeepsNonces(s.out, s.kex.sentNewkeys, App, payload);
      WriteKeepsQuiet(s.out, App, payload);
      var t := s.(out := Write(s.out, App, payload), bytesSince := SaturatingAdd(s.bytesSince, |payload|));
      assert Safe(t, accepted + [payload]);
      InitiateSafe(c, t, accepted + [payload]);
    } else if s.phase.Established? {
      assert (Apps(s.out.log) + s.queue) + [payload] == Apps(s.out.log) + (s.queue + [payload]);
    }
  }

  lemma DrawSafe(s: State, accepted: seq<seq<byte>>, drawn: nat)
    requires Safe(s, accepted)
    ensures Safe(s.(out := s.out.(drawn := drawn)), accepted)
  {
    hide NonceInv, Quiet, OpenAfter, Apps;
    WeakenNonces(s.out, s.kex.sentNewkeys, drawn);
  }

  /** Completing a round needs our NEWKEYS to be out; it reopens the traffic and flushes
      the queue, all of it unless the endpoint closes on the way. */
  lemma CompleteSafe(s: State, accepted: seq<seq<byte>>)
    requires Safe(s, accepted)
    ensures Safe(MaybeComplete(s), accepted)
  {
    hide NonceInv, Quiet, OpenAfter, Apps, WriteAll;
    if s.kex.sentNewkeys && s.kex.recvNewkeys {
      var o := s.out.(packets := 0);
      CompleteKeepsNonces(s.out);
      WriteAllKeepsNonces(o, false, s.queue);
      WriteAllKeepsQuiet(o, s.queue);
      var r := MaybeComplete(s);
      assert r.out == WriteAll(o, s.queue);
      if s.out.closing {
        assert r.out == o;
      }
    }
  }

  lemma InstallSafe(s: State, accepted: seq<seq<byte>>, strict: bool)
    requires Safe(s, accepted) && s.kex.pending.Some?
    requires !s.out.closing ==> OpenAfter(s.out.log)
    ensures var t := InstallOut(s);
            var u := if strict then t.(out := t.out.(seqNr := 0)) else t;
            Safe(u.(kex := u.kex.(sentNewkeys := true)), accepted)
  {
    hide NonceInv, QuietInv, Delivered, OpenAfter;
    var next := s.kex.pending.value.out;
    var seqNr := if strict then 0 else s.out.seqNr;
    InstallKeepsNonces(s.out, s.kex.sentNewkeys, next, seqNr);
    var o := s.out.(cipher := next, epoch := s.out.epoch + 1, seqNr := seqNr);
    var t := InstallOut(s);
    var u := if strict then t.(out := t.out.(seqNr := 0)) else t;
    var v := u.(kex := u.kex.(sentNewkeys := true));
    InstallShape(s, strict, v);
    QuietAtInstall(s, v, accepted);
  }

  lemma InstallShape(s: State, strict: bool, v: State)
    requires s.kex.pending.Some?
    requires var t := InstallOut(s);
             var u := if strict then t.(out := t.out.(seqNr := 0)) else t;
             v == u.(kex := u.kex.(sentNewkeys := true))
    ensures v.out == s.out.(cipher := s.kex.pending.value.out, epoch := s.out.epoch + 1,
                            seqNr := if strict then 0 else s.out.seqNr)
    ensures v.queue == s.queue && v.phase == s.phase && v.kex.rekeying == s.kex.rekeying && v.kex.sentNewkeys
  {
  }

  lemma QuietAtInstall(s: State, t: State, accepted: seq<seq<byte>>)
    requires QuietInv(s) && Delivered(s, accepted)
    requires !s.out.closing ==> OpenAfter(s.out.log)
    requires t.out.log == s.out.log && t.out.closing == s.out.closing && t.queue == s.queue
    requires t.phase == s.phase && t.kex.rekeying == s.kex.rekeying
    ensures QuietInv(t) && Delivered(t, accepted)
  {
    hide Quiet, OpenAfter, Apps;
  }

  lemma SendNewkeysSafe(s: State, accepted: seq<seq<byte>>)
    requires Safe(s, accepted) && s.kex.pending.Some?
    ensures Safe(SendNewkeys(s), accepted)
  {
    hide Safe, InstallOut, MaybeComplete, Write, OpenAfter;
    var next := s.kex.pending.value.out;
    WriteControl(s, accepted, s.out.drawn, NewKeys(next), [MSG_NEWKEYS]);
    var w := s.(out := Write(s.out, NewKeys(next), [MSG_NEWKEYS]));
    assert s.out.(drawn := s.out.drawn) == s.out;
    InstallSafe(w, accepted, s.kex.strict);
    var t := InstallOut(w);
    assert t.kex.strict == s.kex.strict by { InstallKeepsStrict(w); }
    var u := if t.kex.strict then t.(out := t.out.(seqNr := 0)) else t;
    CompleteSafe(u.(kex := u.kex.(sentNewkeys := true)), accepted);
  }

  lemma InstallKeepsStrict(s: State)
    ensures InstallOut(s).kex.strict == s.kex.strict
  {
  }

  /** Changes to the key-exchange record and the event list that the invariants do not see. */
  ghost predicate SameForSafety(a: State, b: State) {
    && a.out == b.out && a.phase == b.phase && a.queue == b.queue
    && a.kex.sentNewkeys == b.kex.sentNewkeys && a.kex.rekeying == b.kex.rekeying
  }

  lemma SameSafe(a: State, b: State, accepted: seq<seq<byte>>)
    requires Safe(a, accepted) && SameForSafety(a, b)
    ensures Safe(b, accepted)
  {
    hide NonceInv, Quiet, OpenAfter, Apps;
  }

  lemma OnNewkeysSafe(s: State, accepted: seq<seq<byte>>)
    requires Safe(s, accepted)
    ensures OnNewkeys(s).Ok? ==> Safe(OnNewkeys(s).value, accepted)
  {
    hide Safe, MaybeComplete;
    if s.kex.pending.Some? {
      var p := s.kex.pending.value;
      var t := s.(inn := s.inn.(cipher := p.inn, seqNr := if s.kex.strict then 0 else s.inn.seqNr),
                  kex := s.kex.(pending := Some(p.(inn := Plain)), recvNewkeys := true));
      SameSafe(s, t, accepted);
      CompleteSafe(t, accepted);
    }
  }

  lemma FinishSame(c: Suite, s: State, h: seq<byte>, k: Kdf.Secret)
    ensures var r := FinishKex(c, s, h, k);
            r.Ok? ==> SameForSafety(s, r.value) && r.value.kex.pending.Some?
  {
    hide DirectionCipher;
  }

  lemma RespondSafe(c: Suite, s: State, accepted: seq<seq<byte>>, qc: seq<byte>)
    requires Safe(s, accepted)
    ensures Respond(c, s, qc).Ok? ==> Safe(Respond(c, s, qc).value, accepted)
  {
    hide Safe, FinishKex, SendNewkeys, RoundHash, ReplyPayload, Write;
    var kind := KexKindOf(s.kex);
    var draw := s.out.drawn;
    if Respond(c, s, qc).Ok? {
      var (qs, shared) := c.respond(kind, draw, qc).value;
      var k := SecretOf(kind, shared);
      var h := RoundHash(c, s, c.hostBlob, qc, qs, k).value;
      WriteControl(s, accepted, draw + 1, EcdhReply(draw), ReplyPayload(c, h, qs));
      var m := s.(out := Write(s.out.(drawn := draw + 1), EcdhReply(draw), ReplyPayload(c, h, qs)));
      var t := m.(rounds := s.rounds + [RoundOf(s, c.hostBlob, qc, qs, k)]);
      SameSafe(m, t, accepted);
      FinishSame(c, t, h, k);
      var u := FinishKex(c, t, h, k).value;
      SameSafe(t, u, accepted);
      SendNewkeysSafe(u, accepted);
    }
  }

  lemma ConcludeSafe(c: Suite, s: State, accepted: seq<seq<byte>>, blob: seq<byte>, qs: seq<byte>, sig: seq<byte>)
    requires Safe(s, accepted)
    ensures Conclude(c, s, blob, qs, sig).Ok? ==> Safe(Conclude(c, s, blob, qs, sig).value, accepted)
  {
    hide Safe, FinishKex, SendNewkeys, RoundHash;
    if Conclude(c, s, blob, qs, sig).Ok? {
      var e := s.kex.ephemeral.value;
      var k := SecretOf(e.kind, c.finish(e.kind, e.draw, qs).value);
      var h := RoundHash(c, s, blob, c.init(e.kind, e.draw), qs, k).value;
      var t := s.(kex := s.kex.(ephemeral := None), events := s.events + [ServerHostKey(blob)],
                  rounds := s.rounds + [RoundOf(s, blob, c.init(e.kind, e.draw), qs, k)]);
      SameSafe(s, t, accepted);
      FinishSame(c, t, h, k);
      var u := FinishKex(c, t, h, k).value;
      SameSafe(t, u, accepted);
      SendNewkeysSafe(u, accepted);
    }
  }

  lemma AgreeSame(s: State, payload: seq<byte>)
    ensures Agree(s, payload).Ok? ==> SameForSafety(s, Agree(s, payload).value)
  {
    hide Algo.Parse, Algo.Negotiate, Algo.StrictServer, Algo.StrictClient;
  }

  lemma AnswerSafe(c: Suite, s: State, accepted: seq<seq<byte>>)
    requires Safe(s, accepted)
    ensures Safe(AnswerRekey(c, s), accepted)
  {
    hide Safe, BeginRekeyRound, Disconnect, Ascii;
    var t := s.(peerRekeys := s.peerRekeys + 1);
    SameSafe(s, t, accepted);
    BeginSafe(c, t, accepted);
    DisconnectSafe(t, accepted, PROTOCOL_ERROR, Ascii("re-key rate exceeded"));
  }

  lemma EcdhInitSafe(c: Suite, s: State, accepted: seq<seq<byte>>)
    requires Safe(s, accepted)
    ensures Safe(SendEcdhInit(c, s), accepted)
  {
    hide Safe, Write, Wire.StringField;
    var kind := KexKindOf(s.kex);
    var draw := s.out.drawn;
    var payload := [MSG_ECDH_INIT] + Wire.StringField(c.init(kind, draw));
    WriteControl(s, accepted, draw + 1, EcdhInit(draw), payload);
    var t := s.(out := Write(s.out.(drawn := draw + 1), EcdhInit(draw), payload));
    SameSafe(t, SendEcdhInit(c, s), accepted);
  }

  lemma OnPeerKexinitSafe(c: Suite, s: State, accepted: seq<seq<byte>>, payload: seq<byte>)
    requires Safe(s, accepted)
    ensures OnPeerKexinit(c, s, payload).Ok? ==> Safe(OnPeerKexinit(c, s, payload).value, accepted)
  {
    hide Safe, AnswerRekey, Agree, SendEcdhInit;
    var a := AnswerRekey(c, s);
    AnswerSafe(c, s, accepted);
    if !RekeyRefused(s) && Agree(a, payload).Ok? {
      var t := Agree(a, payload).value;
      AgreeSame(a, payload);
      SameSafe(a, t, accepted);
      EcdhInitSafe(c, t, accepted);
    }
  }

  lemma OnEcdhSafe(c: Suite, s: State, accepted: seq<seq<byte>>, payload: seq<byte>)
    requires Safe(s, accepted)
    ensures OnEcdhInit(c, s, payload).Ok? ==> Safe(OnEcdhInit(c, s, payload).value, accepted)
    ensures OnEcdhReply(c, s, payload).Ok? ==> Safe(OnEcdhReply(c, s, payload).value, accepted)
  {
    hide Safe, Respond, Conclude, Wire.ReadString;
    if s.kex.skipGuess {
      SameSafe(s, s.(kex := s.kex.(skipGuess := false)), accepted);
    } else {
      var first := Wire.ReadString(payload, 1);
      if first.Ok? {
        RespondSafe(c, s, accepted, first.value.value);
        var qs := Wire.ReadString(payload, first.value.next);
        if qs.Ok? {
          var sig := Wire.ReadString(payload, qs.value.next);
          if sig.Ok? {
            ConcludeSafe(c, s, accepted, first.value.value, qs.value.value, sig.value.value);
          }
        }
      }
    }
  }

  lemma OnPlainSafe(s: State, accepted: seq<seq<byte>>, payload: seq<byte>)
    requires Safe(s, accepted)
    ensures OnDisconnect(s, payload).Ok? ==> Safe(OnDisconnect(s, payload).value, accepted)
    ensures OnOther(s, payload).Ok? ==> Safe(OnOther(s, payload).value, accepted)
  {
    hide Safe, Wire.ReadU32;
    if OnDisconnect(s, payload).Ok? {
      SameSafe(s, OnDisconnect(s, payload).value, accepted);
    }
    if OnOther(s, payload).Ok? {
      SameSafe(s, OnOther(s, payload).value, accepted);
    }
  }

  lemma HandleSafe(c: Suite, s: State, accepted: seq<seq<byte>>, payload: seq<byte>)
    requires Safe(s, accepted)
    ensures HandlePacket(c, s, payload).Ok? ==> Safe(HandlePacket(c, s, payload).value, accepted)
  {
    hide Safe, OnPeerKexinit, OnEcdhInit, OnEcdhReply, OnNewkeys, OnDisconnect, OnOther;
    OnPeerKexinitSafe(c, s, accepted, payload);
    OnNewkeysSafe(s, accepted);
    OnEcdhSafe(c, s, accepted, payload);
    OnPlainSafe(s, accepted, payload);
  }

  lemma AcceptSafe(c: Suite, s: State, accepted: seq<seq<byte>>, payload: seq<byte>, n: nat)
    requires Safe(s, accepted)
    ensures Accept(c, s, payload, n).Ok? ==> Safe(Accept(c, s, payload, n).value, accepted)
  {
    hide Safe, HandlePacket, InitiateRekey;
    var t := Count(s, n);
    SameSafe(s, t, accepted);
    HandleSafe(c, t, accepted, payload);
    if HandlePacket(c, t, payload).Ok? {
      InitiateSafe(c, HandlePacket(c, t, payload).value, accepted);
    }
  }

  lemma DriveOnceSafe(c: Suite, s: State, accepted: seq<seq<byte>>, rx: seq<byte>)
    requires Safe(s, accepted)
    ensures DriveOnce(c, s, rx).Took? ==> Safe(DriveOnce(c, s, rx).state, accepted)
  {
    hide NonceInv, Quiet, OpenAfter, Apps, Open, Accept, Version.Parse;
    if !s.phase.NeedPeerVersion? {
      var r := Open(c.prim, s.inn.cipher, s.inn.seqNr, rx);
      if r.Ok? && r.value.Packet? {
        AcceptSafe(c, s, accepted, r.value.payload, r.value.consumed);
      }
    }
  }

  lemma {:induction false} DriveSafe(c: Suite, s: State, accepted: seq<seq<byte>>, rx: seq<byte>)
    requires Safe(s, accepted)
    ensures Safe(Drive(c, s, rx).state, accepted)
    decreases |rx|
  {
    hide Safe, DriveOnce;
    if !s.out.closing {
      DriveOnceSafe(c, s, accepted, rx);
      match DriveOnce(c, s, rx)
      case Took(t, n) => DriveSafe(c, t, accepted, rx[n..]);
      case _ =>
    }
  }

  lemma ActSafe(c: Suite, e: Endpoint, a: Action)
    requires Safe(e.state, e.accepted)
    ensures Safe(Act(c, e, a).state, Act(c, e, a).accepted)
  {
    hide Safe, SendPacket, InitiateRekey, Disconnect, Drive, IgnorePayload;
    var s := e.state;
    match a
    case Send(payload) => SendSafe(c, s, e.accepted, payload);
    case Chaff(data) =>
      DrawSafe(s, e.accepted, s.out.drawn + 1);
      SendSafe(c, s.(out := s.out.(drawn := s.out.drawn + 1)), e.accepted, IgnorePayload(data));
    case Rekey => InitiateSafe(c, s, e.accepted);
    case Hangup(reason, text) => DisconnectSafe(s, e.accepted, reason, text);
    case SetRekeyLimits(b, p) => SameSafe(s, s.(limits := s.limits.(bytes := b, packets := p)), e.accepted);
    case SetMaxPeerRekeys(n) => SameSafe(s, s.(limits := s.limits.(maxPeerRekeys := n)), e.accepted);
    case Input(data) => DriveSafe(c, s, e.accepted, e.rx + data);
  }

  lemma {:induction false} RunSafe(c: Suite, e: Endpoint, actions: seq<Action>)
    requires Safe(e.state, e.accepted)
    ensures Safe(Run(c, e, actions).state, Run(c, e, actions).accepted)
    decreases |actions|
  {
    hide Safe, Act;
    if actions != [] {
      ActSafe(c, e, actions[0]);
      RunSafe(c, Act(c, e, actions[0]), actions[1..]);
    }
  }

  lemma LaunchSafe(c: Suite, cfg: Config)
    ensures Safe(Launch(c, cfg).state, [])
  {
    hide SendKexinit, Ascii;
    var s := Initial(cfg);
    assert Safe(s, []);
    KexinitSafe(c, s, []);
  }

  // --- the results ---------------------------------------------------------------------

  /** For any peer input, any local calls and any re-key limits: two packets sealed in one
      key epoch differ in their nonce and in their sequence number, and the packets of one
      epoch span fewer than 2^32. */
  lemma NoncesNeverRepeat(c: Suite, cfg: Config, actions: seq<Action>, i: nat, j: nat)
    requires var log := Run(c, Launch(c, cfg), actions).state.out.log;
             i < j < |log| && log[i].epoch == log[j].epoch
    ensures var log := Run(c, Launch(c, cfg), actions).state.out.log;
            Nonce(log[i]) != Nonce(log[j]) && log[i].seqNr != log[j].seqNr && j - i < 0xFFFF_FFFF
  {
    hide Run, Launch, QuietInv, Delivered, Nonce;
    LaunchSafe(c, cfg);
    var e := Launch(c, cfg);
    assert e.accepted == [] by { LaunchAccepts(c, cfg); }
    RunSafe(c, e, actions);
    SpacedIsUnique(Run(c, e, actions).state.out.log, i, j);
  }

  lemma LaunchAccepts(c: Suite, cfg: Config)
    ensures Launch(c, cfg).accepted == []
  {
  }

  /** For any peer: between an endpoint's KEXINIT and its NEWKEYS it writes no application
      packet; nothing waits when no round is running; and unless the endpoint is closing,
      what it accepted is what it wrote followed by what waits, each packet once. */
  lemma QuietAndExactlyOnce(c: Suite, cfg: Config, actions: seq<Action>)
    ensures var e := Run(c, Launch(c, cfg), actions);
            && Quiet(e.state.out.log)
            && (!e.state.kex.rekeying ==> e.state.queue == [])
            && (!e.state.out.closing ==> e.accepted == Apps(e.state.out.log) + e.state.queue)
            && Apps(e.state.out.log) <= e.accepted
  {
    hide Run, Launch, NonceInv, Quiet, Apps, OpenAfter;
    LaunchSafe(c, cfg);
    LaunchAccepts(c, cfg);
    RunSafe(c, Launch(c, cfg), actions);
  }

  /** What `Quiet` says, by position: an application packet has a NEWKEYS before it with no
      KEXINIT in between. */
  lemma {:induction false} QuietByPosition(log: seq<Frame>, k: nat) returns (j: nat)
    requires Quiet(log) && k < |log| && log[k].kind.App?
    ensures j < k && log[j].kind.NewKeys? && forall i :: j < i < k ==> !log[i].kind.KexInitMsg?
  {
    var last := |log| - 1;
    if k < last {
      j := QuietByPosition(log[..last], k);
    } else {
      j := LastNewKeys(log[..last]);
    }
  }

  lemma {:induction false} LastNewKeys(log: seq<Frame>) returns (j: nat)
    requires OpenAfter(log)
    ensures j < |log| && log[j].kind.NewKeys? && forall i :: j < i < |log| ==> !log[i].kind.KexInitMsg?
  {
    var last := |log| - 1;
    if log[last].kind.NewKeys? {
      j := last;
    } else {
      j := LastNewKeys(log[..last]);
    }
  }
}
