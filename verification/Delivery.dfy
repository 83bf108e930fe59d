/** One endpoint takes the next packet of an honest peer: whatever it is, it is opened with
    the cipher it was sealed with, and the two ends stay in step. */
module Delivery {
  import opened Bytes
  import opened Framing
  import opened Kdf
  import opened Transport
  import opened Stream
  import opened Lockstep
  import opened Rounds
  import opened Joint
  import Algo
  import Safety
  import Seqs
  import Wire

  /** The endpoint has taken the first `k` packets of its peer's log: it stands ready for the
      next one's cipher and number, and handed up every application payload so far. */
  predicate Taken(log: seq<Frame>, s: State, k: nat) {
    && k <= |log|
    && s.inn.cipher == CipherAfter(log[..k]) && s.inn.seqNr == SeqAfter(log[..k])
    && (Epochs(log[..k]) > 0 ==> s.phase.Established?)
    && (s.phase.NeedPeerVersion? ==> k == 0)
    && PacketsIn(s.events) == Surfacing(Safety.Apps(log[..k]))
  }

  /** The same after packet `k` has been counted but not yet handled. */
  predicate Counted(log: seq<Frame>, s: State, k: nat) {
    && k < |log|
    && s.inn.cipher == Advance(log[k].cipher) && s.inn.seqNr == NextSeq(log[k].seqNr)
    && (Epochs(log[..k]) > 0 ==> s.phase.Established?)
    && !s.phase.NeedPeerVersion?
    && PacketsIn(s.events) == Surfacing(Safety.Apps(log[..k]))
  }

  lemma CountTaken(log: seq<Frame>, s: State, k: nat, n: nat)
    requires Taken(log, s, k) && k < |log| && Threaded(log) && !s.phase.NeedPeerVersion?
    ensures Counted(log, Count(s, n), k)
    ensures Continues(log[..k], log[k])
  {
    hide Advance, PacketsIn, Surfacing, Safety.Apps, Epochs, CipherAfter, SeqAfter, Fits, Threaded;
    ThreadedAt(log, k);
  }

  function Surfaced(f: Frame): seq<seq<byte>> {
    if f.kind.App? && Visible(f.payload) then [f.payload] else []
  }

  lemma SurfacingSnoc(log: seq<Frame>, f: Frame)
    ensures Surfacing(Safety.Apps(log + [f])) == Surfacing(Safety.Apps(log)) + Surfaced(f)
  {
    assert (log + [f])[..|log|] == log;
    var ps := Safety.Apps(log);
    assert (ps + [f.payload])[..|ps|] == ps;
    assert ps + [] == ps;
  }

  lemma HandledTaken(log: seq<Frame>, s: State, r: State, k: nat)
    requires Counted(log, s, k)
    requires var f := log[k];
             && (if f.kind.NewKeys? then r.inn.cipher == f.kind.next && r.inn.seqNr == 0 && r.phase.Established?
                 else r.inn == s.inn)
             && (s.phase.Established? ==> r.phase.Established?) && !r.phase.NeedPeerVersion?
             && PacketsIn(r.events) == PacketsIn(s.events) + Surfaced(f)
    ensures Taken(log, r, k + 1)
  {
    hide Advance, PacketsIn, Surfacing, Safety.Apps, Epochs, CipherAfter, SeqAfter, Surfaced, Threaded, Kexes;
    assert log[..k + 1] == log[..k] + [log[k]];
    KexesSnoc(log[..k], log[k]);
    SurfacingSnoc(log[..k], log[k]);
  }

  /** The key-exchange messages still to come after the first `k` packets; a peer that is
      closing may have lost the end. */
  predicate Flight(o: Out, k: nat, msgs: seq<Msg>) {
    && k <= |o.log|
    && Kexes(o.log) <= Kexes(o.log[..k]) + msgs
    && (!o.closing ==> Kexes(o.log) == Kexes(o.log[..k]) + msgs)
  }

  lemma {:induction false} KexesPrefix(log: seq<Frame>, k: nat)
    requires k <= |log|
    ensures Kexes(log[..k]) <= Kexes(log)
  {
    if k == |log| {
      assert log[..k] == log;
    } else {
      KexesPrefix(log[..|log| - 1], k);
      assert log[..|log| - 1][..k] == log[..k];
    }
  }

  /** A key-exchange packet at position `k` is the first message on the way. */
  lemma FlightHead(o: Out, k: nat, msgs: seq<Msg>)
    requires Flight(o, k, msgs) && k < |o.log|
    ensures var f := o.log[k];
            if IsKex(f.kind) then msgs != [] && msgs[0] == Msg(f.kind, f.payload) && Flight(o, k + 1, msgs[1..])
            else Flight(o, k + 1, msgs)
  {
    hide Kexes;
    var f := o.log[k];
    assert o.log[..k + 1] == o.log[..k] + [f];
    KexesSnoc(o.log[..k], f);
    KexesPrefix(o.log, k + 1);
    var before := Kexes(o.log[..k]);
    if IsKex(f.kind) {
      assert before + [Msg(f.kind, f.payload)] <= before + msgs;
      assert (before + msgs)[|before|] == Msg(f.kind, f.payload);
      assert before + msgs == before + [msgs[0]] + msgs[1..];
    } else {
      assert before + [] == before;
    }
  }

  // --- handling by kind ----------------------------------------------------------------------

  /** A packet that is not part of a key exchange changes nothing but the events. */
  lemma HandlesOther(c: Suite, s: State, f: Frame)
    requires !IsKex(f.kind) && Fits(f.kind, f.payload, f.epoch)
    requires f.epoch > 0 ==> s.phase.Established?
    ensures var r := HandlePacket(c, s, f.payload);
            && r.Ok? && r.value == s.(peerRekeys := r.value.peerRekeys, events := r.value.events)
            && PacketsIn(r.value.events) == PacketsIn(s.events) + Surfaced(f)
  {
    hide PacketsIn, OnPeerKexinit, OnEcdhInit, OnEcdhReply, OnNewkeys, Wire.ReadU32;
    assert PacketsIn(s.events) + [] == PacketsIn(s.events);
    if f.kind.App? {
      PacketsInSnoc(s.events, PacketIn(f.payload));
    } else {
      ReadsReason(f.payload);
      PacketsInSnoc(s.events, Disconnected(Wire.ReadU32(f.payload, 1).value.value));
    }
  }

  lemma ReadsReason(payload: seq<byte>)
    requires |payload| >= 5
    ensures Wire.ReadU32(payload, 1).Ok?
  {
    hide FromBe32;
  }

  lemma HandlesKexinit(c: Suite, s: State, cfg: Config, payload: seq<byte>)
    requires Offer(cfg, payload)
    ensures HandlePacket(c, s, payload) == OnPeerKexinit(c, s, payload)
  {
    hide OnPeerKexinit, OnEcdhInit, OnEcdhReply, OnNewkeys, OnOther, OnDisconnect, Algo.Parse, Lists;
  }

  lemma HandlesAsk(c: Suite, s: State, a: State)
    requires s.cfg.role.Server? && a.kex.ephemeral.Some?
    ensures HandlePacket(c, s, AskMsg(c, a).payload) == OnEcdhInit(c, s, AskMsg(c, a).payload)
  {
    hide OnPeerKexinit, OnEcdhInit, OnEcdhReply, OnNewkeys, OnOther, OnDisconnect, Wire.StringField;
  }

  lemma HandlesReply(c: Suite, s: State, h: seq<byte>, qs: seq<byte>)
    requires s.cfg.role.Client?
    ensures HandlePacket(c, s, ReplyPayload(c, h, qs)) == OnEcdhReply(c, s, ReplyPayload(c, h, qs))
  {
    hide OnPeerKexinit, OnEcdhInit, OnEcdhReply, OnNewkeys, OnOther, OnDisconnect, Wire.StringField;
  }

  lemma SettleReplies(c: Suite, n: Algo.Negotiated, dc: nat, ds: nat, ci: seq<byte>, si: seq<byte>, earlier: Option<seq<byte>>) returns (qs: seq<byte>)
    requires Settle(c, n, dc, ds, ci, si, earlier).Ok?
    ensures var d := Settle(c, n, dc, ds, ci, si, earlier).value; d.reply == ReplyPayload(c, d.hash, qs)
  {
    hide ExchangeHash, DirectionCipher, ReplyPayload;
    qs := c.respond(KindOf(n.kex), ds, c.init(KindOf(n.kex), dc)).value.0;
  }

  lemma HandlesNewkeys(c: Suite, s: State)
    ensures HandlePacket(c, s, [MSG_NEWKEYS]) == OnNewkeys(s)
  {
    hide OnPeerKexinit, OnEcdhInit, OnEcdhReply, OnNewkeys, OnOther, OnDisconnect;
  }

  // --- one packet taken ------------------------------------------------------------------------

  /** The configurations share every algorithm and the cipher is known. */
  predicate Compatible(t: Terms) {
    Agreement(t).Ok? && KeyLengths(Agreement(t).value.cipherC2s).Ok?
  }

  /** Where taking packet `k` of the server leaves the client; closing ends its reading. */
  predicate ClientAfter(c: Suite, t: Terms, a: State, b: State, ga: Stage, gb: Stage, ds: nat, k: nat, r: State, gr: Stage, sent: seq<Msg>) {
    && Lock(c, t, r, b, gr, gb, ds) && Ready(r) && Sent(a.out, r.out, sent)
    && ToServer(c, r, b, gr, gb) == ToServer(c, a, b, ga, gb) + sent
    && Taken(b.out.log, r, k + 1) && !r.phase.NeedPeerVersion?
    && (r.out.closing || Flight(b.out, k + 1, ToClient(c, t, r, b, gr, gb, ds)))
  }

  predicate ServerAfter(c: Suite, t: Terms, a: State, b: State, ga: Stage, gb: Stage, ds: nat, k: nat, r: State, gr: Stage, ds': nat, sent: seq<Msg>) {
    && Lock(c, t, a, r, ga, gr, ds') && Ready(r) && Sent(b.out, r.out, sent)
    && ToClient(c, t, a, r, ga, gr, ds') == ToClient(c, t, a, b, ga, gb, ds) + sent
    && Taken(a.out.log, r, k + 1) && !r.phase.NeedPeerVersion?
    && (r.out.closing || Flight(a.out, k + 1, ToServer(c, a, r, ga, gr)))
  }

  /** The pair is in step and the client has counted packet `k` of the server. */
  predicate ClientCounts(c: Suite, t: Terms, a: State, b: State, ga: Stage, gb: Stage, ds: nat, k: nat) {
    && Lock(c, t, a, b, ga, gb, ds) && Ready(a)
    && Counted(b.out.log, a, k) && Continues(b.out.log[..k], b.out.log[k])
    && Flight(b.out, k, ToClient(c, t, a, b, ga, gb, ds))
  }

  predicate ServerCounts(c: Suite, t: Terms, a: State, b: State, ga: Stage, gb: Stage, ds: nat, k: nat) {
    && Lock(c, t, a, b, ga, gb, ds) && Ready(b)
    && Counted(a.out.log, b, k) && Continues(a.out.log[..k], a.out.log[k])
    && Flight(a.out, k, ToServer(c, a, b, ga, gb))
  }

  lemma ClientHandlesOther(c: Suite, t: Terms, a: State, b: State, ga: Stage, gb: Stage, ds: nat, k: nat)
    requires ClientCounts(c, t, a, b, ga, gb, ds, k) && !IsKex(b.out.log[k].kind)
    ensures var r := HandlePacket(c, a, b.out.log[k].payload);
            r.Ok? && ClientAfter(c, t, a, b, ga, gb, ds, k, r.value, ga, [])
  {
    hide HandlePacket, Lock, Taken, ToServer, ToClient, Sent, PacketsIn, Surfacing, Safety.Apps, AppLike, Fits, CipherAfter, SeqAfter;
    var f := b.out.log[k];
    FlightHead(b.out, k, ToClient(c, t, a, b, ga, gb, ds));
    HandlesOther(c, a, f);
    var r := HandlePacket(c, a, f.payload).value;
    HandledTaken(b.out.log, a, r, k);
    LockSame(c, t, a, b, ga, gb, ds, r, b);
    SentNothing(a.out, r.out);
    assert ToServer(c, a, b, ga, gb) + [] == ToServer(c, a, b, ga, gb);
  }

  lemma ServerHandlesOther(c: Suite, t: Terms, a: State, b: State, ga: Stage, gb: Stage, ds: nat, k: nat)
    requires ServerCounts(c, t, a, b, ga, gb, ds, k) && !IsKex(a.out.log[k].kind)
    ensures var r := HandlePacket(c, b, a.out.log[k].payload);
            r.Ok? && ServerAfter(c, t, a, b, ga, gb, ds, k, r.value, gb, ds, [])
  {
    hide HandlePacket, Lock, Taken, ToServer, ToClient, Sent, PacketsIn, Surfacing, Safety.Apps, AppLike, Fits, CipherAfter, SeqAfter;
    var f := a.out.log[k];
    FlightHead(a.out, k, ToServer(c, a, b, ga, gb));
    HandlesOther(c, b, f);
    var r := HandlePacket(c, b, f.payload).value;
    HandledTaken(a.out.log, b, r, k);
    LockSame(c, t, a, b, ga, gb, ds, a, r);
    SentNothing(b.out, r.out);
    assert ToClient(c, t, a, b, ga, gb, ds) + [] == ToClient(c, t, a, b, ga, gb, ds);
  }

  lemma ClientAfterTurn(c: Suite, t: Terms, a: State, b: State, ga: Stage, gb: Stage, ds: nat, k: nat, m: Msg, r: State, gr: Stage, sent: seq<Msg>)
    requires ClientCounts(c, t, a, b, ga, gb, ds, k) && IsKex(b.out.log[k].kind)
    requires m == Msg(b.out.log[k].kind, b.out.log[k].payload)
    requires ClientTurn(c, t, a, b, ga, gb, ds, m, r, gr, sent)
    ensures ClientAfter(c, t, a, b, ga, gb, ds, k, r, gr, sent)
  {
    hide Lock, Taken, ToServer, ToClient, Sent, PacketsIn, Surfacing, Safety.Apps, AppLike, Fits, CipherAfter, SeqAfter, Ready;
    var f := b.out.log[k];
    var msgs := ToClient(c, t, a, b, ga, gb, ds);
    FlightHead(b.out, k, msgs);
    Seqs.DropPrefix([m], ToClient(c, t, r, b, gr, gb, ds));
    assert PacketsIn(a.events) + [] == PacketsIn(a.events);
    HandledTaken(b.out.log, a, r, k);
  }

  lemma ServerAfterTurn(c: Suite, t: Terms, a: State, b: State, ga: Stage, gb: Stage, ds: nat, k: nat, m: Msg, r: State, gr: Stage, ds': nat, sent: seq<Msg>)
    requires ServerCounts(c, t, a, b, ga, gb, ds, k) && IsKex(a.out.log[k].kind)
    requires m == Msg(a.out.log[k].kind, a.out.log[k].payload)
    requires ServerTurn(c, t, a, b, ga, gb, ds, m, r, gr, ds', sent)
    ensures ServerAfter(c, t, a, b, ga, gb, ds, k, r, gr, ds', sent)
  {
    hide Lock, Taken, ToServer, ToClient, Sent, PacketsIn, Surfacing, Safety.Apps, AppLike, Fits, CipherAfter, SeqAfter, Ready;
    var msgs := ToServer(c, a, b, ga, gb);
    FlightHead(a.out, k, msgs);
    Seqs.DropPrefix([m], ToServer(c, a, r, ga, gr));
    assert PacketsIn(b.events) + [] == PacketsIn(b.events);
    HandledTaken(a.out.log, b, r, k);
  }

  /** A refused round: the endpoint closes, having taken the packet. */
  lemma ClientAfterRefusal(c: Suite, t: Terms, a: State, b: State, ga: Stage, gb: Stage, ds: nat, k: nat, r: State)
    requires ClientCounts(c, t, a, b, ga, gb, ds, k) && b.out.log[k].kind.KexInitMsg?
    requires Refused(t, a, ga, r)
    ensures ClientAfter(c, t, a, b, ga, gb, ds, k, r, ga, [])
  {
    hide Lock, Taken, ToServer, ToClient, Sent, PacketsIn, Surfacing, Safety.Apps, AppLike, Fits, CipherAfter, SeqAfter, Ready, InStage;
    LockStages(c, t, a, b, ga, gb, ds);
    NowSelf(t, a, ga);
    NowSame(ga, a, r);
    ClientStayed(c, t, a, b, ga, gb, ds, r);
    assert PacketsIn(a.events) + [] == PacketsIn(a.events);
    HandledTaken(b.out.log, a, r, k);
  }

  lemma NowSame(g: Stage, s: State, r: State)
    requires r.kex == s.kex
    ensures Now(g, r) == Now(g, s) && OfferIf(g, r) == OfferIf(g, s)
  {
  }

  lemma ServerAfterRefusal(c: Suite, t: Terms, a: State, b: State, ga: Stage, gb: Stage, ds: nat, k: nat, r: State)
    requires ServerCounts(c, t, a, b, ga, gb, ds, k) && a.out.log[k].kind.KexInitMsg?
    requires Refused(t, b, gb, r)
    ensures ServerAfter(c, t, a, b, ga, gb, ds, k, r, gb, ds, [])
  {
    hide Lock, Taken, ToServer, ToClient, Sent, PacketsIn, Surfacing, Safety.Apps, AppLike, Fits, CipherAfter, SeqAfter, Ready, InStage;
    LockStages(c, t, a, b, ga, gb, ds);
    NowSelf(t, b, gb);
    NowSame(gb, b, r);
    ServerStayed(c, t, a, b, ga, gb, ds, r);
    assert PacketsIn(b.events) + [] == PacketsIn(b.events);
    HandledTaken(a.out.log, b, r, k);
  }

  lemma ClientHandles(c: Suite, t: Terms, a: State, b: State, ga: Stage, gb: Stage, ds: nat, k: nat) returns (gr: Stage, sent: seq<Msg>)
    requires Honest(c) && ValidTerms(t) && ClientCounts(c, t, a, b, ga, gb, ds, k)
    ensures var r := HandlePacket(c, a, b.out.log[k].payload);
            if r.Err? then !Compatible(t) else ClientAfter(c, t, a, b, ga, gb, ds, k, r.value, gr, sent)
  {
    hide HandlePacket, Lock, Taken, ToServer, ToClient, Sent, PacketsIn, Surfacing, Safety.Apps, AppLike, Fits, CipherAfter, SeqAfter,
         ClientAfter, ClientTurn, OnPeerKexinit, OnEcdhReply, OnNewkeys, Settle, Honest, ValidTerms, Replied, Agreement, Refused,
         Offer, InStage, Ready;
    gr, sent := ga, [];
    var f := b.out.log[k];
    if !IsKex(f.kind) {
      ClientHandlesOther(c, t, a, b, ga, gb, ds, k);
    } else {
      var m := Msg(f.kind, f.payload);
      FlightHead(b.out, k, ToClient(c, t, a, b, ga, gb, ds));
      NextForClient(c, t, a, b, ga, gb, ds);
      LockStages(c, t, a, b, ga, gb, ds);
      if f.kind.KexInitMsg? {
        AskedHasKey(t, b, gb);
        HandlesKexinit(c, a, b.cfg, f.payload);
        gr, sent := ClientReadsKexinit(c, t, a, b, ga, gb, ds);
        var r := OnPeerKexinit(c, a, f.payload);
        if r.Ok? && Refused(t, a, ga, r.value) {
          ClientAfterRefusal(c, t, a, b, ga, gb, ds, k, r.value);
          gr, sent := ga, [];
        } else if r.Ok? {
          ClientAfterTurn(c, t, a, b, ga, gb, ds, k, m, r.value, gr, sent);
        }
      } else if f.kind.EcdhReply? {
        ClientHandlesReply(c, t, a, b, ds, k);
        sent := ClientReadsReply(c, t, a, b, ds);
        gr := Keyed;
        ClientAfterTurn(c, t, a, b, ga, gb, ds, k, m, OnEcdhReply(c, a, f.payload).value, gr, sent);
      } else {
        HandlesNewkeys(c, a);
        ClientReadsNewkeys(c, t, a, b, gb, ds);
        gr := Idle;
        ClientAfterTurn(c, t, a, b, ga, gb, ds, k, m, OnNewkeys(a).value, gr, sent);
      }
    }
  }

  /** The reply on its way is the one the deal determines, and is handled as a reply. */
  lemma ClientHandlesReply(c: Suite, t: Terms, a: State, b: State, ds: nat, k: nat)
    requires ClientCounts(c, t, a, b, Asked, Keyed, ds, k) && b.out.log[k].kind.EcdhReply?
    ensures Replied(c, t, a, b, ds)
    ensures Msg(b.out.log[k].kind, b.out.log[k].payload) == Msg(EcdhReply(ds), DealOf(c, t, a, b, ds).value.reply)
    ensures HandlePacket(c, a, b.out.log[k].payload) == OnEcdhReply(c, a, b.out.log[k].payload)
  {
    hide HandlePacket, Lock, PacketsIn, Surfacing, Safety.Apps, Epochs, Advance, Sent, Fits, CipherAfter, SeqAfter, OnEcdhReply, Settle, Agreement, Kexes, Replied, ReplyPayload,
         Continues, Ready;
    FlightHead(b.out, k, ToClient(c, t, a, b, Asked, Keyed, ds));
    LockAsked(c, t, a, b, Keyed, ds);
    LockStages(c, t, a, b, Asked, Keyed, ds);
    RepliedDeal(c, t, a, b, ds);
    var e := a.kex.ephemeral.value;
    var qs := SettleReplies(c, Agreement(t).value, e.draw, ds, a.kex.localKexinit, b.kex.localKexinit, a.kex.sessionId);
    HandlesReply(c, a, DealOf(c, t, a, b, ds).value.hash, qs);
  }

  lemma RepliedDeal(c: Suite, t: Terms, a: State, b: State, ds: nat)
    requires Replied(c, t, a, b, ds)
    ensures Agreement(t).Ok? && a.kex.ephemeral.Some? && DealOf(c, t, a, b, ds).Ok?
  {
    hide Agreement, Settle;
  }

  lemma ServerHandles(c: Suite, t: Terms, a: State, b: State, ga: Stage, gb: Stage, ds: nat, k: nat) returns (gr: Stage, ds': nat, sent: seq<Msg>)
    requires Honest(c) && ValidTerms(t) && ServerCounts(c, t, a, b, ga, gb, ds, k)
    ensures var r := HandlePacket(c, b, a.out.log[k].payload);
            if r.Err? then !Compatible(t) else ServerAfter(c, t, a, b, ga, gb, ds, k, r.value, gr, ds', sent)
  {
    hide HandlePacket, Lock, Taken, ToServer, ToClient, Sent, PacketsIn, Surfacing, Safety.Apps, AppLike, Fits, CipherAfter, SeqAfter,
         ServerAfter, ServerTurn, OnPeerKexinit, OnEcdhInit, OnNewkeys, Settle, Honest, ValidTerms, Replied, Agreement, Refused,
         Offer, InStage, Ready, AskMsg, KeyLengths;
    gr, ds', sent := gb, ds, [];
    var f := a.out.log[k];
    if !IsKex(f.kind) {
      ServerHandlesOther(c, t, a, b, ga, gb, ds, k);
    } else {
      var m := Msg(f.kind, f.payload);
      FlightHead(a.out, k, ToServer(c, a, b, ga, gb));
      NextForServer(c, t, a, b, ga, gb, ds);
      LockStages(c, t, a, b, ga, gb, ds);
      if f.kind.KexInitMsg? {
        AskedHasKey(t, a, ga);
        HandlesKexinit(c, b, a.cfg, f.payload);
        gr, sent := ServerReadsKexinit(c, t, a, b, ga, gb, ds);
        var r := OnPeerKexinit(c, b, f.payload);
        if r.Ok? && Refused(t, b, gb, r.value) {
          ServerAfterRefusal(c, t, a, b, ga, gb, ds, k, r.value);
          gr, sent := gb, [];
        } else if r.Ok? {
          ServerAfterTurn(c, t, a, b, ga, gb, ds, k, m, r.value, gr, ds, sent);
        }
      } else if f.kind.EcdhInit? {
        HandlesAsk(c, b, a);
        sent := ServerReadsAsk(c, t, a, b, ds);
        gr, ds' := Keyed, b.out.drawn;
        var r := OnEcdhInit(c, b, f.payload);
        if r.Ok? {
          ServerAfterTurn(c, t, a, b, ga, gb, ds, k, m, r.value, gr, ds', sent);
        }
      } else {
        HandlesNewkeys(c, b);
        assert !ga.Asked? by { NoKeysWhileAsked(c, t, a, b, ga, gb, ds); }
        ServerReadsNewkeys(c, t, a, b, ga, ds);
        gr := Idle;
        ServerAfterTurn(c, t, a, b, ga, gb, ds, k, m, OnNewkeys(b).value, gr, ds, sent);
      }
    }
  }

  lemma NoKeysWhileAsked(c: Suite, t: Terms, a: State, b: State, ga: Stage, gb: Stage, ds: nat)
    requires ToServer(c, a, b, ga, gb) != [] && gb.Keyed?
    ensures !ga.Asked?
  {
  }

  // --- the whole of accepting a packet -------------------------------------------------------------

  /** The only ways an endpoint gives up on an honest peer: nothing in common, or the cap on
      packets received in one epoch. */
  predicate Excused(t: Terms, s: State) {
    !Compatible(t) || s.inn.packets + 1 >= EPOCH_HARD_PACKETS
  }

  lemma TakenStayed(t: Terms, s: State, g: Stage, r: State, log: seq<Frame>, k: nat)
    requires Taken(log, s, k) && Stayed(t, s, g, r)
    ensures Taken(log, r, k)
  {
    hide InStage, Ready, Sent, PacketsIn, Surfacing, Safety.Apps, Epochs, CipherAfter, SeqAfter;
  }

  lemma ClientAfterStayed(c: Suite, t: Terms, a: State, b: State, ga: Stage, gb: Stage, ds: nat, k: nat, u: State, gu: Stage, sent: seq<Msg>, r: State)
    requires ClientAfter(c, t, a, b, ga, gb, ds, k, u, gu, sent) && Stayed(t, u, gu, r)
    ensures ClientAfter(c, t, a, b, ga, gb, ds, k, r, Now(gu, r), sent + OfferIf(gu, r))
  {
    hide InStage, Lock, Ready, Taken, Flight, ToServer, ToClient, PacketsIn, Sent, OfferIf;
    ClientStayed(c, t, u, b, gu, gb, ds, r);
    TakenStayed(t, u, gu, r, b.out.log, k + 1);
    SentThen(a.out, u.out, r.out, sent, OfferIf(gu, r));
    EpochGrows(u.out, r.out, OfferIf(gu, r));
    Seqs.Assoc(ToServer(c, a, b, ga, gb), sent, OfferIf(gu, r));
  }

  lemma ServerAfterStayed(c: Suite, t: Terms, a: State, b: State, ga: Stage, gb: Stage, ds: nat, k: nat, u: State, gu: Stage, ds': nat, sent: seq<Msg>, r: State)
    requires ServerAfter(c, t, a, b, ga, gb, ds, k, u, gu, ds', sent) && Stayed(t, u, gu, r)
    ensures ServerAfter(c, t, a, b, ga, gb, ds, k, r, Now(gu, r), ds', sent + OfferIf(gu, r))
  {
    hide InStage, Lock, Ready, Taken, Flight, ToServer, ToClient, PacketsIn, Sent, OfferIf;
    ServerStayed(c, t, a, u, ga, gu, ds', r);
    TakenStayed(t, u, gu, r, a.out.log, k + 1);
    SentThen(b.out, u.out, r.out, sent, OfferIf(gu, r));
    EpochGrows(u.out, r.out, OfferIf(gu, r));
    Seqs.Assoc(ToClient(c, t, a, b, ga, gb, ds), sent, OfferIf(gu, r));
  }

  lemma ClientAccepts(c: Suite, t: Terms, a: State, b: State, ga: Stage, gb: Stage, ds: nat, k: nat, n: nat) returns (gr: Stage, sent: seq<Msg>)
    requires Honest(c) && ValidTerms(t) && Lock(c, t, a, b, ga, gb, ds) && Ready(a)
    requires Taken(b.out.log, a, k) && k < |b.out.log| && Threaded(b.out.log) && !a.phase.NeedPeerVersion?
    requires Flight(b.out, k, ToClient(c, t, a, b, ga, gb, ds))
    ensures var r := Accept(c, a, b.out.log[k].payload, n);
            if r.Err? then Excused(t, a) else ClientAfter(c, t, a, b, ga, gb, ds, k, r.value, gr, sent)
  {
    hide Lock, Ready, Taken, Counted, Continues, Flight, ToServer, ToClient, Honest, ValidTerms, HandlePacket, ClientAfter, Threaded,
         InitiateRekey, Stayed, Compatible;
    var u := Count(a, n);
    CountTaken(b.out.log, a, k, n);
    LockSame(c, t, a, b, ga, gb, ds, u, b);
    ReadySame(a, u);
    gr, sent := ClientHandles(c, t, u, b, ga, gb, ds, k);
    var r := HandlePacket(c, u, b.out.log[k].payload);
    if r.Ok? {
      ClientAfterSame(c, t, a, u, b, ga, gb, ds, k, r.value, gr, sent);
      ClientAfterFacts(c, t, a, b, ga, gb, ds, k, r.value, gr, sent);
      if AutoRekey(c, r.value) != r.value {
        InitiateStayed(c, t, r.value, gr);
        var v := InitiateRekey(c, r.value);
        ClientAfterStayed(c, t, a, b, ga, gb, ds, k, r.value, gr, sent, v);
        sent := sent + OfferIf(gr, v);
        gr := Now(gr, v);
      }
    }
  }

  lemma ClientAfterSame(c: Suite, t: Terms, a: State, u: State, b: State, ga: Stage, gb: Stage, ds: nat, k: nat, r: State, gr: Stage, sent: seq<Msg>)
    requires ClientAfter(c, t, u, b, ga, gb, ds, k, r, gr, sent)
    requires u.out == a.out && ToServer(c, u, b, ga, gb) == ToServer(c, a, b, ga, gb)
    ensures ClientAfter(c, t, a, b, ga, gb, ds, k, r, gr, sent)
  {
    hide Lock, Ready, Taken, Flight, ToServer, ToClient, Sent;
  }

  lemma ClientAfterFacts(c: Suite, t: Terms, a: State, b: State, ga: Stage, gb: Stage, ds: nat, k: nat, r: State, gr: Stage, sent: seq<Msg>)
    requires ClientAfter(c, t, a, b, ga, gb, ds, k, r, gr, sent)
    ensures InStage(t, r, gr) && Ready(r)
  {
    hide InStage, Ready, Taken, Flight, ToServer, ToClient, Sent, Settle, Agreement;
  }

  lemma ServerAccepts(c: Suite, t: Terms, a: State, b: State, ga: Stage, gb: Stage, ds: nat, k: nat, n: nat) returns (gr: Stage, ds': nat, sent: seq<Msg>)
    requires Honest(c) && ValidTerms(t) && Lock(c, t, a, b, ga, gb, ds) && Ready(b)
    requires Taken(a.out.log, b, k) && k < |a.out.log| && Threaded(a.out.log) && !b.phase.NeedPeerVersion?
    requires Flight(a.out, k, ToServer(c, a, b, ga, gb))
    ensures var r := Accept(c, b, a.out.log[k].payload, n);
            if r.Err? then Excused(t, b) else ServerAfter(c, t, a, b, ga, gb, ds, k, r.value, gr, ds', sent)
  {
    hide Lock, Ready, Taken, Counted, Continues, Flight, ToServer, ToClient, Honest, ValidTerms, HandlePacket, ServerAfter, Threaded,
         InitiateRekey, Stayed, Compatible;
    var u := Count(b, n);
    CountTaken(a.out.log, b, k, n);
    LockSame(c, t, a, b, ga, gb, ds, a, u);
    ReadySame(b, u);
    gr, ds', sent := ServerHandles(c, t, a, u, ga, gb, ds, k);
    var r := HandlePacket(c, u, a.out.log[k].payload);
    if r.Ok? {
      ServerAfterSame(c, t, a, b, u, ga, gb, ds, k, r.value, gr, ds', sent);
      ServerAfterFacts(c, t, a, b, ga, gb, ds, k, r.value, gr, ds', sent);
      if AutoRekey(c, r.value) != r.value {
        InitiateStayed(c, t, r.value, gr);
        var v := InitiateRekey(c, r.value);
        ServerAfterStayed(c, t, a, b, ga, gb, ds, k, r.value, gr, ds', sent, v);
        sent := sent + OfferIf(gr, v);
        gr := Now(gr, v);
      }
    }
  }

  lemma ServerAfterSame(c: Suite, t: Terms, a: State, b: State, u: State, ga: Stage, gb: Stage, ds: nat, k: nat, r: State, gr: Stage, ds': nat, sent: seq<Msg>)
    requires ServerAfter(c, t, a, u, ga, gb, ds, k, r, gr, ds', sent)
    requires u.out == b.out && ToClient(c, t, a, u, ga, gb, ds) == ToClient(c, t, a, b, ga, gb, ds)
    ensures ServerAfter(c, t, a, b, ga, gb, ds, k, r, gr, ds', sent)
  {
    hide Lock, Ready, Taken, Flight, ToServer, ToClient, Sent;
  }

  lemma ServerAfterFacts(c: Suite, t: Terms, a: State, b: State, ga: Stage, gb: Stage, ds: nat, k: nat, r: State, gr: Stage, ds': nat, sent: seq<Msg>)
    requires ServerAfter(c, t, a, b, ga, gb, ds, k, r, gr, ds', sent)
    ensures InStage(t, r, gr) && Ready(r)
  {
    hide InStage, Ready, Taken, Flight, ToServer, ToClient, Sent, Settle, Agreement;
  }
}
