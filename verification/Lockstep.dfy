/** One honest endpoint through a key-exchange round: the stages it passes, what it sends
    at each, and what the two ends compute. */
module Lockstep {
  import opened Bytes
  import opened Wire
  import opened Transport
  import opened Stream
  import Algo
  import Version

  /** Between rounds; our KEXINIT is out; the peer's is in too; the client has sent its
      ephemeral key; our NEWKEYS is out. */
  datatype Stage = Idle | Offered | Agreed | Asked | Keyed

  /** The two configurations that meet. */
  datatype Terms = Terms(client: Config, server: Config)

  predicate Usable(cfg: Config) {
    && ValidNames(cfg.ciphers) && ValidNames(cfg.compressions)
    && |Join(cfg.ciphers)| <= 30000 && |Join(cfg.compressions)| <= 30000
  }

  predicate ValidTerms(t: Terms) {
    t.client.role.Client? && t.server.role.Server? && Usable(t.client) && Usable(t.server)
  }

  function ConfigOf(t: Terms, role: Role): Config {
    if role.Client? then t.client else t.server
  }

  function PeerOf(t: Terms, role: Role): Config {
    if role.Client? then t.server else t.client
  }

  /** The offer of a configuration, cookie and bytes aside. */
  function Lists(cfg: Config): Algo.KexInit {
    Algo.Ours(cfg.role.Server?, [], cfg.ciphers, cfg.compressions)
  }

  /** What the two configurations settle on. */
  function Agreement(t: Terms): Result<Algo.Negotiated> {
    Algo.Negotiate(Lists(t.client), Lists(t.server))
  }

  predicate Offer(cfg: Config, payload: seq<byte>) {
    && Algo.Parse(payload) == Ok(Lists(cfg).(payload := payload))
    && 0 < |payload| <= MAX_PAYLOAD && payload[0] == MSG_KEXINIT
  }

  lemma NameListLength(names: seq<Name>)
    ensures |NameListField(names)| == 4 + |Join(names)|
  {
  }

  lemma OfferLength(isServer: bool, cookie: seq<byte>, ciphers: seq<Name>, comps: seq<Name>)
    requires |cookie| == 16 && |Join(ciphers)| <= 30000 && |Join(comps)| <= 30000
    ensures |Algo.OurPayload(isServer, cookie, ciphers, comps)| <= MAX_PAYLOAD
  {
    hide Join, NameListField, Algo.KexAlgorithms, Algo.Ed25519, Algo.HmacSha256;
    Algo.KnownListsValid(isServer);
    var ls := Algo.OurLists(isServer, ciphers, comps);
    var none: seq<Name> := [];
    assert |Join(none)| == 0 by { JoinNothing(); }
    NamesBounded(ls, 30000);
  }

  lemma JoinNothing()
    ensures Join([]) == []
  {
  }

  lemma {:induction false} NamesBounded(ls: seq<seq<Name>>, n: nat)
    requires forall i :: 0 <= i < |ls| ==> |Join(ls[i])| <= n
    ensures |Algo.NameLists(ls)| <= |ls| * (n + 4)
  {
    hide Join, NameListField;
    if ls != [] {
      NameListLength(ls[0]);
      NamesBounded(ls[1..], n);
      assert |ls| * (n + 4) == (|ls| - 1) * (n + 4) + (n + 4);
    }
  }

  /** Every KEXINIT we build is an offer of our configuration. */
  lemma OfferMade(c: Suite, cfg: Config, draw: nat)
    requires Usable(cfg)
    ensures Offer(cfg, KexinitPayload(c, cfg, draw))
  {
    hide ValidNames, Join, Algo.Parse, Algo.NameLists, Algo.OurLists, Cookie;
    var cookie := Cookie(c, cfg.role, draw);
    Algo.ParseOurs(cfg.role.Server?, cookie, cfg.ciphers, cfg.compressions);
    OfferLength(cfg.role.Server?, cookie, cfg.ciphers, cfg.compressions);
  }

  // --- stages --------------------------------------------------------------------------

  predicate Flags(s: State, g: Stage) {
    var k := s.kex;
    && (s.phase.Established? <==> k.initialDone)
    && (k.initialDone || g.Agreed? || g.Asked? || g.Keyed? ==> k.strict)
    && !k.skipGuess && !k.recvNewkeys
    && (k.kexinitSent <==> !g.Idle?)
    && (k.rekeying <==> !g.Idle? && k.initialDone)
    && (k.sentNewkeys <==> g.Keyed?)
    && (k.pending.Some? <==> g.Keyed?)
    && (g.Idle? ==> k.initialDone)
    && (s.phase.NeedPeerVersion? ==> g.Offered?)
    && (k.sessionId.Some? <==> k.initialDone || g.Keyed?)
  }

  /** Both offers are in and the algorithms are the ones the configurations settle on. */
  predicate Bargained(t: Terms, k: Kex) {
    Agreement(t).Ok? && k.negotiated == Some(Agreement(t).value) && k.peerKexinit.Some?
  }

  /** The compression names of the two directions, as seen from one end. */
  predicate Compressed(t: Terms, role: Role, k: Kex) {
    && Agreement(t).Ok?
    && k.compOut == (if role.Client? then Agreement(t).value.compC2s else Agreement(t).value.compS2c)
    && k.compIn == (if role.Client? then Agreement(t).value.compS2c else Agreement(t).value.compC2s)
  }

  predicate InStage(t: Terms, s: State, g: Stage) {
    var k := s.kex;
    && s.cfg == ConfigOf(t, s.cfg.role)
    && Flags(s, g)
    && (!s.phase.NeedPeerVersion? ==> s.peerId == Some(Version.LocalId()))
    && (!g.Idle? ==> Offer(s.cfg, k.localKexinit))
    && (g.Agreed? || g.Asked? ==> Bargained(t, k))
    && (k.ephemeral.Some? <==> g.Asked?)
    && (g.Asked? ==> k.ephemeral.value.kind == KexKindOf(k))
    && (k.negotiated.Some? ==> Agreement(t).Ok? && k.negotiated == Some(Agreement(t).value) && !g.Offered?)
    && (k.sessionId.Some? ==> Compressed(t, s.cfg.role, k))
  }

  /** The sender may flush its queue as soon as a round completes. */
  predicate Ready(s: State) {
    AllAppLike(s.queue) && (s.phase.Established? || s.kex.sentNewkeys ==> s.out.epoch > 0)
  }

  function PacketOf(e: Event): seq<seq<byte>> {
    if e.PacketIn? then [e.payload] else []
  }

  /** The payloads handed up so far. */
  function PacketsIn(events: seq<Event>): seq<seq<byte>> {
    if events == [] then []
    else PacketsIn(events[..|events| - 1]) + PacketOf(events[|events| - 1])
  }

  lemma PacketsInSnoc(events: seq<Event>, e: Event)
    ensures PacketsIn(events + [e]) == PacketsIn(events) + PacketOf(e)
  {
    assert (events + [e])[..|events|] == events;
  }

  function OfferMsg(s: State): Msg { Msg(KexInitMsg, s.kex.localKexinit) }

  /** The stage after a call that can at most start a round. */
  function Now(g: Stage, s: State): Stage {
    if g.Idle? && s.kex.kexinitSent then Offered else g
  }

  function OfferIf(g: Stage, s: State): seq<Msg> {
    if g.Idle? && s.kex.kexinitSent then [OfferMsg(s)] else []
  }

  /** A call that can at most start a round took `s` to `r`. */
  predicate Stayed(t: Terms, s: State, g: Stage, r: State) {
    && InStage(t, r, Now(g, r)) && Ready(r)
    && Sent(s.out, r.out, OfferIf(g, r))
    && r.cfg == s.cfg && r.phase == s.phase && r.inn == s.inn && r.peerId == s.peerId
    && r.kex.sessionId == s.kex.sessionId && r.rounds == s.rounds
    && (Now(g, r) == g ==> r.kex == s.kex)
    && PacketsIn(r.events) == PacketsIn(s.events)
  }

  lemma SentOffer(c: Suite, cfg: Config, o: Out)
    requires Usable(cfg)
    ensures var payload := KexinitPayload(c, cfg, o.drawn);
            Sent(o, Write(o.(drawn := o.drawn + 1), KexInitMsg, payload), [Msg(KexInitMsg, payload)])
  {
    hide Sent, Write, KexinitPayload, Usable;
    var payload := KexinitPayload(c, cfg, o.drawn);
    var p := o.(drawn := o.drawn + 1);
    OfferMade(c, cfg, o.drawn);
    SentNothing(o, p);
    SentWrite(p, KexInitMsg, payload);
    SentThen(o, p, Write(p, KexInitMsg, payload), [], [Msg(KexInitMsg, payload)]);
    var none: seq<Msg> := [];
    assert none + [Msg(KexInitMsg, payload)] == [Msg(KexInitMsg, payload)];
  }

  lemma BeginStayed(c: Suite, t: Terms, s: State)
    requires ValidTerms(t) && InStage(t, s, Idle) && Ready(s)
    ensures Stayed(t, s, Idle, BeginRekeyRound(c, s)) && BeginRekeyRound(c, s).kex.kexinitSent
  {
    hide Sent, Write, KexinitPayload, Usable, Offer, Agreement, Version.LocalId;
    SentOffer(c, s.cfg, s.out);
    OfferMade(c, s.cfg, s.out.drawn);
    var r := BeginRekeyRound(c, s);
    EpochGrows(s.out, r.out, [OfferMsg(r)]);
  }

  lemma StayedSelf(t: Terms, s: State, g: Stage)
    requires InStage(t, s, g) && Ready(s)
    ensures Stayed(t, s, g, s)
  {
    hide InStage, Ready;
    SentNothing(s.out, s.out);
    assert Now(g, s) == g by { NowSelf(t, s, g); }
  }

  lemma NowSelf(t: Terms, s: State, g: Stage)
    requires InStage(t, s, g)
    ensures Now(g, s) == g && OfferIf(g, s) == []
  {
    hide Agreement, Offer;
  }

  lemma InitiateStayed(c: Suite, t: Terms, s: State, g: Stage)
    requires ValidTerms(t) && InStage(t, s, g) && Ready(s)
    ensures Stayed(t, s, g, InitiateRekey(c, s))
  {
    hide Stayed, BeginRekeyRound, ValidTerms, Ready, Agreement, Offer;
    if s.phase.Established? && !s.kex.rekeying {
      assert g == Idle;
      BeginStayed(c, t, s);
    } else {
      StayedSelf(t, s, g);
    }
  }

  /** The parts of a state a stage reads. */
  lemma StageSame(t: Terms, s: State, r: State, g: Stage)
    requires InStage(t, s, g)
    requires r.cfg == s.cfg && r.phase == s.phase && r.kex == s.kex && r.peerId == s.peerId
    ensures InStage(t, r, g)
  {
    hide Agreement, Offer, Version.LocalId;
  }

  lemma StayedThen(t: Terms, s: State, g: Stage, m: State, r: State)
    requires InStage(t, s, g)
    requires Stayed(t, s, g, m) && Stayed(t, m, Now(g, m), r)
    ensures Stayed(t, s, g, r)
  {
    hide InStage, Ready, Sent;
    NowSelf(t, s, g);
    NowSelf(t, m, Now(g, m));
    SentThen(s.out, m.out, r.out, OfferIf(g, m), OfferIf(Now(g, m), r));
    var none: seq<Msg> := [];
    if Now(g, m) == g {
      assert none + OfferIf(g, r) == OfferIf(g, r);
    } else {
      assert OfferIf(Now(g, m), r) == [];
      assert r.kex == m.kex;
      assert OfferIf(g, m) + none == OfferIf(g, m);
    }
  }

  lemma SendStayed(c: Suite, t: Terms, s: State, g: Stage, payload: seq<byte>)
    requires ValidTerms(t) && InStage(t, s, g) && Ready(s) && AppLike(payload)
    ensures SendPacket(c, s, payload).Ok? ==> Stayed(t, s, g, SendPacket(c, s, payload).value)
  {
    hide ValidTerms, InStage, InitiateRekey, Sent, Write, AppLike;
    if s.phase.Established? {
      NowSelf(t, s, g);
      if s.kex.rekeying {
        var r := s.(queue := s.queue + [payload]);
        SentNothing(s.out, r.out);
        StageSame(t, s, r, g);
      } else {
        var r := s.(out := Write(s.out, App, payload), bytesSince := SaturatingAdd(s.bytesSince, |payload|));
        FitsApp(payload, s.out.epoch);
        SentWrite(s.out, App, payload);
        EpochGrows(s.out, r.out, []);
        StageSame(t, s, r, g);
        assert Stayed(t, s, g, r);
        InitiateStayed(c, t, r, g);
        StayedThen(t, s, g, r, InitiateRekey(c, r));
      }
    }
  }

  lemma HangupStayed(t: Terms, s: State, g: Stage, reason: u32, text: seq<byte>)
    requires InStage(t, s, g) && Ready(s) && |text| <= 30000
    ensures Stayed(t, s, g, Disconnect(s, reason, text)) && Disconnect(s, reason, text).out.closing
    ensures Disconnect(s, reason, text).kex == s.kex
  {
    hide InStage, Sent, Write;
    var payload := DisconnectPayload(reason, text);
    assert Fits(DisconnectMsg, payload, s.out.epoch) by { DisconnectFits(reason, text, s.out.epoch); }
    SentWrite(s.out, DisconnectMsg, payload);
    var p := Write(s.out, DisconnectMsg, payload);
    SentNothing(p, p.(closing := true));
    SentThen(s.out, p, p.(closing := true), [], []);
    var none: seq<Msg> := [];
    assert none + none == none;
    var r := Disconnect(s, reason, text);
    EpochGrows(s.out, r.out, []);
    StageSame(t, s, r, g);
    NowSelf(t, s, g);
  }

  lemma DisconnectFits(reason: u32, text: seq<byte>, epoch: nat)
    requires |text| <= 30000
    ensures Fits(DisconnectMsg, DisconnectPayload(reason, text), epoch)
  {
    hide Be32;
  }
}
