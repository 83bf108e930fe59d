/** Client and server in one key exchange: which pairs of stages can occur together, and
    which key-exchange messages are then still on their way. */
module Joint {
  import opened Bytes
  import opened Framing
  import opened Transport
  import opened Stream
  import opened Lockstep
  import opened Rounds
  import Algo
  import Seqs
  import Wire
  import opened Kdf
  import Version

  /** The server never has more than one reply pending; a side whose round is complete may
      already have offered the next one. */
  predicate Together(ga: Stage, gb: Stage) {
    match ga
    case Idle => gb == Idle || gb == Offered || gb == Keyed
    case Offered => gb == Idle || gb == Offered || gb == Agreed || gb == Keyed
    case Agreed => false
    case Asked => gb == Offered || gb == Agreed || gb == Keyed
    case Keyed => gb == Keyed || gb == Idle || gb == Offered
  }

  function DealOf(c: Suite, t: Terms, a: State, b: State, ds: nat): Result<Deal>
    requires Agreement(t).Ok? && a.kex.ephemeral.Some?
  {
    Settle(c, Agreement(t).value, a.kex.ephemeral.value.draw, ds, a.kex.localKexinit, b.kex.localKexinit, a.kex.sessionId)
  }

  /** The client has asked, the server has replied and switched, the client has not seen it. */
  predicate Replied(c: Suite, t: Terms, a: State, b: State, ds: nat) {
    && Agreement(t).Ok? && a.kex.ephemeral.Some? && b.kex.pending.Some?
    && var d := DealOf(c, t, a, b, ds);
       d.Ok? && b.kex.sessionId == Some(d.value.session) && b.kex.pending.value.inn == d.value.c2s
       && b.rounds == a.rounds + [d.value.input]
  }

  /** The joint state of client `a` and server `b`; `ds` is the server's draw of a reply
      under way. Apart from that reply the session ids and the rounds gone through agree. */
  predicate Lock(c: Suite, t: Terms, a: State, b: State, ga: Stage, gb: Stage, ds: nat) {
    && a.cfg.role.Client? && b.cfg.role.Server?
    && InStage(t, a, ga) && InStage(t, b, gb) && Together(ga, gb)
    && (ga.Asked? ==> a.kex.peerKexinit.value.payload == b.kex.localKexinit)
    && (gb.Agreed? ==> b.kex.peerKexinit.value.payload == a.kex.localKexinit)
    && (if ga.Asked? && gb.Keyed? then Replied(c, t, a, b, ds) else a.kex.sessionId == b.kex.sessionId && a.rounds == b.rounds)
  }

  function KeysFor(s: State): seq<Msg> {
    if s.kex.pending.Some? then [KeysMsg(s.kex.pending.value.inn)] else []
  }

  function Ask(c: Suite, a: State): seq<Msg> {
    if a.kex.ephemeral.Some? then [AskMsg(c, a)] else []
  }

  /** Key-exchange messages the server has yet to read. */
  function ToServer(c: Suite, a: State, b: State, ga: Stage, gb: Stage): seq<Msg> {
    match (ga, gb)
    case (Offered, Agreed) => []
    case (Offered, Keyed) => KeysFor(b) + [OfferMsg(a)]
    case (Offered, _) => [OfferMsg(a)]
    case (Asked, Offered) => [OfferMsg(a)] + Ask(c, a)
    case (Asked, Agreed) => Ask(c, a)
    case (Keyed, Keyed) => KeysFor(b)
    case (Idle, Keyed) => KeysFor(b)
    case (_, _) => []
  }

  function Reply(c: Suite, t: Terms, a: State, b: State, ds: nat): seq<Msg> {
    if Replied(c, t, a, b, ds)
    then var d := DealOf(c, t, a, b, ds).value; [Msg(EcdhReply(ds), d.reply), KeysMsg(d.s2c)]
    else []
  }

  /** Key-exchange messages the client has yet to read. */
  function ToClient(c: Suite, t: Terms, a: State, b: State, ga: Stage, gb: Stage, ds: nat): seq<Msg> {
    match (ga, gb)
    case (Idle, Offered) => [OfferMsg(b)]
    case (Offered, Offered) => [OfferMsg(b)]
    case (Offered, Agreed) => [OfferMsg(b)]
    case (Asked, Keyed) => Reply(c, t, a, b, ds)
    case (Keyed, Offered) => KeysFor(a) + [OfferMsg(b)]
    case (Keyed, _) => KeysFor(a)
    case (_, _) => []
  }

  // --- calls that can at most start a round ------------------------------------------------

  lemma ClientStayed(c: Suite, t: Terms, a: State, b: State, ga: Stage, gb: Stage, ds: nat, r: State)
    requires Lock(c, t, a, b, ga, gb, ds) && Stayed(t, a, ga, r)
    ensures Lock(c, t, r, b, Now(ga, r), gb, ds)
    ensures ToServer(c, r, b, Now(ga, r), gb) == ToServer(c, a, b, ga, gb) + OfferIf(ga, r)
    ensures ToClient(c, t, r, b, Now(ga, r), gb, ds) == ToClient(c, t, a, b, ga, gb, ds)
  {
    hide InStage, Sent, Ready, PacketsIn, Settle, Agreement;
    NowSelf(t, a, ga);
    if Now(ga, r) == ga {
      assert OfferIf(ga, r) == [] by { NowSelf(t, r, ga); }
      assert ToServer(c, a, b, ga, gb) + [] == ToServer(c, a, b, ga, gb);
    } else {
      assert ga == Idle && Now(ga, r) == Offered;
    }
  }

  lemma ServerStayed(c: Suite, t: Terms, a: State, b: State, ga: Stage, gb: Stage, ds: nat, r: State)
    requires Lock(c, t, a, b, ga, gb, ds) && Stayed(t, b, gb, r)
    ensures Lock(c, t, a, r, ga, Now(gb, r), ds)
    ensures ToServer(c, a, r, ga, Now(gb, r)) == ToServer(c, a, b, ga, gb)
    ensures ToClient(c, t, a, r, ga, Now(gb, r), ds) == ToClient(c, t, a, b, ga, gb, ds) + OfferIf(gb, r)
  {
    hide InStage, Sent, Ready, PacketsIn, Settle, Agreement;
    NowSelf(t, b, gb);
    if Now(gb, r) == gb {
      assert OfferIf(gb, r) == [] by { NowSelf(t, r, gb); }
      assert ToClient(c, t, a, b, ga, gb, ds) + [] == ToClient(c, t, a, b, ga, gb, ds);
    } else {
      assert gb == Idle && Now(gb, r) == Offered;
    }
  }

  lemma LockSame(c: Suite, t: Terms, a: State, b: State, ga: Stage, gb: Stage, ds: nat, a': State, b': State)
    requires Lock(c, t, a, b, ga, gb, ds)
    requires a'.cfg == a.cfg && a'.phase == a.phase && a'.kex == a.kex && a'.peerId == a.peerId && a'.rounds == a.rounds
    requires b'.cfg == b.cfg && b'.phase == b.phase && b'.kex == b.kex && b'.peerId == b.peerId && b'.rounds == b.rounds
    ensures Lock(c, t, a', b', ga, gb, ds)
    ensures ToServer(c, a', b', ga, gb) == ToServer(c, a, b, ga, gb)
    ensures ToClient(c, t, a', b', ga, gb, ds) == ToClient(c, t, a, b, ga, gb, ds)
  {
    hide InStage, Settle, Agreement;
    StageSame(t, a, a', ga);
    StageSame(t, b, b', gb);
  }

  // --- reading one message -------------------------------------------------------------------

  lemma KeyedHasKeys(t: Terms, s: State)
    requires InStage(t, s, Keyed)
    ensures s.kex.pending.Some? && KeysFor(s) == [KeysMsg(s.kex.pending.value.inn)]
  {
    hide Agreement, Offer;
  }

  lemma AskedHasKey(t: Terms, s: State, g: Stage)
    requires InStage(t, s, g)
    ensures g.Asked? ==> s.kex.ephemeral.Some?
    ensures g.Asked? || g.Agreed? ==> Bargained(t, s.kex)
    ensures !g.Idle? ==> Offer(s.cfg, s.kex.localKexinit)
    ensures s.cfg == ConfigOf(t, s.cfg.role)
    ensures !s.phase.NeedPeerVersion? ==> s.peerId == Some(Version.LocalId())
  {
    hide Agreement, Offer, Version.LocalId;
  }

  /** The next message on the way to the client fits the client's stage. */
  lemma NextForClient(c: Suite, t: Terms, a: State, b: State, ga: Stage, gb: Stage, ds: nat)
    requires Lock(c, t, a, b, ga, gb, ds) && ToClient(c, t, a, b, ga, gb, ds) != []
    ensures var m := ToClient(c, t, a, b, ga, gb, ds)[0];
            match m.kind
            case KexInitMsg => (ga.Idle? || ga.Offered?) && (gb.Offered? || gb.Agreed?) && m == OfferMsg(b)
            case EcdhReply(_) => ga.Asked? && gb.Keyed? && Replied(c, t, a, b, ds)
            case NewKeys(_) => ga.Keyed? && a.kex.pending.Some? && m == KeysMsg(a.kex.pending.value.inn)
            case _ => false
  {
    hide InStage, Settle, Agreement, OfferMsg;
    if ga.Keyed? {
      KeyedHasKeys(t, a);
    }
    assert OfferMsg(b).kind.KexInitMsg? by { OfferKind(b); }
  }

  lemma OfferKind(s: State)
    ensures OfferMsg(s).kind == KexInitMsg
  {
  }

  lemma NextForServer(c: Suite, t: Terms, a: State, b: State, ga: Stage, gb: Stage, ds: nat)
    requires Lock(c, t, a, b, ga, gb, ds) && ToServer(c, a, b, ga, gb) != []
    ensures var m := ToServer(c, a, b, ga, gb)[0];
            match m.kind
            case KexInitMsg => (ga.Offered? || ga.Asked?) && (gb.Idle? || gb.Offered?) && m == OfferMsg(a)
            case EcdhInit(_) => ga.Asked? && gb.Agreed? && a.kex.ephemeral.Some? && m == AskMsg(c, a)
            case NewKeys(_) => gb.Keyed? && b.kex.pending.Some? && m == KeysMsg(b.kex.pending.value.inn)
            case _ => false
  {
    hide InStage, Settle, Agreement, OfferMsg;
    if gb.Keyed? {
      KeyedHasKeys(t, b);
    }
    AskedHasKey(t, a, ga);
    OfferKind(a);
  }

  /** Fields every step keeps. */
  predicate SameEnd(s: State, r: State) {
    && r.cfg == s.cfg && r.peerId == s.peerId
    && (s.phase.Established? ==> r.phase.Established?) && (r.phase.NeedPeerVersion? <==> s.phase.NeedPeerVersion?)
    && PacketsIn(r.events) == PacketsIn(s.events)
  }

  /** The client consumed `m` and sent `sent`. */
  predicate ClientTurn(c: Suite, t: Terms, a: State, b: State, ga: Stage, gb: Stage, ds: nat, m: Msg, r: State, gr: Stage, sent: seq<Msg>) {
    && Lock(c, t, r, b, gr, gb, ds) && Ready(r) && Sent(a.out, r.out, sent) && SameEnd(a, r)
    && ToServer(c, r, b, gr, gb) == ToServer(c, a, b, ga, gb) + sent
    && ToClient(c, t, a, b, ga, gb, ds) == [m] + ToClient(c, t, r, b, gr, gb, ds)
    && (if m.kind.NewKeys? then r.inn.cipher == m.kind.next && r.inn.seqNr == 0 && r.phase.Established? else r.inn == a.inn)
  }

  predicate ServerTurn(c: Suite, t: Terms, a: State, b: State, ga: Stage, gb: Stage, ds: nat, m: Msg, r: State, gr: Stage, ds': nat, sent: seq<Msg>) {
    && Lock(c, t, a, r, ga, gr, ds') && Ready(r) && Sent(b.out, r.out, sent) && SameEnd(b, r)
    && ToClient(c, t, a, r, ga, gr, ds') == ToClient(c, t, a, b, ga, gb, ds) + sent
    && ToServer(c, a, b, ga, gb) == [m] + ToServer(c, a, r, ga, gr)
    && (if m.kind.NewKeys? then r.inn.cipher == m.kind.next && r.inn.seqNr == 0 && r.phase.Established? else r.inn == b.inn)
  }

  /** Asking moves the pair on: one message fewer for the client, one more for the server. */
  lemma AskedTurn(c: Suite, t: Terms, a: State, b: State, gb: Stage, ds: nat, r: State, sent: seq<Msg>)
    requires Lock(c, t, a, b, Offered, gb, ds) && (gb.Offered? || gb.Agreed?)
    requires InStage(t, r, Asked) && Ready(r) && r.kex.ephemeral.Some? && Sent(a.out, r.out, sent) && sent == Ask(c, r)
    requires r == a.(out := r.out, kex := r.kex)
    requires r.kex.localKexinit == a.kex.localKexinit && r.kex.sessionId == a.kex.sessionId
    requires r.kex.peerKexinit.Some? && r.kex.peerKexinit.value.payload == b.kex.localKexinit
    ensures ClientTurn(c, t, a, b, Offered, gb, ds, OfferMsg(b), r, Asked, sent)
  {
    hide InStage, Ready, Sent, Settle, AskMsg, Agreement, PacketsIn;
    assert ToServer(c, r, b, Asked, gb) == ToServer(c, a, b, Offered, gb) + sent;
  }

  /** The client in stage Offered has the server's offer too, and asks. */
  lemma ClientAsks(c: Suite, t: Terms, a: State, b: State, gb: Stage, ds: nat) returns (sent: seq<Msg>)
    requires Honest(c) && ValidTerms(t) && Lock(c, t, a, b, Offered, gb, ds) && Ready(a)
    requires gb.Offered? || gb.Agreed?
    requires !a.phase.NeedPeerVersion? && Agreement(t).Ok?
    ensures Agree(a, b.kex.localKexinit).Ok?
    ensures ClientTurn(c, t, a, b, Offered, gb, ds, OfferMsg(b), SendEcdhInit(c, Agree(a, b.kex.localKexinit).value), Asked, sent)
  {
    hide InStage, Ready, Honest, ValidTerms, Sent, Agree, SendEcdhInit, Agreement, Settle, AskMsg, ClientTurn, Replied, Offer,
         Bargained;
    AskedHasKey(t, b, gb);
    assert b.cfg == PeerOf(t, a.cfg.role);
    AgreeMoves(t, a, b.kex.localKexinit);
    var u := Agree(a, b.kex.localKexinit).value;
    AskMoves(c, t, u);
    var r := SendEcdhInit(c, u);
    AskedHasKey(t, r, Asked);
    sent := [AskMsg(c, r)];
    AskedTurn(c, t, a, b, gb, ds, r, sent);
  }

  lemma ClientTurnAfter(c: Suite, t: Terms, a: State, b: State, ga: Stage, gb: Stage, ds: nat, m: Msg, u: State, r: State, gr: Stage, sent: seq<Msg>)
    requires Lock(c, t, a, b, ga, gb, ds) && Stayed(t, a, ga, u)
    requires ClientTurn(c, t, u, b, Now(ga, u), gb, ds, m, r, gr, sent)
    ensures ClientTurn(c, t, a, b, ga, gb, ds, m, r, gr, OfferIf(ga, u) + sent)
  {
    hide InStage, Lock, Ready, Sent, PacketsIn, ToServer, ToClient, OfferIf;
    ClientStayed(c, t, a, b, ga, gb, ds, u);
    SentThen(a.out, u.out, r.out, OfferIf(ga, u), sent);
    Seqs.Assoc(ToServer(c, a, b, ga, gb), OfferIf(ga, u), sent);
  }

  lemma ServerTurnAfter(c: Suite, t: Terms, a: State, b: State, ga: Stage, gb: Stage, ds: nat, m: Msg, u: State, r: State, gr: Stage, ds': nat, sent: seq<Msg>)
    requires Lock(c, t, a, b, ga, gb, ds) && Stayed(t, b, gb, u)
    requires ServerTurn(c, t, a, u, ga, Now(gb, u), ds, m, r, gr, ds', sent)
    ensures ServerTurn(c, t, a, b, ga, gb, ds, m, r, gr, ds', OfferIf(gb, u) + sent)
  {
    hide InStage, Lock, Ready, Sent, PacketsIn, ToServer, ToClient, OfferIf;
    ServerStayed(c, t, a, b, ga, gb, ds, u);
    SentThen(b.out, u.out, r.out, OfferIf(gb, u), sent);
    Seqs.Assoc(ToClient(c, t, a, b, ga, gb, ds), OfferIf(gb, u), sent);
  }

  /** A round the endpoint refuses to answer: it closes and stays where it was. */
  predicate Refused(t: Terms, s: State, g: Stage, r: State) {
    Stayed(t, s, g, r) && r.out.closing && r.kex == s.kex
  }

  lemma ClientReadsKexinit(c: Suite, t: Terms, a: State, b: State, ga: Stage, gb: Stage, ds: nat) returns (gr: Stage, sent: seq<Msg>)
    requires Honest(c) && ValidTerms(t) && Lock(c, t, a, b, ga, gb, ds) && Ready(a)
    requires (ga.Idle? || ga.Offered?) && (gb.Offered? || gb.Agreed?)
    requires !a.phase.NeedPeerVersion?
    ensures var r := OnPeerKexinit(c, a, b.kex.localKexinit);
            if r.Err? then Agreement(t).Err?
            else Refused(t, a, ga, r.value) || ClientTurn(c, t, a, b, ga, gb, ds, OfferMsg(b), r.value, gr, sent)
  {
    hide InStage, Ready, Honest, ValidTerms, Sent, Agree, SendEcdhInit, Agreement, Settle, ClientTurn, Stayed, AnswerRekey,
         ToServer, ToClient, Lock, Offer;
    gr, sent := ga, [];
    LockStages(c, t, a, b, ga, gb, ds);
    if RekeyRefused(a) {
      RefusedStayed(c, t, a, ga);
    } else {
      AnswerStayed(c, t, a, ga);
      var u := AnswerRekey(c, a);
      StayedFacts(t, a, ga, u);
      ClientStayed(c, t, a, b, ga, gb, ds, u);
      AskedHasKey(t, b, gb);
      if Agreement(t).Err? {
        AgreeResult(t, u, b.kex.localKexinit);
      } else {
        sent := ClientAsks(c, t, u, b, gb, ds);
        var r := SendEcdhInit(c, Agree(u, b.kex.localKexinit).value);
        gr := Asked;
        ClientTurnAfter(c, t, a, b, ga, gb, ds, OfferMsg(b), u, r, Asked, sent);
        sent := OfferIf(ga, u) + sent;
        assert u.cfg.role.Client? && Agree(u, b.kex.localKexinit).value.cfg == u.cfg by { AgreeKeepsConfig(u, b.kex.localKexinit); }
      }
    }
  }

  lemma AgreeKeepsConfig(s: State, payload: seq<byte>)
    ensures Agree(s, payload).Ok? ==> Agree(s, payload).value.cfg == s.cfg
  {
    hide Algo.Parse, Algo.Negotiate, Algo.StrictClient, Algo.StrictServer, WrongGuess;
  }

  lemma LockStages(c: Suite, t: Terms, a: State, b: State, ga: Stage, gb: Stage, ds: nat)
    requires Lock(c, t, a, b, ga, gb, ds)
    ensures InStage(t, a, ga) && InStage(t, b, gb) && a.cfg.role.Client? && b.cfg.role.Server?
  {
    hide InStage, Settle, Agreement;
  }

  lemma StayedFacts(t: Terms, s: State, g: Stage, r: State)
    requires Stayed(t, s, g, r)
    ensures InStage(t, r, Now(g, r)) && Ready(r) && r.cfg == s.cfg && r.phase == s.phase
    ensures Sent(s.out, r.out, OfferIf(g, r))
  {
    hide InStage, Ready, Sent;
  }

  /** The server in stage Offered has the client's offer too. */
  lemma ServerAgrees(c: Suite, t: Terms, a: State, b: State, ga: Stage, ds: nat)
    requires ValidTerms(t) && Lock(c, t, a, b, ga, Offered, ds) && Ready(b)
    requires ga.Offered? || ga.Asked?
    requires !b.phase.NeedPeerVersion? && Agreement(t).Ok?
    ensures Agree(b, a.kex.localKexinit).Ok?
    ensures ServerTurn(c, t, a, b, ga, Offered, ds, OfferMsg(a), Agree(b, a.kex.localKexinit).value, Agreed, ds, [])
  {
    hide InStage, Ready, ValidTerms, Sent, Agree, Agreement, Settle, Offer, AskMsg, Bargained, PacketsIn;
    AskedHasKey(t, a, ga);
    AskedHasKey(t, b, Offered);
    assert a.cfg == PeerOf(t, b.cfg.role);
    AgreeMoves(t, b, a.kex.localKexinit);
    var r := Agree(b, a.kex.localKexinit).value;
    SentNothing(b.out, b.out);
    assert ToClient(c, t, a, r, ga, Agreed, ds) == ToClient(c, t, a, b, ga, Offered, ds) + [];
  }

  lemma ServerReadsKexinit(c: Suite, t: Terms, a: State, b: State, ga: Stage, gb: Stage, ds: nat) returns (gr: Stage, sent: seq<Msg>)
    requires ValidTerms(t) && Lock(c, t, a, b, ga, gb, ds) && Ready(b)
    requires (ga.Offered? || ga.Asked?) && (gb.Idle? || gb.Offered?)
    requires !b.phase.NeedPeerVersion?
    ensures var r := OnPeerKexinit(c, b, a.kex.localKexinit);
            if r.Err? then Agreement(t).Err?
            else Refused(t, b, gb, r.value) || ServerTurn(c, t, a, b, ga, gb, ds, OfferMsg(a), r.value, gr, ds, sent)
  {
    hide InStage, Ready, ValidTerms, Sent, Agree, SendEcdhInit, Agreement, Settle, ServerTurn, Stayed, AnswerRekey,
         ToServer, ToClient, Lock, Offer;
    gr, sent := gb, [];
    LockStages(c, t, a, b, ga, gb, ds);
    if RekeyRefused(b) {
      RefusedStayed(c, t, b, gb);
    } else {
      AnswerStayed(c, t, b, gb);
      var u := AnswerRekey(c, b);
      StayedFacts(t, b, gb, u);
      ServerStayed(c, t, a, b, ga, gb, ds, u);
      AskedHasKey(t, a, ga);
      if Agreement(t).Err? {
        AgreeResult(t, u, a.kex.localKexinit);
      } else {
        ServerAgrees(c, t, a, u, ga, ds);
        var r := Agree(u, a.kex.localKexinit).value;
        gr, sent := Agreed, OfferIf(gb, u) + [];
        ServerTurnAfter(c, t, a, b, ga, gb, ds, OfferMsg(a), u, r, Agreed, ds, []);
        AgreeKeepsConfig(u, a.kex.localKexinit);
      }
    }
  }

  /** Replying moves the pair on. */
  lemma AnsweredTurn(c: Suite, t: Terms, a: State, b: State, ds: nat, r: State, d: Deal, ds': nat)
    requires Lock(c, t, a, b, Asked, Agreed, ds) && a.kex.ephemeral.Some? && Agreement(t).Ok?
    requires DealOf(c, t, a, b, ds') == Ok(d)
    requires InStage(t, r, Keyed) && Ready(r) && SameEnd(b, r) && r.inn == b.inn
    requires Sent(b.out, r.out, [Msg(EcdhReply(ds'), d.reply), KeysMsg(d.s2c)])
    requires r.kex.sessionId == Some(d.session) && r.kex.pending == Some(Pending(Plain, d.c2s)) && r.rounds == b.rounds + [d.input]
    requires r.kex.localKexinit == b.kex.localKexinit
    ensures ServerTurn(c, t, a, b, Asked, Agreed, ds, AskMsg(c, a), r, Keyed, ds', [Msg(EcdhReply(ds'), d.reply), KeysMsg(d.s2c)])
  {
    hide InStage, Ready, Sent, Settle, Wire.StringField, Agreement, PacketsIn, KeysMsg;
    var sent := [Msg(EcdhReply(ds'), d.reply), KeysMsg(d.s2c)];
    assert DealOf(c, t, a, r, ds') == DealOf(c, t, a, b, ds');
    assert ToClient(c, t, a, r, Asked, Keyed, ds') == ToClient(c, t, a, b, Asked, Agreed, ds) + sent;
    assert ToServer(c, a, b, Asked, Agreed) == [AskMsg(c, a)] + ToServer(c, a, r, Asked, Keyed);
  }

  lemma AskReads(c: Suite, a: State)
    requires Honest(c) && a.kex.ephemeral.Some?
    ensures var e := a.kex.ephemeral.value;
            var r := Wire.ReadString(AskMsg(c, a).payload, 1);
            r.Ok? && r.value.value == c.init(e.kind, e.draw)
  {
    hide Wire.StringField, Wire.ReadString;
    var e := a.kex.ephemeral.value;
    Wire.ReadStringBack(c.init(e.kind, e.draw), [MSG_ECDH_INIT], []);
    assert AskMsg(c, a).payload == [MSG_ECDH_INIT] + Wire.StringField(c.init(e.kind, e.draw)) + [];
  }

  /** What a bargained state uses: the agreed method and both offers. */
  lemma AskKind(t: Terms, s: State)
    requires InStage(t, s, Asked)
    ensures s.kex.ephemeral.Some? && Agreement(t).Ok? && s.kex.ephemeral.value.kind == KindOf(Agreement(t).value.kex)
  {
    hide Agreement, Offer;
  }

  lemma NoGuess(t: Terms, s: State, g: Stage)
    requires InStage(t, s, g)
    ensures !s.kex.skipGuess
  {
    hide Agreement, Offer;
  }

  lemma ServerReadsAsk(c: Suite, t: Terms, a: State, b: State, ds: nat) returns (sent: seq<Msg>)
    requires Honest(c) && ValidTerms(t) && Lock(c, t, a, b, Asked, Agreed, ds) && Ready(b)
    requires a.kex.ephemeral.Some?
    ensures var r := OnEcdhInit(c, b, AskMsg(c, a).payload);
            if r.Err? then Agreement(t).Ok? && KeyLengths(Agreement(t).value.cipherC2s).Err?
            else ServerTurn(c, t, a, b, Asked, Agreed, ds, AskMsg(c, a), r.value, Keyed, b.out.drawn, sent)
  {
    hide InStage, Ready, Honest, ValidTerms, Sent, Agreement, Settle, ServerTurn, Respond, Answered, KeyLengths, Wire.ReadString,
         AskMsg, Fits, ToServer, ToClient, Lock;
    sent := [];
    LockStages(c, t, a, b, Asked, Agreed, ds);
    LockAsked(c, t, a, b, Agreed, ds);
    AskReads(c, a);
    AskKind(t, a);
    NoGuess(t, b, Agreed);
    AskedHasKey(t, b, Agreed);
    var e := a.kex.ephemeral.value;
    var n := Agreement(t).value;
    var ds' := b.out.drawn;
    RespondIs(c, t, b, e.draw);
    var d := Settle(c, n, e.draw, ds', a.kex.localKexinit, b.kex.localKexinit, b.kex.sessionId);
    if d.Ok? {
      var r := Answered(c, n, b, d.value, ds');
      SettleFits(c, n, e.draw, ds', a.kex.localKexinit, b.kex.localKexinit, b.kex.sessionId, b.out.epoch);
      AnsweredMoves(c, t, b, d.value);
      AnsweredFields(c, n, b, d.value, ds');
      AnsweredTurn(c, t, a, b, ds, r, d.value, ds');
      sent := [Msg(EcdhReply(ds'), d.value.reply), KeysMsg(d.value.s2c)];
    } else {
      SettleFails(c, t, e.draw, ds', a.kex.localKexinit, b.kex.localKexinit, b.kex.sessionId);
    }
  }

  lemma AnsweredFields(c: Suite, n: Algo.Negotiated, s: State, d: Deal, ds: nat)
    ensures var r := Answered(c, n, s, d, ds);
            && SameEnd(s, r) && r.inn == s.inn
            && r.kex.sessionId == Some(d.session) && r.kex.pending == Some(Pending(Plain, d.c2s)) && r.rounds == s.rounds + [d.input]
            && r.kex.localKexinit == s.kex.localKexinit
  {
    hide Write, PacketsIn;
  }

  lemma LockAsked(c: Suite, t: Terms, a: State, b: State, gb: Stage, ds: nat)
    requires Lock(c, t, a, b, Asked, gb, ds)
    ensures a.kex.peerKexinit.Some? && a.kex.peerKexinit.value.payload == b.kex.localKexinit
    ensures gb.Agreed? ==> b.kex.peerKexinit.Some? && b.kex.peerKexinit.value.payload == a.kex.localKexinit
                           && a.kex.sessionId == b.kex.sessionId
    ensures gb.Keyed? ==> Replied(c, t, a, b, ds)
  {
    hide Settle, Agreement, Offer, Flags;
  }

  /** A round can only fail on a cipher without known key lengths. */
  lemma SettleFails(c: Suite, t: Terms, dc: nat, ds: nat, ci: seq<byte>, si: seq<byte>, earlier: Option<seq<byte>>)
    requires Honest(c) && ValidTerms(t) && Agreement(t).Ok?
    requires Settle(c, Agreement(t).value, dc, ds, ci, si, earlier).Err?
    ensures KeyLengths(Agreement(t).value.cipherC2s).Err?
  {
    hide Agreement, ExchangeHash, ReplyPayload, KeyLengths, MakeCipher, DeriveKey, Usable;
    OneCipher(t);
    assert Completes(c, KindOf(Agreement(t).value.kex), dc, ds);
  }

  /** Concluding moves the pair on: both are keyed, each with the other's keys. */
  lemma ConcludedTurn(c: Suite, t: Terms, a: State, b: State, ds: nat, r: State, d: Deal)
    requires Lock(c, t, a, b, Asked, Keyed, ds) && Replied(c, t, a, b, ds) && DealOf(c, t, a, b, ds) == Ok(d)
    requires InStage(t, r, Keyed) && Ready(r) && SameEnd(a, r) && r.inn == a.inn
    requires Sent(a.out, r.out, [KeysMsg(d.c2s)])
    requires r.kex.sessionId == Some(d.session) && r.kex.pending == Some(Pending(Plain, d.s2c)) && r.rounds == a.rounds + [d.input]
    ensures ClientTurn(c, t, a, b, Asked, Keyed, ds, Msg(EcdhReply(ds), d.reply), r, Keyed, [KeysMsg(d.c2s)])
  {
    hide InStage, Ready, Sent, Settle, Agreement, PacketsIn, KeysMsg;
    var m := Msg(EcdhReply(ds), d.reply);
    assert ToServer(c, r, b, Keyed, Keyed) == ToServer(c, a, b, Asked, Keyed) + [KeysMsg(d.c2s)];
    assert ToClient(c, t, a, b, Asked, Keyed, ds) == [m] + ToClient(c, t, r, b, Keyed, Keyed, ds);
  }

  lemma ClientReadsReply(c: Suite, t: Terms, a: State, b: State, ds: nat) returns (sent: seq<Msg>)
    requires Honest(c) && ValidTerms(t) && Lock(c, t, a, b, Asked, Keyed, ds) && Replied(c, t, a, b, ds) && Ready(a)
    ensures var d := DealOf(c, t, a, b, ds).value;
            var r := OnEcdhReply(c, a, d.reply);
            r.Ok? && ClientTurn(c, t, a, b, Asked, Keyed, ds, Msg(EcdhReply(ds), d.reply), r.value, Keyed, sent)
  {
    hide InStage, Ready, Honest, ValidTerms, Sent, Agreement, Settle, ClientTurn, Concluded, Lock, OnEcdhReply, ToServer, ToClient;
    var d := DealOf(c, t, a, b, ds).value;
    LockStages(c, t, a, b, Asked, Keyed, ds);
    LockAsked(c, t, a, b, Keyed, ds);
    AskKind(t, a);
    ConcludeIs(c, t, a, ds);
    ConcludedMoves(c, t, a, d);
    var r := Concluded(c, Agreement(t).value, a, d);
    ConcludedFields(c, Agreement(t).value, a, d);
    sent := [KeysMsg(d.c2s)];
    ConcludedTurn(c, t, a, b, ds, r, d);
  }

  lemma ConcludedFields(c: Suite, n: Algo.Negotiated, s: State, d: Deal)
    ensures var r := Concluded(c, n, s, d);
            && SameEnd(s, r) && r.inn == s.inn
            && r.kex.sessionId == Some(d.session) && r.kex.pending == Some(Pending(Plain, d.s2c)) && r.rounds == s.rounds + [d.input]
  {
    hide Write, PacketsIn;
    PacketsInSnoc(s.events, ServerHostKey(c.hostBlob));
    assert PacketsIn(s.events) + [] == PacketsIn(s.events);
  }

  lemma ClientReadsNewkeys(c: Suite, t: Terms, a: State, b: State, gb: Stage, ds: nat)
    requires Lock(c, t, a, b, Keyed, gb, ds) && Ready(a)
    ensures a.kex.pending.Some? && OnNewkeys(a).Ok?
    ensures ClientTurn(c, t, a, b, Keyed, gb, ds, KeysMsg(a.kex.pending.value.inn), OnNewkeys(a).value, Idle, [])
  {
    hide InStage, Ready, Sent, Settle, Agreement, PacketsIn, OnNewkeys;
    KeyedHasKeys(t, a);
    NewkeysMoves(t, a);
    NotStarting(t, a);
    var r := OnNewkeys(a).value;
    assert ToServer(c, r, b, Idle, gb) == ToServer(c, a, b, Keyed, gb) + [];
    assert ToClient(c, t, a, b, Keyed, gb, ds) == [KeysMsg(a.kex.pending.value.inn)] + ToClient(c, t, r, b, Idle, gb, ds);
  }

  lemma NotStarting(t: Terms, s: State)
    requires InStage(t, s, Keyed)
    ensures !s.phase.NeedPeerVersion?
  {
    hide Agreement, Offer;
  }

  lemma ServerReadsNewkeys(c: Suite, t: Terms, a: State, b: State, ga: Stage, ds: nat)
    requires Lock(c, t, a, b, ga, Keyed, ds) && Ready(b) && !ga.Asked?
    ensures b.kex.pending.Some? && OnNewkeys(b).Ok?
    ensures ServerTurn(c, t, a, b, ga, Keyed, ds, KeysMsg(b.kex.pending.value.inn), OnNewkeys(b).value, Idle, ds, [])
  {
    hide InStage, Ready, Sent, Settle, Agreement, PacketsIn, OnNewkeys;
    KeyedHasKeys(t, b);
    NewkeysMoves(t, b);
    NotStarting(t, b);
    var r := OnNewkeys(b).value;
    assert ToClient(c, t, a, r, ga, Idle, ds) == ToClient(c, t, a, b, ga, Keyed, ds) + [];
    assert ToServer(c, a, b, ga, Keyed) == [KeysMsg(b.kex.pending.value.inn)] + ToServer(c, a, r, ga, Idle);
  }
}
