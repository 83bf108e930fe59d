/** Every run of two honest endpoints: packets are opened exactly as they were sealed,
    delivered packets are an in-order prefix of the accepted ones, both ends agree on the
    outcome of every round, and neither gives up without an excuse. */
module PairRuns {
  import opened Bytes
  import opened Framing
  import opened Kdf
  import opened Transport
  import opened Runs
  import opened Stream
  import opened Lockstep
  import opened Rounds
  import opened Joint
  import opened Delivery
  import opened Paired
  import opened TwoParty
  import Safety
  import Sessions
  import Version
  import Wire

  // --- local calls -----------------------------------------------------------------------

  lemma DrawStayed(t: Terms, s: State, g: Stage, drawn: nat)
    requires InStage(t, s, g) && Ready(s)
    ensures Stayed(t, s, g, s.(out := s.out.(drawn := drawn)))
  {
    hide InStage, PacketsIn;
    var r := s.(out := s.out.(drawn := drawn));
    StageSame(t, s, r, g);
    SentNothing(s.out, r.out);
    NowSelf(t, s, g);
    NowSame(g, s, r);
  }

  lemma LimitsStayed(t: Terms, s: State, g: Stage, r: State)
    requires InStage(t, s, g) && Ready(s) && r == s.(limits := r.limits)
    ensures Stayed(t, s, g, r)
  {
    hide InStage, PacketsIn;
    StageSame(t, s, r, g);
    SentNothing(s.out, r.out);
    NowSelf(t, s, g);
    NowSame(g, s, r);
  }

  lemma ChaffStayed(c: Suite, t: Terms, s: State, g: Stage, data: seq<byte>)
    requires ValidTerms(t) && InStage(t, s, g) && Ready(s) && |data| <= 0x8_0000 && s.phase.Established?
    ensures SendChaff(c, s, data).Ok? ==> Stayed(t, s, g, SendChaff(c, s, data).value)
  {
    hide InStage, Ready, ValidTerms, SendPacket, Stayed;
    var u := s.(out := s.out.(drawn := s.out.drawn + 1));
    DrawStayed(t, s, g, s.out.drawn + 1);
    StayedFacts(t, s, g, u);
    NowSelf(t, s, g);
    NowSame(g, s, u);
    ChaffAppLike(data);
    SendStayed(c, t, u, g, IgnorePayload(data));
    if SendChaff(c, s, data).Ok? {
      StayedThen(t, s, g, u, SendChaff(c, s, data).value);
    }
  }

  lemma ChaffAppLike(data: seq<byte>)
    requires |data| <= 0x8_0000
    ensures AppLike(IgnorePayload(data))
  {
    hide Wire.StringField;
    StringLength(data);
  }

  lemma ActStayed(c: Suite, t: Terms, e: Endpoint, g: Stage, a: Action)
    requires ValidTerms(t) && InStage(t, e.state, g) && Ready(e.state) && Proper(a) && !e.failed
    ensures var r := Act(c, e, a);
            Stayed(t, e.state, g, r.state) && r.rx == e.rx && r.failed == e.failed
  {
    hide InStage, Ready, ValidTerms, SendPacket, SendChaff, InitiateRekey, Disconnect, AppLike, Stayed;
    var s := e.state;
    StayedSelf(t, s, g);
    match a
    case Send(payload) => SendStayed(c, t, s, g, payload);
    case Chaff(data) =>
      if s.phase.Established? {
        ChaffStayed(c, t, s, g, data);
      }
    case Rekey => InitiateStayed(c, t, s, g);
    case Hangup(reason, text) => HangupStayed(t, s, g, reason, text);
    case SetRekeyLimits(b, p) => LimitsStayed(t, s, g, s.(limits := s.limits.(bytes := b, packets := p)));
    case SetMaxPeerRekeys(n) => LimitsStayed(t, s, g, s.(limits := s.limits.(maxPeerRekeys := n)));
  }

  lemma CoreStage(c: Suite, t: Terms, p: Pair, w: Where, role: Role)
    requires Core(c, t, p, w)
    ensures InStage(t, p.Get(role), StageOf(w, role)) && Ready(p.Get(role))
  {
    hide InStage, Ready, Wired, Taken, Settle, Agreement;
  }

  lemma CallInStep(c: Suite, t: Terms, y: System, w: Where, role: Role, a: Action) returns (w': Where)
    requires ValidTerms(t) && InStep(c, t, y, w) && Proper(a)
    ensures InStep(c, t, StepOf(c, y, Call(role, a)), w')
  {
    hide InStep, ValidTerms, Act, Core, InStage, Ready, Stayed, Reading, Inbound, Sent, OfferIf;
    w' := w;
    var me := y.At(role);
    var e := Act(c, me.end, a);
    if me.end.failed {
      assert e == me.end by { FailedActs(c, me.end, a); }
      assert StepOf(c, y, Call(role, a)) == y;
    } else {
      BothReading(c, t, y, w, role);
      CoreStage(c, t, y.States(), w, role);
      ActStayed(c, t, me.end, StageOf(w, role), a);
      w' := Restaged(w, role, e.state);
      CallWent(c, t, y.States(), w, role, e.state);
      PeerReading(c, t, y, w, role, me.(end := e), w', OfferIf(StageOf(w, role), e.state));
      CallReading(c, t, y, w, role, e, w');
    }
  }

  lemma FailedActs(c: Suite, e: Endpoint, a: Action)
    requires e.failed
    ensures Act(c, e, a) == e
  {
  }

  lemma CallReading(c: Suite, t: Terms, y: System, w: Where, role: Role, e: Endpoint, w': Where)
    requires Reading(c, t, y, w, role) && Stayed(t, y.At(role).end.state, StageOf(w, role), e.state)
    requires e.rx == y.At(role).end.rx && !e.failed && !y.At(role).end.failed
    requires w' == Restaged(w, role, e.state)
    requires Core(c, t, y.States().Set(role, e.state), w')
    requires Reading(c, t, y.With(role, y.At(role).(end := e)), w', Other(role))
    requires Inbound(c, t, y.States().Set(role, e.state), w', role) == Inbound(c, t, y.States(), w, role)
    ensures InStep(c, t, y.With(role, y.At(role).(end := e)), w')
  {
    hide Core, Flight, Output, Excused, Inbound, InStage, Ready, Sent, PacketsIn;
    var y' := y.With(role, y.At(role).(end := e));
    assert y'.States() == y.States().Set(role, e.state);
    assert Cursor(w', role) == Cursor(w, role);
    StayedFacts(t, y.At(role).end.state, StageOf(w, role), e.state);
    EpochGrows(y.At(role).end.state.out, e.state.out, OfferIf(StageOf(w, role), e.state));
    BothInStep(c, t, y', w', role);
  }

  // --- the start ---------------------------------------------------------------------------

  lemma InitialStage(c: Suite, t: Terms, cfg: Config)
    requires ValidTerms(t) && cfg == ConfigOf(t, cfg.role)
    ensures var s := Start(c, cfg);
            && InStage(t, s, Offered) && Ready(s) && Wired(s.out)
            && Kexes(s.out.log) <= [OfferMsg(s)] && (!s.out.closing ==> Kexes(s.out.log) == [OfferMsg(s)])
            && s.cfg == cfg && s.kex.sessionId.None? && s.rounds == [] && s.phase.NeedPeerVersion?
            && s.inn == In(Plain, 0, 0, 0) && s.events == []
  {
    hide Sent, Write, KexinitPayload, Usable, Offer, Agreement, Version.LocalId, Ascii;
    var o := Initial(cfg).out;
    SentOffer(c, cfg, o);
    OfferMade(c, cfg, o.drawn);
    var s := Start(c, cfg);
    var none: seq<Msg> := [];
    SentFacts(o, s.out, [OfferMsg(s)]);
    assert none + [OfferMsg(s)] == [OfferMsg(s)];
  }

  lemma SentFacts(o: Out, p: Out, sent: seq<Msg>)
    requires Sent(o, p, sent)
    ensures Wired(o) ==> Wired(p)
    ensures Kexes(p.log) <= Kexes(o.log) + sent && (!p.closing ==> Kexes(p.log) == Kexes(o.log) + sent)
  {
    hide Wired, Kexes;
  }

  lemma BeginInStep(c: Suite, t: Terms)
    requires ValidTerms(t)
    ensures InStep(c, t, Begin(c, t), Where(Offered, Offered, 0, 0, 0))
  {
    hide InStage, Ready, Wired, ValidTerms, Start, Output, Agreement, Settle, Excused, Surfacing;
    var y := Begin(c, t);
    assert ConfigOf(t, Client) == t.client && ConfigOf(t, Server) == t.server;
    assert t.client.role.Client? && t.server.role.Server? by { TermsRoles(t); }
    InitialStage(c, t, t.client);
    InitialStage(c, t, t.server);
    var a, b := y.client.end.state, y.server.end.state;
    StartTaken(b.out.log, a);
    StartTaken(a.out.log, b);
    StartFlight(a.out, [OfferMsg(a)]);
    StartFlight(b.out, [OfferMsg(b)]);
  }

  lemma TermsRoles(t: Terms)
    requires ValidTerms(t)
    ensures t.client.role.Client? && t.server.role.Server?
  {
    hide Usable;
  }

  lemma StartTaken(log: seq<Frame>, s: State)
    requires s.inn == In(Plain, 0, 0, 0) && s.events == []
    ensures Taken(log, s, 0)
  {
    var none: seq<Frame> := [];
    assert log[..0] == none;
    assert Safety.Apps(none) == [];
  }

  lemma StartFlight(o: Out, msgs: seq<Msg>)
    requires Kexes(o.log) <= msgs && (!o.closing ==> Kexes(o.log) == msgs)
    ensures Flight(o, 0, msgs)
  {
    var none: seq<Frame> := [];
    assert o.log[..0] == none;
    var nothing: seq<Msg> := [];
    assert nothing + msgs == msgs;
  }

  // --- runs --------------------------------------------------------------------------------

  predicate AllProper(moves: seq<Move>) {
    forall i :: 0 <= i < |moves| ==> ProperMove(moves[i])
  }

  lemma CallWaits(c: Suite, t: Terms, y: System, w: Where, role: Role, a: Action)
    requires ValidTerms(t) && InStep(c, t, y, w) && Proper(a) && Waiting(c, y.At(role).end)
    ensures Waiting(c, Act(c, y.At(role).end, a))
  {
    hide InStep, ValidTerms, Act, Core, InStage, Ready, Reading, Sent, OfferIf, DriveOnce, Proper, PacketsIn;
    var e := y.At(role).end;
    if e.failed {
      FailedActs(c, e, a);
    } else {
      BothReading(c, t, y, w, role);
      CoreStage(c, t, y.States(), w, role);
      ActStayed(c, t, e, StageOf(w, role), a);
      StayedFacts(t, e.state, StageOf(w, role), Act(c, e, a).state);
      SentFacts(e.state.out, Act(c, e, a).state.out, OfferIf(StageOf(w, role), Act(c, e, a).state));
      EpochGrows(e.state.out, Act(c, e, a).state.out, OfferIf(StageOf(w, role), Act(c, e, a).state));
      SameWaits(c, e.state, Act(c, e, a).state, e.rx);
    }
  }

  ghost predicate BothWait(c: Suite, y: System) { Waiting(c, y.client.end) && Waiting(c, y.server.end) }

  lemma StepWaits(c: Suite, t: Terms, y: System, w: Where, m: Move)
    requires ValidTerms(t) && InStep(c, t, y, w) && ProperMove(m) && BothWait(c, y)
    ensures BothWait(c, StepOf(c, y, m))
  {
    hide InStep, ValidTerms, Act, Waiting, Left, OutputOf, Proper;
    match m
    case Call(role, a) => CallWaits(c, t, y, w, role, a);
    case Deliver(role, n) =>
      var k := Upto(n, Left(c, y, role));
      if k > 0 {
        LeftWithin(c, y, role, k);
        InputWaits(c, y.At(role).end, OutputOf(c, y, Other(role))[y.At(role).got..y.At(role).got + k]);
      }
  }

  lemma {:induction false} RunInStep(c: Suite, t: Terms, y: System, w: Where, moves: seq<Move>) returns (w': Where)
    requires Honest(c) && ValidTerms(t) && InStep(c, t, y, w) && AllProper(moves) && BothWait(c, y)
    ensures InStep(c, t, RunOf(c, y, moves), w') && BothWait(c, RunOf(c, y, moves))
    decreases |moves|
  {
    hide InStep, Honest, ValidTerms, StepOf, BothWait;
    w' := w;
    if moves != [] {
      var m := moves[0];
      assert ProperMove(m);
      StepWaits(c, t, y, w, m);
      match m {
        case Call(role, a) => w' := CallInStep(c, t, y, w, role, a);
        case Deliver(role, n) => w' := DeliverInStep(c, t, y, w, role, n);
      }
      w' := RunInStep(c, t, StepOf(c, y, m), w', moves[1..]);
    }
  }

  lemma {:induction false} RunSafe(c: Suite, y: System, moves: seq<Move>)
    requires forall role :: Safety.Safe(y.At(role).end.state, y.At(role).end.accepted)
    ensures forall role :: Safety.Safe(RunOf(c, y, moves).At(role).end.state, RunOf(c, y, moves).At(role).end.accepted)
    decreases |moves|
  {
    hide Safety.Safe, Act, Left, OutputOf;
    if moves != [] {
      var m := moves[0];
      var y1 := StepOf(c, y, m);
      forall role ensures Safety.Safe(y1.At(role).end.state, y1.At(role).end.accepted) {
        assert Safety.Safe(y.At(role).end.state, y.At(role).end.accepted);
        StepSafe(c, y, m, role);
      }
      RunSafe(c, y1, moves[1..]);
    }
  }

  lemma StepSafe(c: Suite, y: System, m: Move, role: Role)
    requires Safety.Safe(y.At(role).end.state, y.At(role).end.accepted)
    ensures Safety.Safe(StepOf(c, y, m).At(role).end.state, StepOf(c, y, m).At(role).end.accepted)
  {
    hide Safety.Safe, Act, Left, OutputOf;
    if m.role == role {
      match m
      case Call(_, a) => Safety.ActSafe(c, y.At(role).end, a);
      case Deliver(_, n) =>
        var k := Upto(n, Left(c, y, role));
        if k > 0 {
          var me := y.At(role);
          LeftWithin(c, y, role, k);
          var data := OutputOf(c, y, Other(role))[me.got..me.got + k];
          Safety.ActSafe(c, me.end, Input(data));
        }
    }
  }

  lemma LeftWithin(c: Suite, y: System, role: Role, k: nat)
    requires 0 < k <= Left(c, y, role)
    ensures y.At(role).got + k <= |OutputOf(c, y, Other(role))|
  {
    hide OutputOf;
  }

  function After(c: Suite, t: Terms, moves: seq<Move>): System {
    RunOf(c, Begin(c, t), moves)
  }

  lemma BeginWaits(c: Suite, t: Terms)
    ensures BothWait(c, Begin(c, t))
  {
    hide Start, DriveOnce;
    NothingToRead(c, Start(c, t.client));
    NothingToRead(c, Start(c, t.server));
  }

  lemma Reached(c: Suite, t: Terms, moves: seq<Move>) returns (w: Where)
    requires Honest(c) && ValidTerms(t) && AllProper(moves)
    ensures InStep(c, t, After(c, t, moves), w) && BothWait(c, After(c, t, moves))
  {
    hide InStep, Honest, ValidTerms, RunOf, Begin, BothWait;
    BeginInStep(c, t);
    BeginWaits(c, t);
    w := RunInStep(c, t, Begin(c, t), Where(Offered, Offered, 0, 0, 0), moves);
  }

  // --- the results ---------------------------------------------------------------------------

  /** Through any number of re-keys, started by either side or both at once: an endpoint has
      taken the first `k` packets of its peer, for a live one exactly those delivered to it
      whole, and holds the delivered bytes after them. It stands at exactly the cipher state
      and sequence number the next packet was, or will be, sealed with, in the epoch of that
      packet, and has handed up exactly the application payloads among the `k`. */
  lemma OpenedAsSealed(c: Suite, t: Terms, moves: seq<Move>, role: Role) returns (k: nat)
    requires Honest(c) && ValidTerms(t) && AllProper(moves)
    ensures var y := After(c, t, moves);
            var me, o := y.At(role), y.At(Other(role)).end.state.out;
            var s := me.end.state;
            && k <= |o.log| && me.got <= |Output(c, Other(role), o.log)|
            && PacketsIn(s.events) == Surfacing(Safety.Apps(o.log[..k]))
            && (k < |o.log| ==> s.inn.cipher == o.log[k].cipher && s.inn.seqNr == o.log[k].seqNr
                                && o.log[k].epoch == Epochs(o.log[..k]))
            && (k == |o.log| && !o.closing ==> s.inn.cipher == o.cipher && s.inn.seqNr == o.seqNr
                                               && o.epoch == Epochs(o.log))
            && (Live(me.end) ==>
                  var used, n := Used(c, Other(role), o.log, s, k), CountAfter(s, k);
                  && used <= me.got && me.end.rx == Output(c, Other(role), o.log)[used..me.got]
                  && (n <= |o.log| ==> me.got < |Output(c, Other(role), o.log[..n])|)
                  && (me.got == |Output(c, Other(role), o.log)| ==> k == |o.log|))
  {
    hide Honest, ValidTerms, After, Lock, Ready, Reading, Threaded, CipherAfter, SeqAfter, Epochs, Safety.Apps, Surfacing, PacketsIn, Fits,
         Output, DriveOnce;
    var w := Reached(c, t, moves);
    var y := After(c, t, moves);
    CoreTaken(c, t, y.States(), w, role);
    k := Cursor(w, role);
    var o := y.At(Other(role)).end.state.out;
    if k < |o.log| {
      ThreadedAt(o.log, k);
    } else {
      assert o.log[..k] == o.log;
    }
    GotWithin(c, t, y, w, role);
    if Live(y.At(role).end) {
      WholeTaken(c, t, y, w, role);
    }
  }

  lemma GotWithin(c: Suite, t: Terms, y: System, w: Where, role: Role)
    requires InStep(c, t, y, w)
    ensures y.At(role).got <= |Output(c, Other(role), y.At(Other(role)).end.state.out.log)|
  {
    hide Core, Output, Flight, Inbound, Excused;
    BothReading(c, t, y, w, role);
  }

  lemma {:induction false} AppsPrefix(log: seq<Frame>, k: nat)
    requires k <= |log|
    ensures Safety.Apps(log[..k]) <= Safety.Apps(log)
  {
    if k == |log| {
      assert log[..k] == log;
    } else {
      AppsPrefix(log[..|log| - 1], k);
      assert log[..|log| - 1][..k] == log[..k];
    }
  }

  lemma {:induction false} SurfacingPrefix(a: seq<seq<byte>>, b: seq<seq<byte>>)
    requires a <= b
    ensures Surfacing(a) <= Surfacing(b)
  {
    if |a| == |b| {
      assert a == b;
    } else {
      SurfacingPrefix(a, b[..|b| - 1]);
    }
  }

  /** What an endpoint hands up is always an in-order, duplicate-free prefix of what its peer
      accepted for sending, chaff aside; and all of it once a live endpoint has been given
      every byte the peer wrote and the peer is not closing and has nothing waiting. */
  lemma DeliveredInOrder(c: Suite, t: Terms, moves: seq<Move>, role: Role)
    requires Honest(c) && ValidTerms(t) && AllProper(moves)
    ensures var y := After(c, t, moves);
            var me, p := y.At(role), y.At(Other(role)).end;
            && PacketsIn(me.end.state.events) <= Surfacing(p.accepted)
            && (Live(me.end) && me.got == |OutputOf(c, y, Other(role))| && !p.state.out.closing && p.state.queue == [] ==>
                  PacketsIn(me.end.state.events) == Surfacing(p.accepted))
  {
    hide Honest, ValidTerms, Safety.Apps, Surfacing, PacketsIn, RunOf, Begin, Safety.NonceInv, Safety.QuietInv, Epochs, Output;
    var k := OpenedAsSealed(c, t, moves, role);
    var y := After(c, t, moves);
    AllSafe(c, t, moves);
    var p := y.At(Other(role)).end;
    assert Safety.Safe(p.state, p.accepted);
    AppsPrefix(p.state.out.log, k);
    SurfacingPrefix(Safety.Apps(p.state.out.log[..k]), p.accepted);
    assert p.state.out.log[..|p.state.out.log|] == p.state.out.log;
    assert Safety.Apps(p.state.out.log) + [] == Safety.Apps(p.state.out.log);
  }

  lemma AllSafe(c: Suite, t: Terms, moves: seq<Move>)
    ensures forall role :: Safety.Safe(After(c, t, moves).At(role).end.state, After(c, t, moves).At(role).end.accepted)
  {
    hide Safety.Safe, Begin, RunOf;
    BeginSafe(c, t);
    RunSafe(c, Begin(c, t), moves);
  }

  /** With nothing on the way, no message of a round is missing at either end: both are
      between rounds. */
  lemma NothingInbound(c: Suite, t: Terms, y: System, w: Where, role: Role)
    requires Honest(c) && ValidTerms(t) && InStep(c, t, y, w) && Live(y.At(role).end) && Waiting(c, y.At(role).end)
    requires y.At(role).got == |OutputOf(c, y, Other(role))| && Live(y.At(Other(role)).end)
    ensures Inbound(c, t, y.States(), w, role) == []
  {
    hide Core, Excused, Output, DriveOnce, Honest, ValidTerms, Inbound, Kexes;
    BothReading(c, t, y, w, role);
    WholeTaken(c, t, y, w, role);
    var o := y.States().Get(Other(role)).out;
    assert o.log[..|o.log|] == o.log;
  }

  lemma BothIdle(c: Suite, t: Terms, p: Pair, w: Where)
    requires Core(c, t, p, w) && Inbound(c, t, p, w, Client) == [] && Inbound(c, t, p, w, Server) == []
    ensures w.ga.Idle? && w.gb.Idle?
  {
    hide Ready, Wired, Taken, Settle, Agreement, Offer, Compressed, Bargained;
  }

  /** Settled: once two live endpoints have been given every byte the other wrote, no round
      is open at either end. Both are up and agree on the session, their directions match,
      both queues are empty, and everything accepted has been handed up. */
  lemma Settles(c: Suite, t: Terms, moves: seq<Move>)
    requires Honest(c) && ValidTerms(t) && AllProper(moves)
    requires var y := After(c, t, moves);
             forall role :: Live(y.At(role).end) && y.At(role).got == |OutputOf(c, y, Other(role))|
    ensures var y := After(c, t, moves);
            forall role ::
              var s, p := y.At(role).end.state, y.At(Other(role)).end;
              && s.phase.Established? && !s.kex.rekeying && s.queue == []
              && s.kex.sessionId.Some? && s.kex.sessionId == p.state.kex.sessionId && s.rounds == p.state.rounds
              && s.inn.cipher == p.state.out.cipher && s.inn.seqNr == p.state.out.seqNr
              && PacketsIn(s.events) == Surfacing(p.accepted)
  {
    hide Honest, ValidTerms, After, InStep, Output, Safety.Safe, Lock, Core, DriveOnce, OutputOf;
    var w := Reached(c, t, moves);
    var y := After(c, t, moves);
    assert Live(y.At(Client).end) && Live(y.At(Server).end);
    NothingInbound(c, t, y, w, Client);
    NothingInbound(c, t, y, w, Server);
    assert Core(c, t, y.States(), w) by { BothReading(c, t, y, w, Client); }
    BothIdle(c, t, y.States(), w);
    AllSafe(c, t, moves);
    forall role
      ensures var s, p := y.At(role).end.state, y.At(Other(role)).end;
              && s.phase.Established? && !s.kex.rekeying && s.queue == []
              && s.kex.sessionId.Some? && s.kex.sessionId == p.state.kex.sessionId && s.rounds == p.state.rounds
              && s.inn.cipher == p.state.out.cipher && s.inn.seqNr == p.state.out.seqNr
              && PacketsIn(s.events) == Surfacing(p.accepted)
    {
      IdleMeans(c, t, y.States(), w, role);
      IdleMeans(c, t, y.States(), w, Other(role));
      QueueEmpty(y.At(role).end.state, y.At(role).end.accepted);
      QueueEmpty(y.At(Other(role)).end.state, y.At(Other(role)).end.accepted);
      AllOpened(c, t, moves, role);
      DeliveredInOrder(c, t, moves, role);
    }
  }

  lemma IdleMeans(c: Suite, t: Terms, p: Pair, w: Where, role: Role)
    requires Core(c, t, p, w) && w.ga.Idle? && w.gb.Idle?
    ensures var s := p.Get(role);
            && s.phase.Established? && !s.kex.rekeying && s.kex.sessionId.Some?
            && s.kex.sessionId == p.Get(Other(role)).kex.sessionId && s.rounds == p.Get(Other(role)).rounds
  {
    hide Ready, Wired, Taken, Settle, Agreement, Offer, Compressed, Bargained;
  }

  lemma QueueEmpty(s: State, accepted: seq<seq<byte>>)
    requires Safety.Safe(s, accepted) && !s.kex.rekeying
    ensures s.queue == []
  {
    hide Safety.NonceInv, Safety.Apps, Safety.Quiet;
  }

  lemma AllOpened(c: Suite, t: Terms, moves: seq<Move>, role: Role)
    requires Honest(c) && ValidTerms(t) && AllProper(moves)
    requires var y := After(c, t, moves);
             Live(y.At(role).end) && Live(y.At(Other(role)).end) && y.At(role).got == |OutputOf(c, y, Other(role))|
    ensures var y := After(c, t, moves);
            var s, o := y.At(role).end.state, y.At(Other(role)).end.state.out;
            s.inn.cipher == o.cipher && s.inn.seqNr == o.seqNr
  {
    hide Honest, ValidTerms, After, Output, PacketsIn, Surfacing, Safety.Apps, Epochs;
    var k := OpenedAsSealed(c, t, moves, role);
  }

  lemma BeginSafe(c: Suite, t: Terms)
    ensures forall role :: Safety.Safe(Begin(c, t).At(role).end.state, Begin(c, t).At(role).end.accepted)
  {
    hide Safety.Safe, Launch;
    Safety.LaunchSafe(c, t.client);
    Safety.LaunchSafe(c, t.server);
    Safety.LaunchAccepts(c, t.client);
    Safety.LaunchAccepts(c, t.server);
  }

  /** An endpoint fails on an honest peer only when the configurations have nothing in common
      or it would exceed the cap on packets received in one epoch: no packet is ever rejected
      as corrupt, out of place or badly signed. */
  lemma FailsOnlyWithExcuse(c: Suite, t: Terms, moves: seq<Move>, role: Role)
    requires Honest(c) && ValidTerms(t) && AllProper(moves)
    ensures var e := After(c, t, moves).At(role).end;
            e.failed ==> !Compatible(t) || e.state.inn.packets + 1 >= EPOCH_HARD_PACKETS
  {
    hide Honest, ValidTerms, After, Core, Output, Flight, Inbound, Compatible;
    var w := Reached(c, t, moves);
    BothReading(c, t, After(c, t, moves), w, role);
  }

  /** Both ends always hold the same outcome: one session id, one set of negotiated names, and
      compression names that mirror each other. */
  lemma OutcomesAgree(c: Suite, t: Terms, moves: seq<Move>)
    requires Honest(c) && ValidTerms(t) && AllProper(moves)
    ensures var a, b := After(c, t, moves).client.end.state.kex, After(c, t, moves).server.end.state.kex;
            && (a.sessionId.Some? && b.sessionId.Some? ==>
                  a.sessionId == b.sessionId && a.compOut == b.compIn && a.compIn == b.compOut)
            && (a.negotiated.Some? && b.negotiated.Some? ==> a.negotiated == b.negotiated)
            && (a.negotiated.Some? ==> a.negotiated.value.cipherC2s == a.negotiated.value.cipherS2c)
  {
    hide Honest, ValidTerms, After, Reading, Ready, Wired, Taken, Agreement, Settle, Offer, Flags, Version.LocalId, Bargained;
    var w := Reached(c, t, moves);
    var y := After(c, t, moves);
    var a, b := y.client.end.state, y.server.end.state;
    if w.ga.Asked? && w.gb.Keyed? && a.kex.sessionId.Some? {
      SettleKeeps(c, t, a, b, w.ds);
    }
    if a.kex.negotiated.Some? {
      OneCipher(t);
    }
  }

  lemma SettleKeeps(c: Suite, t: Terms, a: State, b: State, ds: nat)
    requires Replied(c, t, a, b, ds) && a.kex.sessionId.Some?
    ensures b.kex.sessionId == a.kex.sessionId
  {
    hide Agreement, ExchangeHash, DirectionCipher, ReplyPayload;
  }

  /** While the client waits for the reply, its hash input is the server's: whichever side
      hashes the round's ephemeral keys and secret gets the same bytes. */
  lemma HashInputsAgree(c: Suite, t: Terms, moves: seq<Move>, blob: seq<byte>, qc: seq<byte>, qs: seq<byte>, k: Secret)
    requires Honest(c) && ValidTerms(t) && AllProper(moves)
    requires var a, b := After(c, t, moves).client.end.state, After(c, t, moves).server.end.state;
             a.kex.ephemeral.Some? && b.kex.negotiated.Some? && b.kex.kexinitSent && !b.kex.sentNewkeys
    ensures var a, b := After(c, t, moves).client.end.state, After(c, t, moves).server.end.state;
            && a.peerId.Some? && b.peerId.Some? && a.kex.peerKexinit.Some? && b.kex.peerKexinit.Some?
            && RoundInput(Client, a.peerId.value, a.kex.localKexinit, a.kex.peerKexinit.value.payload, blob, qc, qs, k)
            == RoundInput(Server, b.peerId.value, b.kex.localKexinit, b.kex.peerKexinit.value.payload, blob, qc, qs, k)
  {
    hide Honest, ValidTerms, After, Reading, Ready, Wired, Taken, Agreement, Settle, Offer, Version.LocalId, Compressed, KexKindOf;
    var w := Reached(c, t, moves);
  }

  lemma {:induction false} RunHistoried(c: Suite, y: System, moves: seq<Move>)
    requires forall role :: Sessions.Historied(c, y.At(role).end.state)
    ensures forall role :: Sessions.Historied(c, RunOf(c, y, moves).At(role).end.state)
    decreases |moves|
  {
    hide Sessions.Historied, Act, Left, OutputOf;
    if moves != [] {
      var m := moves[0];
      var y1 := StepOf(c, y, m);
      forall role ensures Sessions.Historied(c, y1.At(role).end.state) {
        assert Sessions.Historied(c, y.At(role).end.state);
        StepHistoried(c, y, m, role);
      }
      RunHistoried(c, y1, moves[1..]);
    }
  }

  lemma StepHistoried(c: Suite, y: System, m: Move, role: Role)
    requires Sessions.Historied(c, y.At(role).end.state)
    ensures Sessions.Historied(c, StepOf(c, y, m).At(role).end.state)
  {
    hide Sessions.Historied, Act, Left, OutputOf;
    if m.role == role {
      var me := y.At(role);
      match m
      case Call(_, a) => Sessions.ActKeeps(c, me.end, a);
      case Deliver(_, n) =>
        var k := Upto(n, Left(c, y, role));
        if k > 0 {
          LeftWithin(c, y, role, k);
          Sessions.ActKeeps(c, me.end, Input(OutputOf(c, y, Other(role))[me.got..me.got + k]));
        }
    }
  }

  /** Every round: what one end hashed, with its own ephemeral key and the secret it computed,
      is what the other end hashed with its own. The server is ahead by one round exactly while
      the client has yet to read its reply. Each end has keyed one outbound epoch for each
      round, and its session id is the hash of the first. */
  lemma RoundsAgree(c: Suite, t: Terms, moves: seq<Move>)
    requires Honest(c) && ValidTerms(t) && AllProper(moves)
    ensures var a, b := After(c, t, moves).client.end.state, After(c, t, moves).server.end.state;
            && a.rounds <= b.rounds
            && |b.rounds| == |a.rounds| + (if a.kex.ephemeral.Some? && b.kex.sentNewkeys then 1 else 0)
            && Sessions.Historied(c, a) && Sessions.Historied(c, b)
  {
    hide Honest, ValidTerms, RunOf, Begin, Reading, Ready, Wired, Taken, Agreement, Settle, Offer, Version.LocalId, Bargained, Compressed,
         Sessions.Historied;
    var w := Reached(c, t, moves);
    BeginHistoried(c, t);
    RunHistoried(c, Begin(c, t), moves);
    assert Sessions.Historied(c, After(c, t, moves).At(Client).end.state);
    assert Sessions.Historied(c, After(c, t, moves).At(Server).end.state);
  }

  lemma BeginHistoried(c: Suite, t: Terms)
    ensures forall role :: Sessions.Historied(c, Begin(c, t).At(role).end.state)
  {
    hide Sessions.Historied, Start;
    Sessions.StartHistoried(c, t.client);
    Sessions.StartHistoried(c, t.server);
  }
}
