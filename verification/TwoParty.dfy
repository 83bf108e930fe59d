/** Two endpoints of this engine joined by two byte streams that lose and reorder nothing.
    Either side may call its transport at any time; the streams deliver any number of bytes
    at a time. */
module TwoParty {
  import opened Bytes
  import opened Framing
  import opened Transport
  import opened Runs
  import opened Stream
  import opened Lockstep
  import opened Rounds
  import opened Joint
  import opened Delivery
  import opened Paired
  import Chunking
  import Safety
  import Version

  /** One end: its endpoint, and how much of the peer's stream has been delivered to it. */
  datatype Party = Party(end: Endpoint, got: nat)

  datatype System = System(client: Party, server: Party) {
    function At(role: Role): Party { if role.Client? then client else server }
    function With(role: Role, p: Party): System { if role.Client? then this.(client := p) else this.(server := p) }
    function States(): Pair { Pair(client.end.state, server.end.state) }
  }

  /** Everything an endpoint has written so far. */
  function Output(c: Suite, role: Role, log: seq<Frame>): seq<byte> {
    Version.LocalIdLine() + WireBytes(c, role, log)
  }

  function OutputOf(c: Suite, y: System, role: Role): seq<byte> {
    Output(c, role, y.At(role).end.state.out.log)
  }

  datatype Move = Call(role: Role, action: Action) | Deliver(role: Role, n: nat)

  /** Calls within the limits a driver keeps to: payloads that are not transport messages and
      fit a packet. What the peer sends arrives by delivery alone. */
  predicate Proper(a: Action) {
    match a
    case Send(payload) => AppLike(payload)
    case Chaff(data) => |data| <= 0x8_0000
    case Hangup(_, text) => |text| <= 30000
    case Input(_) => false
    case _ => true
  }

  predicate ProperMove(m: Move) {
    m.Call? ==> Proper(m.action)
  }

  function Upto(n: nat, limit: nat): (m: nat)
    ensures m <= n && m <= limit
  {
    if n <= limit then n else limit
  }

  /** Bytes not yet delivered to `role`; never negative on a run. */
  function Left(c: Suite, y: System, role: Role): nat {
    var total := |OutputOf(c, y, Other(role))|;
    if y.At(role).got <= total then total - y.At(role).got else 0
  }

  function StepOf(c: Suite, y: System, m: Move): System {
    var me := y.At(m.role);
    match m
    case Call(role, action) => y.With(role, me.(end := Act(c, me.end, action)))
    case Deliver(role, n) =>
      var k := Upto(n, Left(c, y, role));
      if k == 0 then y
      else
        var data := OutputOf(c, y, Other(role))[me.got..me.got + k];
        y.With(role, Party(Act(c, me.end, Input(data)), me.got + k))
  }

  function Begin(c: Suite, t: Terms): System {
    System(Party(Launch(c, t.client), 0), Party(Launch(c, t.server), 0))
  }

  function RunOf(c: Suite, y: System, moves: seq<Move>): System
    decreases |moves|
  {
    if moves == [] then y else RunOf(c, StepOf(c, y, moves[0]), moves[1..])
  }

  // --- the invariant ---------------------------------------------------------------------

  predicate Live(e: Endpoint) { !e.failed && !e.state.out.closing }

  /** Bytes of the peer's output an endpoint has consumed after `k` packets. */
  function Used(c: Suite, from: Role, log: seq<Frame>, s: State, k: nat): nat
    requires k <= |log|
  {
    if s.phase.NeedPeerVersion? then 0 else |Output(c, from, log[..k])|
  }

  /** A live reader holds exactly the delivered bytes that follow the packets it has taken,
      and the key-exchange messages in the peer's later packets are the ones expected. */
  ghost predicate Reading(c: Suite, t: Terms, y: System, w: Where, role: Role) {
    var me, o, k := y.At(role), y.States().Get(Other(role)).out, Cursor(w, role);
    && k <= |o.log|
    && me.got <= |Output(c, Other(role), o.log)|
    && (me.end.failed ==> Excused(t, me.end.state))
    && (Live(me.end) ==>
          var used := Used(c, Other(role), o.log, me.end.state, k);
          && used <= me.got
          && me.end.rx == Output(c, Other(role), o.log)[used..me.got]
          && Flight(o, k, Inbound(c, t, y.States(), w, role)))
  }

  ghost predicate InStep(c: Suite, t: Terms, y: System, w: Where) {
    Core(c, t, y.States(), w) && Reading(c, t, y, w, Client) && Reading(c, t, y, w, Server)
  }

  // --- streams -----------------------------------------------------------------------------

  lemma {:induction false} WireGrows(c: Suite, role: Role, log: seq<Frame>, k: nat)
    requires k <= |log|
    ensures WireBytes(c, role, log[..k]) <= WireBytes(c, role, log)
  {
    hide FrameBytes;
    if k == |log| {
      assert log[..k] == log;
    } else {
      WireGrows(c, role, log[..|log| - 1], k);
      assert log[..|log| - 1][..k] == log[..k];
    }
  }

  lemma OutputGrows(c: Suite, role: Role, log: seq<Frame>, log': seq<Frame>)
    requires log <= log'
    ensures Output(c, role, log) <= Output(c, role, log')
  {
    hide WireBytes, Version.LocalIdLine;
    WireGrows(c, role, log', |log|);
    assert log'[..|log|] == log;
  }

  lemma OutputNext(c: Suite, role: Role, log: seq<Frame>, k: nat)
    requires k < |log|
    ensures Output(c, role, log[..k + 1]) == Output(c, role, log[..k]) + FrameBytes(c, role, log[k])
    ensures Output(c, role, log[..k + 1]) <= Output(c, role, log)
  {
    hide FrameBytes, Version.LocalIdLine;
    assert log[..k + 1][..k] == log[..k];
    OutputGrows(c, role, log[..k + 1], log);
  }

  /** The peer's state is untouched by our step as far as its reading goes. */
  lemma PeerReading(c: Suite, t: Terms, y: System, w: Where, role: Role, p: Party, w': Where, sent: seq<Msg>)
    requires Reading(c, t, y, w, Other(role))
    requires Went(c, t, y.States(), w, role, p.end.state, w', sent)
    ensures Reading(c, t, y.With(role, p), w', Other(role))
  {
    hide Core, Wired, Flight, Output, Excused, Used;
    var o, o' := y.At(role).end.state.out, p.end.state.out;
    var me := y.At(Other(role));
    var k := Cursor(w, Other(role));
    var y' := y.With(role, p);
    assert y'.States() == y.States().Set(role, p.end.state);
    assert y'.At(Other(role)) == me;
    assert o'.log[..k] == o.log[..k];
    OutputGrows(c, role, o.log, o'.log);
    assert Used(c, role, o'.log, me.end.state, k) == Used(c, role, o.log, me.end.state, k) by { UsedSame(c, role, o.log, o'.log, me.end.state, k); }
    if Live(me.end) {
      FlightGrows(o, o', k, Inbound(c, t, y.States(), w, Other(role)), sent);
    }
  }

  lemma UsedSame(c: Suite, from: Role, log: seq<Frame>, log': seq<Frame>, s: State, k: nat)
    requires k <= |log| && k <= |log'| && log[..k] == log'[..k]
    ensures Used(c, from, log, s, k) == Used(c, from, log', s, k)
  {
    hide Output;
  }

  // --- one unit read -------------------------------------------------------------------------

  /** The next packet opens under the reader's cipher and number to the payload sealed. */
  lemma OpensNext(c: Suite, from: Role, log: seq<Frame>, s: State, k: nat, rest: seq<byte>)
    requires Threaded(log) && Taken(log, s, k) && k < |log|
    ensures Continues(log[..k], log[k]) && log[k].cipher == s.inn.cipher && log[k].seqNr == s.inn.seqNr
    ensures Open(c.prim, s.inn.cipher, s.inn.seqNr, FrameBytes(c, from, log[k]) + rest)
         == Ok(Packet(log[k].payload, |FrameBytes(c, from, log[k])|))
  {
    hide Threaded, CipherAfter, SeqAfter, Epochs, Surfacing, PacketsIn, Safety.Apps, Open, Seal, AppLike;
    ThreadedAt(log, k);
    var f := log[k];
    OpenSealed(c.prim, f.cipher, f.seqNr, f.payload, NoiseAt(c, from, f.draw), rest);
  }

  /** Reading the peer's identification line. */
  lemma DrivesLine(c: Suite, s: State, rest: seq<byte>)
    requires s.phase.NeedPeerVersion?
    ensures DriveOnce(c, s, Version.LocalIdLine() + rest)
         == Took(s.(peerId := Some(Version.LocalId()), phase := Handshake), |Version.LocalIdLine()|)
  {
    hide Version.LocalIdLine, Version.LocalId, Version.Parse, Accept, Open;
    Version.OwnLineParses(rest, s.cfg.role.Client?);
  }

  /** The unit `role` reads next: the identification line, then one packet at a time. */
  ghost predicate NextUnit(c: Suite, p: Pair, w: Where, role: Role, unit: seq<byte>) {
    var s, o, k := p.Get(role), p.Get(Other(role)).out, Cursor(w, role);
    if s.phase.NeedPeerVersion? then unit == Version.LocalIdLine()
    else k < |o.log| && unit == FrameBytes(c, Other(role), o.log[k])
  }

  /** Having read one unit, the pair is in step again. */
  ghost predicate Read(c: Suite, t: Terms, p: Pair, w: Where, role: Role, r: State, w': Where, sent: seq<Msg>) {
    var o := p.Get(Other(role)).out;
    && Went(c, t, p, w, role, r, w', sent) && !r.phase.NeedPeerVersion?
    && Cursor(w', role) == (if p.Get(role).phase.NeedPeerVersion? then 0 else Cursor(w, role) + 1)
    && Cursor(w', role) <= |o.log|
    && (r.out.closing || Flight(o, Cursor(w', role), Inbound(c, t, p.Set(role, r), w', role)))
  }

  /** However the stream goes on after a unit, the endpoint takes exactly that unit, or has an
      excuse to fail. */
  lemma DrivesUnit(c: Suite, t: Terms, p: Pair, w: Where, role: Role, unit: seq<byte>, rest: seq<byte>) returns (w': Where, sent: seq<Msg>)
    requires Honest(c) && ValidTerms(t) && Core(c, t, p, w) && NextUnit(c, p, w, role, unit)
    requires Flight(p.Get(Other(role)).out, Cursor(w, role), Inbound(c, t, p, w, role))
    ensures match DriveOnce(c, p.Get(role), unit + rest)
            case Wait => false
            case Fail(_) => Excused(t, p.Get(role))
            case Took(r, n) => n == |unit| && Read(c, t, p, w, role, r, w', sent)
  {
    hide Core, Flight, Accept, Open, Honest, ValidTerms, Excused, Inbound, FrameBytes, Version.LocalIdLine, Went, Version.LocalId;
    var s, o, k := p.Get(role), p.Get(Other(role)).out, Cursor(w, role);
    w', sent := w, [];
    if s.phase.NeedPeerVersion? {
      DrivesLine(c, s, rest);
      GreetedWent(c, t, p, w, role);
      FlightWithin(o, k, Inbound(c, t, p, w, role));
      CursorStarts(c, t, p, w, role);
    } else {
      CoreTaken(c, t, p, w, role);
      OpensNext(c, Other(role), o.log, s, k, rest);
      w', sent := TakeWent(c, t, p, w, role, |unit|);
    }
  }

  lemma FlightWithin(o: Out, k: nat, msgs: seq<Msg>)
    requires Flight(o, k, msgs)
    ensures k <= |o.log|
  {
    hide Kexes;
  }

  lemma CoreTaken(c: Suite, t: Terms, p: Pair, w: Where, role: Role)
    requires Core(c, t, p, w)
    ensures var o := p.Get(Other(role)).out;
            Taken(o.log, p.Get(role), Cursor(w, role)) && Wired(o) && Threaded(o.log)
  {
    hide Lock, Ready, Taken, Threaded, CipherAfter, SeqAfter;
  }

  lemma CursorStarts(c: Suite, t: Terms, p: Pair, w: Where, role: Role)
    requires Core(c, t, p, w) && p.Get(role).phase.NeedPeerVersion?
    ensures Cursor(w, role) == 0
  {
    hide Lock, Ready, Wired, Surfacing, PacketsIn, Safety.Apps, CipherAfter, SeqAfter;
  }

  /** With less than a unit delivered the endpoint waits, unless it has an excuse to fail. */
  lemma WaitsForUnit(c: Suite, t: Terms, p: Pair, w: Where, role: Role, unit: seq<byte>, part: seq<byte>)
    requires Honest(c) && ValidTerms(t) && Core(c, t, p, w) && NextUnit(c, p, w, role, unit)
    requires Flight(p.Get(Other(role)).out, Cursor(w, role), Inbound(c, t, p, w, role))
    requires part < unit
    ensures match DriveOnce(c, p.Get(role), part)
            case Wait => true
            case Fail(_) => Excused(t, p.Get(role))
            case Took(_, _) => false
  {
    hide Core, Flight, Honest, ValidTerms, Excused, Inbound, DriveOnce, Read, NextUnit;
    var s := p.Get(role);
    var w', sent := DrivesUnit(c, t, p, w, role, unit, []);
    if !DriveOnce(c, s, part).Wait? {
      Chunking.DriveOnceStable(c, s, part, unit[|part|..]);
      assert part + unit[|part|..] == unit == unit + [];
    }
  }

  lemma NothingToRead(c: Suite, s: State)
    ensures DriveOnce(c, s, []).Wait?
  {
    hide Accept, Open;
    OpenNothing(c.prim, s.inn.cipher, s.inn.seqNr);
  }

  // --- a delivery ----------------------------------------------------------------------------

  function UnitOf(c: Suite, from: Role, log: seq<Frame>, s: State, k: nat): seq<byte>
    requires s.phase.NeedPeerVersion? || k < |log|
  {
    if s.phase.NeedPeerVersion? then Version.LocalIdLine() else FrameBytes(c, from, log[k])
  }

  function CountAfter(s: State, k: nat): nat { if s.phase.NeedPeerVersion? then 0 else k + 1 }

  /** The bytes from the reader's position on start with its next unit. */
  lemma UnitAhead(c: Suite, from: Role, log: seq<Frame>, s: State, k: nat)
    requires k <= |log| && (s.phase.NeedPeerVersion? || k < |log|)
    ensures var unit, used := UnitOf(c, from, log, s, k), Used(c, from, log, s, k);
            && used + |unit| <= |Output(c, from, log)|
            && Output(c, from, log)[used..used + |unit|] == unit
            && CountAfter(s, k) <= |log| && used + |unit| == |Output(c, from, log[..CountAfter(s, k)])|
            && |unit| > 0
  {
    hide FrameBytes, WireBytes, Version.LocalIdLine;
    if s.phase.NeedPeerVersion? {
      var none: seq<Frame> := [];
      assert log[..0] == none;
      assert WireBytes(c, from, none) == [] by { NoWire(c, from); }
      assert |Version.LocalIdLine()| > 0 by { LineNotEmpty(); }
    } else {
      OutputNext(c, from, log, k);
    }
  }

  lemma NoWire(c: Suite, from: Role)
    ensures WireBytes(c, from, []) == []
  {
  }

  lemma LineNotEmpty()
    ensures |Version.LocalIdLine()| > 0
  {
  }

  /** The reader's own side after one unit. */
  lemma ReadReading(c: Suite, t: Terms, y: System, w: Where, role: Role, r: State, w': Where, sent: seq<Msg>, rest: seq<byte>)
    requires InStep(c, t, y, w) && Live(y.At(role).end)
    requires Read(c, t, y.States(), w, role, r, w', sent)
    requires var o, k := y.States().Get(Other(role)).out, Cursor(w, role);
             var s := y.At(role).end.state;
             (s.phase.NeedPeerVersion? || k < |o.log|) && y.At(role).end.rx == UnitOf(c, Other(role), o.log, s, k) + rest
    ensures InStep(c, t, y.With(role, y.At(role).(end := y.At(role).end.(state := r, rx := rest))), w')
  {
    hide Flight, Output, Excused, Inbound, UnitOf, Core, Sent;
    var me := y.At(role);
    var o, k := y.States().Get(Other(role)).out, Cursor(w, role);
    var p := me.(end := me.end.(state := r, rx := rest));
    var y' := y.With(role, p);
    assert y'.States() == y.States().Set(role, r);
    assert y'.States().Get(Other(role)) == y.States().Get(Other(role));
    assert Reading(c, t, y, w, role) && Reading(c, t, y, w, Other(role)) by { BothReading(c, t, y, w, role); }
    PeerReading(c, t, y, w, role, p, w', sent);
    UnitAhead(c, Other(role), o.log, me.end.state, k);
    RestFollows(Output(c, Other(role), o.log), Used(c, Other(role), o.log, me.end.state, k), me.got,
                UnitOf(c, Other(role), o.log, me.end.state, k), rest);
    assert Cursor(w', role) == CountAfter(me.end.state, k) by { CursorAfter(c, t, y, w, role, r, w', sent); }
    assert Reading(c, t, y', w', role);
    BothInStep(c, t, y', w', role);
  }

  lemma CursorAfter(c: Suite, t: Terms, y: System, w: Where, role: Role, r: State, w': Where, sent: seq<Msg>)
    requires Read(c, t, y.States(), w, role, r, w', sent)
    ensures Cursor(w', role) == CountAfter(y.At(role).end.state, Cursor(w, role))
  {
    hide Went, Flight;
  }

  lemma RestFollows<T>(stream: seq<T>, used: nat, got: nat, unit: seq<T>, rest: seq<T>)
    requires used <= got <= |stream| && stream[used..got] == unit + rest
    ensures used + |unit| <= got && rest == stream[used + |unit|..got]
  {
    assert (unit + rest)[|unit|..] == rest;
    assert stream[used..got][|unit|..] == stream[used + |unit|..got];
  }

  lemma BothReading(c: Suite, t: Terms, y: System, w: Where, role: Role)
    requires InStep(c, t, y, w)
    ensures Core(c, t, y.States(), w) && Reading(c, t, y, w, role) && Reading(c, t, y, w, Other(role))
  {
    hide Core, Reading;
  }

  lemma BothInStep(c: Suite, t: Terms, y: System, w: Where, role: Role)
    requires Core(c, t, y.States(), w) && Reading(c, t, y, w, role) && Reading(c, t, y, w, Other(role))
    ensures InStep(c, t, y, w)
  {
    hide Core, Reading;
  }

  /** A reader that failed with an excuse stays in step as it is. */
  lemma FailedInStep(c: Suite, t: Terms, y: System, w: Where, role: Role)
    requires InStep(c, t, y, w) && Excused(t, y.At(role).end.state)
    ensures InStep(c, t, y.With(role, y.At(role).(end := y.At(role).end.(failed := true))), w)
  {
    hide Core, Flight, Output, Excused, Inbound, Used;
    var y' := y.With(role, y.At(role).(end := y.At(role).end.(failed := true)));
    assert y'.States() == y.States();
    BothReading(c, t, y, w, role);
    BothInStep(c, t, y', w, role);
  }

  function Reads(y: System, role: Role, d: Driven): System {
    var me := y.At(role);
    y.With(role, me.(end := me.end.(state := d.state, rx := d.rest, failed := d.error.Some?)))
  }

  /** What a live reader faces: nothing, part of its next unit, or all of it. */
  lemma Faces(c: Suite, t: Terms, y: System, w: Where, role: Role)
    requires InStep(c, t, y, w) && Live(y.At(role).end)
    ensures var s, o, k := y.At(role).end.state, y.States().Get(Other(role)).out, Cursor(w, role);
            && Flight(o, k, Inbound(c, t, y.States(), w, role)) && k <= |o.log|
            && (if s.phase.NeedPeerVersion? || k < |o.log|
                then var unit := UnitOf(c, Other(role), o.log, s, k);
                     NextUnit(c, y.States(), w, role, unit)
                     && (y.At(role).end.rx < unit || unit <= y.At(role).end.rx)
                else y.At(role).end.rx == [])
  {
    hide Core, Flight, Output, Excused, Inbound, FrameBytes, Version.LocalIdLine;
    BothReading(c, t, y, w, role);
    var s, o, k := y.At(role).end.state, y.States().Get(Other(role)).out, Cursor(w, role);
    var stream := Output(c, Other(role), o.log);
    var used := Used(c, Other(role), o.log, s, k);
    if s.phase.NeedPeerVersion? || k < |o.log| {
      UnitAhead(c, Other(role), o.log, s, k);
      PartOrAll(stream, used, y.At(role).got, UnitOf(c, Other(role), o.log, s, k));
    } else {
      assert o.log[..k] == o.log;
    }
  }

  lemma PartOrAll<T>(stream: seq<T>, used: nat, got: nat, unit: seq<T>)
    requires used <= got <= |stream| && used + |unit| <= |stream| && stream[used..used + |unit|] == unit
    ensures stream[used..got] < unit || unit <= stream[used..got]
  {
    if got < used + |unit| {
      assert unit[..got - used] == stream[used..got];
    } else {
      assert stream[used..got][..|unit|] == unit;
    }
  }

  /** The receive loop keeps the two ends in step, however much it has to read. */
  lemma {:induction false} DriveInStep(c: Suite, t: Terms, y: System, w: Where, role: Role) returns (w': Where)
    requires Honest(c) && ValidTerms(t) && InStep(c, t, y, w) && Live(y.At(role).end)
    ensures InStep(c, t, Reads(y, role, Drive(c, y.At(role).end.state, y.At(role).end.rx)), w')
    decreases |y.At(role).end.rx|
  {
    hide InStep, Honest, ValidTerms, DriveOnce, UnitOf, Flight, Inbound, Excused, NextUnit, Read, Core;
    w' := w;
    var e := y.At(role).end;
    var s, o, k := e.state, y.States().Get(Other(role)).out, Cursor(w, role);
    Faces(c, t, y, w, role);
    assert Core(c, t, y.States(), w) by { BothReading(c, t, y, w, role); }
    assert y.States().Get(role) == s;
    if s.phase.NeedPeerVersion? || k < |o.log| {
      var unit := UnitOf(c, Other(role), o.log, s, k);
      if e.rx < unit {
        WaitsForUnit(c, t, y.States(), w, role, unit, e.rx);
        DriveStops(c, t, y, w, role);
      } else {
        var rest := e.rx[|unit|..];
        assert e.rx == unit + rest;
        var w1, sent := DrivesUnit(c, t, y.States(), w, role, unit, rest);
        match DriveOnce(c, s, e.rx)
        case Fail(_) => DriveStops(c, t, y, w, role);
        case Took(r, n) =>
          ReadReading(c, t, y, w, role, r, w1, sent, rest);
          var y1 := y.With(role, y.At(role).(end := e.(state := r, rx := rest)));
          assert Reads(y, role, Drive(c, s, e.rx)) == Reads(y1, role, Drive(c, r, rest));
          if r.out.closing {
            w' := w1;
            assert Reads(y1, role, Drive(c, r, rest)) == y1;
          } else {
            UnitAhead(c, Other(role), o.log, s, k);
            w' := DriveInStep(c, t, y1, w1, role);
          }
      }
    } else {
      NothingToRead(c, s);
      DriveStops(c, t, y, w, role);
    }
  }

  lemma DriveStops(c: Suite, t: Terms, y: System, w: Where, role: Role)
    requires InStep(c, t, y, w) && Live(y.At(role).end)
    requires var e := y.At(role).end;
             match DriveOnce(c, e.state, e.rx)
             case Wait => true
             case Fail(_) => Excused(t, e.state)
             case Took(_, _) => false
    ensures InStep(c, t, Reads(y, role, Drive(c, y.At(role).end.state, y.At(role).end.rx)), w)
  {
    hide InStep, DriveOnce, Excused;
    var e := y.At(role).end;
    if DriveOnce(c, e.state, e.rx).Wait? {
      assert Reads(y, role, Drive(c, e.state, e.rx)) == y;
    } else {
      FailedInStep(c, t, y, w, role);
    }
  }

  // --- waiting -------------------------------------------------------------------------------

  /** A live endpoint has taken every whole unit it holds. */
  predicate Waiting(c: Suite, e: Endpoint) {
    Live(e) ==> DriveOnce(c, e.state, e.rx).Wait?
  }

  lemma InputWaits(c: Suite, e: Endpoint, data: seq<byte>)
    requires Waiting(c, e)
    ensures Waiting(c, Act(c, e, Input(data)))
  {
    hide DriveOnce, Drive;
    Chunking.DriveRests(c, e.state, e.rx + data);
  }

  /** A call that leaves the receiving side alone leaves the endpoint waiting. */
  lemma SameWaits(c: Suite, s: State, r: State, rx: seq<byte>)
    requires r.phase == s.phase && r.inn == s.inn && r.cfg == s.cfg
    ensures DriveOnce(c, s, rx).Wait? ==> DriveOnce(c, r, rx).Wait?
  {
    hide Accept, Open, Version.Parse;
  }

  /** What a waiting reader has taken is exactly the units that were delivered whole. */
  lemma WholeTaken(c: Suite, t: Terms, y: System, w: Where, role: Role)
    requires Honest(c) && ValidTerms(t) && InStep(c, t, y, w)
    requires Live(y.At(role).end) && Waiting(c, y.At(role).end)
    ensures var me, log, k := y.At(role), y.At(Other(role)).end.state.out.log, Cursor(w, role);
            && k <= |log| && me.got <= |Output(c, Other(role), log)|
            && var used, n := Used(c, Other(role), log, me.end.state, k), CountAfter(me.end.state, k);
               && used <= me.got && me.end.rx == Output(c, Other(role), log)[used..me.got]
               && (n <= |log| ==> me.got < |Output(c, Other(role), log[..n])|)
               && (me.got == |Output(c, Other(role), log)| ==> k == |log| && !me.end.state.phase.NeedPeerVersion?)
  {
    hide Core, Flight, Inbound, Excused, Output, DriveOnce, UnitOf, NextUnit, Read, Honest, ValidTerms;
    var e := y.At(role).end;
    var s, log, k := e.state, y.States().Get(Other(role)).out.log, Cursor(w, role);
    Faces(c, t, y, w, role);
    BothReading(c, t, y, w, role);
    assert y.States().Get(role) == s;
    if s.phase.NeedPeerVersion? || k < |log| {
      var unit := UnitOf(c, Other(role), log, s, k);
      if unit <= e.rx {
        assert e.rx == unit + e.rx[|unit|..];
        var w1, sent := DrivesUnit(c, t, y.States(), w, role, unit, e.rx[|unit|..]);
      }
      assert e.rx < unit;
      UnitAhead(c, Other(role), log, s, k);
      OutputGrows(c, Other(role), log[..CountAfter(s, k)], log);
    }
  }

  // --- every move ------------------------------------------------------------------------------

  lemma DeliverInStep(c: Suite, t: Terms, y: System, w: Where, role: Role, n: nat) returns (w': Where)
    requires Honest(c) && ValidTerms(t) && InStep(c, t, y, w)
    ensures InStep(c, t, StepOf(c, y, Deliver(role, n)), w')
  {
    hide InStep, Honest, ValidTerms, Drive, Output;
    w' := w;
    var k := Upto(n, Left(c, y, role));
    if k > 0 {
      var me := y.At(role);
      var data := OutputOf(c, y, Other(role))[me.got..me.got + k];
      if Live(me.end) {
        var y1 := y.With(role, Party(me.end.(rx := me.end.rx + data), me.got + k));
        ArrivedInStep(c, t, y, w, role, k, data);
        w' := DriveInStep(c, t, y1, w, role);
        assert StepOf(c, y, Deliver(role, n)) == Reads(y1, role, Drive(c, me.end.state, me.end.rx + data));
      } else {
        DroppedInStep(c, t, y, w, role, me.got + k);
        assert Act(c, me.end, Input(data)) == me.end by { DeadDrops(c, me.end, data); }
      }
    }
  }

  lemma DeadDrops(c: Suite, e: Endpoint, data: seq<byte>)
    requires !Live(e)
    ensures Act(c, e, Input(data)) == e
  {
  }

  lemma ArrivedInStep(c: Suite, t: Terms, y: System, w: Where, role: Role, k: nat, data: seq<byte>)
    requires InStep(c, t, y, w) && Live(y.At(role).end)
    requires k <= Left(c, y, role)
    requires y.At(role).got + k <= |OutputOf(c, y, Other(role))|
    requires data == OutputOf(c, y, Other(role))[y.At(role).got..y.At(role).got + k]
    ensures InStep(c, t, y.With(role, Party(y.At(role).end.(rx := y.At(role).end.rx + data), y.At(role).got + k)), w)
  {
    hide Core, Flight, Output, Excused, Inbound, Used;
    var me := y.At(role);
    var y' := y.With(role, Party(me.end.(rx := me.end.rx + data), me.got + k));
    assert y'.States() == y.States();
    BothReading(c, t, y, w, role);
    var stream := OutputOf(c, y, Other(role));
    assert forall u: nat :: u <= me.got ==> stream[u..me.got] + stream[me.got..me.got + k] == stream[u..me.got + k];
    BothInStep(c, t, y', w, role);
  }

  lemma DroppedInStep(c: Suite, t: Terms, y: System, w: Where, role: Role, got: nat)
    requires InStep(c, t, y, w) && !Live(y.At(role).end)
    requires got <= |OutputOf(c, y, Other(role))|
    ensures InStep(c, t, y.With(role, y.At(role).(got := got)), w)
  {
    hide Core, Flight, Output, Excused, Inbound, Used;
    var y' := y.With(role, y.At(role).(got := got));
    assert y'.States() == y.States();
    BothReading(c, t, y, w, role);
    BothInStep(c, t, y', w, role);
  }
}
