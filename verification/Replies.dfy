/** Channel requests and their answers. A client matches answers to its requests first in,
    first out; the server answers most requests at once, but a program request only when its
    driver decides. */
module Replies {
  import opened Bytes
  import opened Channels
  import opened Flow
  import opened Server
  import opened ServerRuns

  predicate IsAnswer(r: Reply) { r.Success? || r.Failure? }

  /** The answers among what was handed to the transport, in order. */
  function Answers(sent: seq<Reply>): seq<Reply> {
    if sent == [] then []
    else Answers(sent[..|sent| - 1]) + (if IsAnswer(sent[|sent| - 1]) then [sent[|sent| - 1]] else [])
  }

  /** One entry for each request that wants an answer, in order of arrival: the answer it is
      due, none while the driver has not decided. */
  type Dues = seq<Option<Reply>>

  /** The driver decides on the newest program it was told of. */
  function Decide(dues: Dues, r: Reply): Dues {
    if dues == [] then []
    else
      var before, last := dues[..|dues| - 1], dues[|dues| - 1];
      if last.None? then before + [Some(r)] else Decide(before, r) + [last]
  }

  /** What a call adds to the dues, or settles among them. */
  function DuesAfter(p: Policy, s: Srv, dues: Dues, c: Call): Dues {
    match c
    case Receives(ProgramRequest(_, wantReply)) =>
      if s.authenticated.None? || !wantReply then dues
      else dues + [if s.programStarted then Some(Failure) else None]
    case Receives(OtherRequest(ask, wantReply)) =>
      if s.authenticated.None? || !wantReply then dues
      else dues + [Some(if Granted(p, s, ask) then Success else Failure)]
    case Accepts => Decide(dues, Success)
    case Rejects => Decide(dues, Failure)
    case _ => dues
  }

  function Settled(answers: seq<Reply>): Dues {
    seq(|answers|, i requires 0 <= i < |answers| => Some(answers[i]))
  }

  /** The answers sent are those due to the first requests, in order; at most the newest
      request still waits. A closing transport sends nothing more. */
  predicate FirstInFirstOut(s: Srv, dues: Dues) {
    s.closing || dues == Settled(Answers(s.sent)) + (if s.pendingReply then [None] else [])
  }

  /** A request is answered, or a program started, while an earlier program waits for the
      driver's decision. */
  predicate Overtakes(s: Srv, c: Call) {
    s.pendingReply && s.authenticated.Some? &&
    match c
    case Receives(ProgramRequest(_, wantReply)) => wantReply || !s.programStarted
    case Receives(OtherRequest(_, wantReply)) => wantReply
    case _ => false
  }

  // --- what sending does to the answers -----------------------------------------------------

  lemma AnswersSnoc(sent: seq<Reply>, r: Reply)
    ensures Answers(sent + [r]) == Answers(sent) + (if IsAnswer(r) then [r] else [])
  {
    assert (sent + [r])[..|sent|] == sent;
  }

  /** Nothing a client sees as an answer was sent, and no decision was taken. */
  predicate Quietly(s: Srv, t: Srv) {
    && t.pendingReply == s.pendingReply && (s.closing ==> t.closing)
    && (!t.closing ==> Answers(t.sent) == Answers(s.sent))
  }

  lemma SendQuietly(s: Srv, r: Reply)
    requires !IsAnswer(r)
    ensures Quietly(s, Send(s, r)) && Quietly(s, Disconnect(s))
  {
    AnswersSnoc(s.sent, r);
  }

  lemma {:induction false} SendAllQuietly(s: Srv, ms: seq<Msg>)
    ensures Quietly(s, SendAll(s, ms))
    decreases |ms|
  {
    if ms != [] {
      SendQuietly(s, Conn(ms[0]));
      SendAllQuietly(Send(s, Conn(ms[0])), ms[1..]);
    }
  }

  lemma FlushQuietly(p: Policy, s: Srv)
    requires Usable(s)
    ensures Quietly(s, FlushChannel(p, s))
  {
    hide Unsent, ServerFlush, SendAll, Answers;
    if s.chan.Some? {
      var (ms, d) := ServerFlush(s.chan.value, p.cap);
      SendAllQuietly(s.(chan := Some(d)), ms);
    }
  }

  lemma FailureQuietly(p: Policy, s: Srv)
    ensures Quietly(s, SendFailure(p, s))
  {
    hide Answers;
    SendQuietly(s.(authFailures := s.authFailures + 1), AuthFailure);
  }

  lemma FinishQuietly(p: Policy, s: Srv, user: User, granted: bool)
    ensures Quietly(s, FinishAuth(p, s, user, granted))
  {
    hide Answers, SendFailure;
    FailureQuietly(p, s);
    SendQuietly(s, AuthSuccess);
  }

  lemma PreAuthQuietly(p: Policy, s: Srv, packet: Packet)
    requires PreAuth(p, s, packet).Ok?
    ensures Quietly(s, PreAuth(p, s, packet).value)
  {
    hide Answers, SendFailure, FinishAuth;
    match packet
    case ServiceRequest(userauth) =>
      SendQuietly(s, ServiceAccept);
      SendQuietly(Send(s, ServiceAccept).(bannerSent := true), Banner);
    case UserAuth(user, attempt) =>
      var t := s.(authRequests := s.authRequests + 1);
      SendQuietly(t, PkOk);
      SendQuietly(Consult(t), PkOk);
      FailureQuietly(p, t);
      FailureQuietly(p, Consult(t));
      FinishQuietly(p, t, user, false);
      FinishQuietly(p, Consult(t), user, false);
      FinishQuietly(p, Consult(t), user, true);
    case _ =>
  }

  /** Calls that neither ask nor decide. */
  predicate Plain(s: Srv, c: Call) {
    match c
    case Accepts | Rejects => false
    case Receives(ProgramRequest(_, _)) => s.authenticated.None?
    case Receives(OtherRequest(_, _)) => s.authenticated.None?
    case _ => true
  }

  lemma PlainQuietly(p: Policy, s: Srv, c: Call)
    requires Usable(s) && Plain(s, c) && Do(p, s, c).Ok?
    ensures Quietly(s, Do(p, s, c).value)
  {
    hide Answers, FlushChannel, Unsent, SendAll, Consumed, PreAuth;
    match c
    case Stdout(data) => OutputQuietly(p, s, false, data);
    case Stderr(data) => OutputQuietly(p, s, true, data);
    case Exited(status) =>
      if s.chan.Some? {
        FlushQuietly(p, s.(chan := Some(s.chan.value.(exitStatus := Some(status), wantClose := true))));
      }
    case Consumes(len) =>
      if s.chan.Some? {
        SendAllQuietly(s.(chan := Some(Consumed(s.chan.value, len).1)), Consumed(s.chan.value, len).0);
      }
    case Receives(packet) =>
      if s.authenticated.None? {
        PreAuthQuietly(p, s, packet);
      } else {
        ConnectionQuietly(p, s, packet);
      }
    case _ =>
  }

  lemma OutputQuietly(p: Policy, s: Srv, ext: bool, data: seq<byte>)
    requires Usable(s)
    ensures Quietly(s, Output(p, s, ext, data))
  {
    hide Answers, FlushChannel, Unsent, Enqueue;
    if s.chan.Some? {
      EnqueueAppends(s.chan.value, ext, data);
      EnqueueKeeps(s.chan.value, ext, data);
      FlushQuietly(p, s.(chan := Some(Enqueue(s.chan.value, ext, data))));
    }
  }

  lemma ConnectionQuietly(p: Policy, s: Srv, packet: Packet)
    requires Usable(s) && !packet.ProgramRequest? && !packet.OtherRequest? && Connection(p, s, packet).Ok?
    ensures Quietly(s, Connection(p, s, packet).value)
  {
    hide Answers, FlushChannel, Unsent, SetRemote;
    match packet
    case ChannelOpen(session, window, maxPacket) =>
      SendQuietly(s, OpenFailure);
      SendQuietly(s.(chan := Some(SetRemote(Fresh(), window, maxPacket)), programStarted := false),
                  Conn(Confirm(DEFAULT_WINDOW, MAX_PACKET)));
    case WindowAdjust(n) =>
      if s.chan.Some? {
        FlushQuietly(p, s.(chan := Some(AddRemoteWindow(s.chan.value, n))));
      }
    case ChannelData(_) => SendQuietly(s, OpenFailure);
    case ChannelClose => SendQuietly(s, Conn(Close));
    case _ =>
  }

  // --- the law ------------------------------------------------------------------------------------

  lemma SettledSnoc(answers: seq<Reply>, r: Reply)
    ensures Settled(answers + [r]) == Settled(answers) + [Some(r)]
  {
  }

  lemma {:induction false} NothingToDecide(answers: seq<Reply>, r: Reply)
    ensures Decide(Settled(answers), r) == Settled(answers)
    decreases |answers|
  {
    if answers != [] {
      var before := answers[..|answers| - 1];
      assert Settled(answers)[..|answers| - 1] == Settled(before);
      NothingToDecide(before, r);
      assert answers == before + [answers[|answers| - 1]];
    }
  }

  lemma DecisionKeeps(s: Srv, dues: Dues, accept: bool)
    requires FirstInFirstOut(s, dues)
    ensures FirstInFirstOut(Answer(s, accept), Decide(dues, if accept then Success else Failure))
  {
    hide Answers;
    var r := if accept then Success else Failure;
    var answers := Answers(s.sent);
    AnswersSnoc(s.sent, r);
    SettledSnoc(answers, r);
    if !s.closing {
      if s.pendingReply {
        assert dues[..|dues| - 1] == Settled(answers);
      } else {
        assert dues == Settled(answers);
        NothingToDecide(answers, r);
      }
    }
  }

  /** With nothing waiting, a request joins the end of the dues; behind a waiting one, its
      answer comes too early. */
  lemma OneMoreDue(answers: seq<Reply>, r: Reply, due: Option<Reply>)
    ensures Settled(answers) + [] + [Some(r)] == Settled(answers + [r]) + []
    ensures Settled(answers) + [] + [None] == Settled(answers) + [None]
    ensures Settled(answers) + [None] + [due] != Settled(answers + [r]) + [None]
    ensures Settled(answers) + [None] + [due] != Settled(answers) + [None]
    ensures Settled(answers) + [None] != Settled(answers) + []
  {
    SettledSnoc(answers, r);
    var late, early := Settled(answers) + [None] + [due], Settled(answers + [r]) + [None];
    assert late[|answers|] == None && early[|answers|] == Some(r);
    assert |late| == |answers| + 2 && |Settled(answers) + [None]| == |answers| + 1;
  }

  lemma RequestKeepsExactly(p: Policy, s: Srv, dues: Dues, packet: Packet)
    requires Usable(s) && s.authenticated.Some? && (packet.ProgramRequest? || packet.OtherRequest?)
    requires !s.closing && FirstInFirstOut(s, dues)
    ensures Connection(p, s, packet).Ok?
    ensures FirstInFirstOut(Connection(p, s, packet).value, DuesAfter(p, s, dues, Receives(packet)))
       <==> !Overtakes(s, Receives(packet))
  {
    hide Answers, Unsent, Settled;
    var answers := Answers(s.sent);
    var r := if packet.OtherRequest? && Granted(p, s, packet.ask) then Success else Failure;
    var due := if packet.ProgramRequest? && !s.programStarted then None else Some(r);
    AnswersSnoc(s.sent, r);
    OneMoreDue(answers, r, due);
  }

  /** Every call keeps the answers in the order of the requests, but for one: a request that
      is answered, or a program that starts, while an earlier program waits for the driver.
      That breaks the order, always. */
  lemma AnswersKeptExactly(p: Policy, s: Srv, dues: Dues, c: Call)
    requires Usable(s) && Do(p, s, c).Ok? && !s.closing && FirstInFirstOut(s, dues)
    ensures FirstInFirstOut(Do(p, s, c).value, DuesAfter(p, s, dues, c)) <==> !Overtakes(s, c)
  {
    hide Answers, Connection, PreAuth, Unsent, Output, OnExit, OnConsumed, Settled, Decide;
    if Plain(s, c) {
      PlainQuietly(p, s, c);
    } else if c.Accepts? {
      DecisionKeeps(s, dues, true);
    } else if c.Rejects? {
      DecisionKeeps(s, dues, false);
    } else {
      RequestKeepsExactly(p, s, dues, c.packet);
    }
  }

  lemma ProgramWaits(p: Policy, s: Srv)
    requires Usable(s) && s.authenticated.Some? && !s.closing && !s.pendingReply && !s.programStarted
    ensures var r := Do(p, s, Receives(ProgramRequest(Shell, true)));
            r.Ok? && Usable(r.value) && r.value.pendingReply && !r.value.closing && r.value.sent == s.sent
            && r.value.authenticated.Some?
  {
    hide Unsent;
  }

  lemma RefusalOvertakes(p: Policy, s: Srv)
    requires Usable(s) && s.authenticated.Some? && !s.closing
    ensures Do(p, s, Receives(OtherRequest(Unknown, true))) == Ok(s.(sent := s.sent + [Failure]))
  {
    hide Unsent;
  }

  /** A request crossed by a later one, on any connection that is ready for a program: the
      client reads the refusal of the second request as the answer to the first. */
  lemma AnswersCross(p: Policy, s: Srv)
    requires Usable(s) && s.authenticated.Some? && !s.closing && !s.pendingReply && !s.programStarted
    ensures var t := Do(p, s, Receives(ProgramRequest(Shell, true))).value;
            var u := Do(p, t, Receives(OtherRequest(Unknown, true))).value;
            var v := Do(p, u, Accepts).value;
            && Answers(v.sent) == Answers(s.sent) + [Failure, Success]
            && DuesAfter(p, u, DuesAfter(p, t, DuesAfter(p, s, [], Receives(ProgramRequest(Shell, true))),
                                      Receives(OtherRequest(Unknown, true))), Accepts)
            == [Some(Success), Some(Failure)]
  {
    hide Unsent, Answers, Connection, Decide;
    ProgramWaits(p, s);
    RefusalOvertakes(p, Do(p, s, Receives(ProgramRequest(Shell, true))).value);
    AnswersSnoc(s.sent, Failure);
    AnswersSnoc(s.sent + [Failure], Success);
    assert Answers(s.sent) + [Failure] + [Success] == Answers(s.sent) + [Failure, Success];
    hide Do;
    DecidedLate([], [None], [None, Some(Failure)]);
  }

  lemma DecidedLate(none: Dues, waiting: Dues, both: Dues)
    requires none == [] && waiting == [None] && both == [None, Some(Failure)]
    ensures none + [None] == waiting && waiting + [Some(Failure)] == both
    ensures Decide(both, Success) == [Some(Success), Some(Failure)]
  {
    assert both[..1] == waiting && waiting[..0] == none;
    assert Decide(waiting, Success) == [Some(Success)];
  }

  // --- over runs --------------------------------------------------------------------------------

  lemma ClosingStays(p: Policy, s: Srv, c: Call)
    requires Usable(s) && s.closing && Do(p, s, c).Ok?
    ensures Do(p, s, c).value.closing
  {
    hide Answers, PreAuth, Unsent, Output, OnExit, OnConsumed;
    if Plain(s, c) {
      hide Connection;
      PlainQuietly(p, s, c);
    }
  }

  ghost predicate NeverOvertakes(p: Policy, s: Srv, calls: seq<Call>)
    requires Guarded(p, s)
    decreases |calls|
  {
    if calls == [] then true
    else
      CallGuarded(p, s, calls[0]);
      !Overtakes(s, calls[0]) && (Do(p, s, calls[0]).Ok? ==> NeverOvertakes(p, Do(p, s, calls[0]).value, calls[1..]))
  }

  /** The dues at the end of a run; a call that fails ends it and adds nothing. */
  ghost function DuesOf(p: Policy, s: Srv, dues: Dues, calls: seq<Call>): Dues
    requires Guarded(p, s)
    decreases |calls|
  {
    if calls == [] then dues
    else
      CallGuarded(p, s, calls[0]);
      match Do(p, s, calls[0])
      case Err(_) => dues
      case Ok(t) => DuesOf(p, t, DuesAfter(p, s, dues, calls[0]), calls[1..])
  }

  lemma {:induction false} RunAnswersInOrder(p: Policy, s: Srv, dues: Dues, calls: seq<Call>)
    requires Guarded(p, s) && NeverOvertakes(p, s, calls) && FirstInFirstOut(s, dues)
    ensures FirstInFirstOut(ServerRuns.Run(p, s, calls), DuesOf(p, s, dues, calls))
    decreases |calls|
  {
    hide Do, FirstInFirstOut, Overtakes, DuesAfter, Usable, Gated, Auths, Exhausted;
    if calls != [] {
      CallGuarded(p, s, calls[0]);
      if Do(p, s, calls[0]).Ok? {
        CallAnswersInOrder(p, s, dues, calls[0]);
        RunAnswersInOrder(p, Do(p, s, calls[0]).value, DuesAfter(p, s, dues, calls[0]), calls[1..]);
      }
    }
  }

  lemma CallAnswersInOrder(p: Policy, s: Srv, dues: Dues, c: Call)
    requires Guarded(p, s) && FirstInFirstOut(s, dues) && !Overtakes(s, c) && Do(p, s, c).Ok?
    ensures FirstInFirstOut(Do(p, s, c).value, DuesAfter(p, s, dues, c))
  {
    hide Do, Overtakes, DuesAfter, Gated, Auths, Exhausted, Answers, Settled;
    if s.closing {
      ClosingStays(p, s, c);
    } else {
      AnswersKeptExactly(p, s, dues, c);
    }
  }

  /** From the start of the connection: nothing overtakes a waiting program. */
  ghost predicate Orderly(p: Policy, calls: seq<Call>) {
    NewGuarded(p);
    NeverOvertakes(p, NewServer(), calls)
  }

  ghost function ServedDues(p: Policy, calls: seq<Call>): Dues {
    NewGuarded(p);
    DuesOf(p, NewServer(), [], calls)
  }

  /** In every run in which nothing overtakes a waiting program, and while the server is not
      closing: the k-th answer sent is the one due to the k-th request that wants one, and at
      most the newest such request is without its answer. */
  lemma AnswersInOrder(p: Policy, calls: seq<Call>)
    requires Orderly(p, calls) && !Served(p, calls).closing
    ensures var answers, dues := Answers(Served(p, calls).sent), ServedDues(p, calls);
            && |answers| <= |dues| <= |answers| + 1
            && (|dues| > |answers| <==> Served(p, calls).pendingReply)
            && (forall k :: 0 <= k < |answers| ==> dues[k] == Some(answers[k]))
  {
    hide ServerRuns.Run, NeverOvertakes, DuesOf;
    NewGuarded(p);
    assert FirstInFirstOut(NewServer(), []);
    hide Answers;
    RunAnswersInOrder(p, NewServer(), [], calls);
  }
}
