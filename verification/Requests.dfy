/** The requests of one session, from the client that asks to the server that answers and back:
    answers carry no name, so the client takes each for the oldest request that waits. */
module Requests {
  import opened Bytes
  import opened Channels
  import opened Flow
  import opened Server
  import opened ServerRuns
  import opened Replies
  import Seqs
  import C = Client

  function ProgramOf(request: C.Request): Program {
    match request
    case Exec(command) => Exec(command)
    case Shell => Shell
  }

  function PtyPacket(t: Pty): Packet {
    OtherRequest(Terminal(t.term, t.cols, t.rows, t.widthPx, t.heightPx, t.modes), true)
  }

  /** The requests among what the client hands to its transport, as the server reads them; each
      wants a reply. */
  function Asked(sent: seq<C.Outgoing>): seq<Packet>
    decreases |sent|
  {
    if sent == [] then []
    else
      (match sent[0]
       case PtyRequest(t) => [PtyPacket(t)]
       case SessionRequest(request) => [ProgramRequest(ProgramOf(request), true)]
       case _ => [])
      + Asked(sent[1..])
  }

  /** The client hears the answers in the order they were sent. */
  function Hears(c: C.Cli, answers: seq<Reply>): C.Cli
    decreases |answers|
  {
    if answers == [] then c
    else Hears(if answers[0].Success? then C.OnSuccess(c) else C.OnFailure(c), answers[1..])
  }

  lemma {:induction false} NothingAsked(ms: seq<Msg>)
    ensures Asked(C.Channeled(ms)) == []
    decreases |ms|
  {
    if ms != [] {
      assert C.Channeled(ms)[1..] == C.Channeled(ms[1..]);
      NothingAsked(ms[1..]);
    }
  }

  /** A client with a session to ask for, whose channel was requested. */
  ghost predicate Asking(c: C.Cli) {
    C.Usable(c) && !c.closing && c.chan.Some? && c.pending.Some? && c.replies == []
  }

  /** A server whose channel is open and idle. */
  ghost predicate Attentive(p: Policy, s: Srv) {
    Guarded(p, s) && s.authenticated.Some? && s.chan.Some? && !s.closing && !s.pendingReply && !s.programStarted
  }

  lemma FlushTail(c: C.Cli, cap: Option<u32>) returns (ms: seq<Msg>)
    requires C.Usable(c) && !c.closing && c.chan.Some?
    ensures var d := C.FlushChannel(c, cap); d == c.(chan := d.chan, sent := c.sent + C.Channeled(ms)) && d.chan.Some?
  {
    hide Unsent, ClientFlush;
    ms := ClientFlush(c.chan.value, cap).0;
  }

  lemma AskedSplit(c: C.Cli, first: seq<C.Outgoing>, request: C.Request, ms: seq<Msg>)
    requires |first| <= 1 && (first != [] ==> first[0].PtyRequest?)
    ensures var sent := c.sent + first + [C.SessionRequest(request)] + C.Channeled(ms);
            Asked(sent[|c.sent|..]) == (if first != [] then [PtyPacket(first[0].pty)] else [])
                                       + [ProgramRequest(ProgramOf(request), true)]
  {
    var tail := [C.SessionRequest(request)] + C.Channeled(ms);
    assert (c.sent + first + [C.SessionRequest(request)] + C.Channeled(ms))[|c.sent|..] == first + tail;
    assert tail[1..] == C.Channeled(ms);
    NothingAsked(ms);
    if first != [] {
      assert (first + tail)[1..] == tail;
    } else {
      assert first + tail == tail;
    }
  }

  /** On confirmation the client asks for the terminal it wants, and then for its session. */
  lemma ConfirmedAsks(c: C.Cli, window: u32, maxPacket: u32, cap: Option<u32>)
    requires Asking(c)
    ensures var d := C.OnConfirmation(c, window, maxPacket, cap);
            && c.sent <= d.sent && d.chan.Some? && d.notices == c.notices + [C.ChannelReady]
            && d.replies == (if c.wantPty.Some? then [C.PtyReply] else []) + [C.SessionReply]
            && Asked(d.sent[|c.sent|..])
               == (if c.wantPty.Some? then [PtyPacket(c.wantPty.value)] else [])
                  + [ProgramRequest(ProgramOf(c.pending.value), true)]
  {
    hide Unsent, Asked, C.FlushChannel;
    var first := if c.wantPty.Some? then [C.PtyRequest(c.wantPty.value)] else [];
    var ready := C.Tell(c.(chan := Some(SetRemote(c.chan.value, window, maxPacket))), C.ChannelReady);
    assert c.sent + [] == c.sent && c.replies + [C.PtyReply] == [C.PtyReply];
    var ms := FlushTail(C.AskSession(C.AskPty(ready)), cap);
    AskedSplit(c, first, c.pending.value, ms);
    assert c.sent <= c.sent + first + [C.SessionRequest(c.pending.value)] + C.Channeled(ms);
  }

  /** The answer to a terminal request: granted where the policy allows one, and then the
      channel holds exactly what was asked for. */
  lemma TerminalAnswered(p: Policy, s: Srv, t: Pty) returns (u: Srv)
    requires Attentive(p, s)
    ensures Do(p, s, Receives(PtyPacket(t))) == Ok(u) && Attentive(p, u) && Guarded(p, u)
    ensures Answers(u.sent) == Answers(s.sent) + [if p.allowPty then Success else Failure]
    ensures u.chan == (if p.allowPty then Some(s.chan.value.(pty := Some(t))) else s.chan) && u.events == s.events
  {
    hide Unsent, Answers, Gated, Auths, Exhausted;
    CallGuarded(p, s, Receives(PtyPacket(t)));
    u := Do(p, s, Receives(PtyPacket(t))).value;
    AnswersSnoc(s.sent, if p.allowPty then Success else Failure);
  }

  /** The answer to the session request is the driver's decision. */
  lemma SessionAnswered(p: Policy, s: Srv, program: Program, accept: bool) returns (u: Srv, v: Srv)
    requires Attentive(p, s)
    ensures Do(p, s, Receives(ProgramRequest(program, true))) == Ok(u) && Guarded(p, u)
    ensures Do(p, u, if accept then Accepts else Rejects) == Ok(v) && Guarded(p, v)
    ensures Answers(v.sent) == Answers(s.sent) + [if accept then Success else Failure]
    ensures v.chan == s.chan && v.events == s.events + [ProgramAsked(program)]
  {
    hide Unsent, Answers, Gated, Auths, Exhausted;
    CallGuarded(p, s, Receives(ProgramRequest(program, true)));
    u := Do(p, s, Receives(ProgramRequest(program, true))).value;
    CallGuarded(p, u, if accept then Accepts else Rejects);
    v := Do(p, u, if accept then Accepts else Rejects).value;
    AnswersSnoc(s.sent, if accept then Success else Failure);
  }

  lemma RunOne(p: Policy, s: Srv, c: Call, rest: seq<Call>)
    requires Guarded(p, s) && Do(p, s, c).Ok? && Guarded(p, Do(p, s, c).value)
    ensures ServerRuns.Run(p, s, [c] + rest) == ServerRuns.Run(p, Do(p, s, c).value, rest)
  {
    hide Do, Guarded;
    assert ([c] + rest)[1..] == rest;
    GuardedUsable(p, s);
    CallGuarded(p, s, c);
  }

  /** What the server has done once the requests have arrived and its driver has decided. */
  ghost function Decided(p: Policy, s: Srv, asked: seq<Packet>, accept: bool): Srv
    requires Guarded(p, s)
  {
    ServerRuns.Run(p, s, Received(asked) + [if accept then Accepts else Rejects])
  }

  lemma DecidedIs(p: Policy, s: Srv, want: Option<Pty>, program: Program, accept: bool)
    requires Attentive(p, s)
    ensures var asked := (if want.Some? then [PtyPacket(want.value)] else []) + [ProgramRequest(program, true)];
            var v := Decided(p, s, asked, accept);
            && Answers(v.sent) == Answers(s.sent) + (if want.Some? then [if p.allowPty then Success else Failure] else [])
                                  + [if accept then Success else Failure]
            && v.chan == Some(s.chan.value.(pty := if want.Some? && p.allowPty then want else s.chan.value.pty))
            && v.events == s.events + [ProgramAsked(program)]
  {
    hide Do, ServerRuns.Run, Answers, Guarded;
    var last := [if accept then Accepts else Rejects];
    var ask := Receives(ProgramRequest(program, true));
    var t := s;
    if want.Some? {
      t := TerminalAnswered(p, s, want.value);
      RunOne(p, s, Receives(PtyPacket(want.value)), [ask] + last);
      assert Received([PtyPacket(want.value)] + [ProgramRequest(program, true)]) + last
          == [Receives(PtyPacket(want.value))] + ([ask] + last);
    } else {
      assert Received([] + [ProgramRequest(program, true)]) + last == [ask] + last;
      assert Answers(s.sent) + [] == Answers(s.sent);
    }
    var u, v := SessionAnswered(p, t, program, accept);
    RunOne(p, t, ask, last);
    RunOne(p, u, last[0], []);
    assert last == [last[0]] + [];
    RunNone(p, v);
  }

  lemma RunNone(p: Policy, s: Srv)
    requires Guarded(p, s)
    ensures ServerRuns.Run(p, s, []) == s
  {
    hide Do, Guarded;
  }

  /** What the client is told of its requests. */
  function Told(want: bool, allowPty: bool, accept: bool): seq<C.Notice> {
    (if !want then [] else if allowPty then [C.PtyGranted] else [C.PtyRefused])
    + (if accept then [] else [C.RequestFailed, C.ChannelGone])
  }

  lemma HearsPty(c: C.Cli, answer: Reply, rest: seq<Reply>)
    requires c.replies == [C.PtyReply, C.SessionReply]
    ensures Hears(c, [answer] + rest)
         == Hears(c.(replies := [C.SessionReply],
                     notices := c.notices + [if answer.Success? then C.PtyGranted else C.PtyRefused]), rest)
  {
    hide C.GiveUp;
    var answers := [answer] + rest;
    assert answers[1..] == rest && c.replies[1..] == [C.SessionReply];
    assert Hears(c, answers) == Hears(if answer.Success? then C.OnSuccess(c) else C.OnFailure(c), rest);
  }

  lemma HearsBoth(c: C.Cli, want: bool, allowPty: bool, accept: bool)
    requires c.replies == (if want then [C.PtyReply] else []) + [C.SessionReply] && c.chan.Some?
    ensures var d := Hears(c, (if want then [if allowPty then Success else Failure] else [])
                              + [if accept then Success else Failure]);
            && d.replies == [] && (d.chan.Some? <==> accept)
            && d.notices == c.notices + Told(want, allowPty, accept)
  {
    hide Hears;
    var answer := if accept then Success else Failure;
    var ending := if accept then [] else [C.RequestFailed, C.ChannelGone];
    if want {
      var first := if allowPty then Success else Failure;
      var told := if allowPty then C.PtyGranted else C.PtyRefused;
      HearsPty(c, first, [answer]);
      HearsOne(c.(replies := [C.SessionReply], notices := c.notices + [told]), answer);
      Seqs.Assoc(c.notices, [told], ending);
    } else {
      assert [] + ending == ending;
      assert [] + [answer] == [answer];
      HearsOne(c, answer);
    }
  }

  lemma HearsOne(c: C.Cli, answer: Reply)
    requires c.replies == [C.SessionReply] && c.chan.Some?
    ensures Hears(c, [answer]) == if answer.Success? then C.OnSuccess(c) else C.OnFailure(c)
    ensures var d := Hears(c, [answer]);
            && d.replies == [] && (d.chan.Some? <==> answer.Success?)
            && d.notices == c.notices + (if answer.Success? then [] else [C.RequestFailed, C.ChannelGone])
  {
    var none: seq<Reply> := [];
    var d := if answer.Success? then C.OnSuccess(c) else C.OnFailure(c);
    assert [answer][1..] == none && Hears(d, none) == d;
    assert c.replies[1..] == [];
    assert c.notices + [C.RequestFailed] + [C.ChannelGone] == c.notices + [C.RequestFailed, C.ChannelGone];
  }

  /** The client's session, end to end. Its requests never cross: the terminal is granted to it
      exactly when the server's policy allows one, and then the server holds the very terminal
      it asked for; the program that surfaces is the one it asked for; and it learns of the
      driver's refusal, and of nothing else, as the end of its session. */
  lemma AskedAndAnswered(p: Policy, s: Srv, c: C.Cli, window: u32, maxPacket: u32, cap: Option<u32>, accept: bool)
    requires Asking(c) && Attentive(p, s)
    ensures var d := C.OnConfirmation(c, window, maxPacket, cap);
            var v := Decided(p, s, Asked(d.sent[|c.sent|..]), accept);
            && c.sent <= d.sent && Answers(s.sent) <= Answers(v.sent)
            && v.events == s.events + [ProgramAsked(ProgramOf(c.pending.value))]
            && v.chan == Some(s.chan.value.(pty := if c.wantPty.Some? && p.allowPty then c.wantPty else s.chan.value.pty))
            && var e := Hears(d, Answers(v.sent)[|Answers(s.sent)|..]);
               && e.replies == [] && (e.chan.Some? <==> accept)
               && e.notices == c.notices + [C.ChannelReady] + Told(c.wantPty.Some?, p.allowPty, accept)
  {
    hide C.OnConfirmation, Asked, Decided, Hears, Answers, Guarded, C.Usable;
    ConfirmedAsks(c, window, maxPacket, cap);
    DecidedIs(p, s, c.wantPty, ProgramOf(c.pending.value), accept);
    var d := C.OnConfirmation(c, window, maxPacket, cap);
    var first := if c.wantPty.Some? then [if p.allowPty then Success else Failure] else [];
    var answers := first + [if accept then Success else Failure];
    var sent := Answers(Decided(p, s, Asked(d.sent[|c.sent|..]), accept).sent);
    Seqs.Assoc(Answers(s.sent), first, [if accept then Success else Failure]);
    assert sent[|Answers(s.sent)|..] == answers;
    HearsBoth(d, c.wantPty.Some?, p.allowPty, accept);
  }
}
