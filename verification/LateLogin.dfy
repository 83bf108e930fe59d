/** A server that has decided to close for too many attempts still handles the packets that
    were decrypted with the last one. When a login can follow the exhaustion, exactly. */
module LateLogin {
  import opened Bytes
  import opened Channels
  import opened Flow
  import opened Server
  import opened ServerRuns

  predicate Grants(a: Attempt) {
    match a
    case NoMethod(allowed) => allowed
    case Password(right) => right
    case PublicKey(readable, authorized, proof) => readable && authorized && proof == Some(true)
    case _ => false
  }

  /** A request the policy grants, within the cap on requests; whether the server is closing,
      or has exhausted its attempts, makes no difference. */
  predicate LogsIn(p: Policy, s: Srv, c: Call) {
    && s.authenticated.None? && c.Receives? && c.packet.UserAuth?
    && s.authRequests < p.maxRequests && Grants(c.packet.attempt)
  }

  lemma FailureStaysOut(p: Policy, s: Srv)
    ensures SendFailure(p, s).authenticated == s.authenticated
  {
  }

  lemma LoginExactly(p: Policy, s: Srv, c: Call)
    requires Guarded(p, s) && s.authenticated.None? && Do(p, s, c).Ok?
    ensures Do(p, s, c).value.authenticated.Some? <==> LogsIn(p, s, c)
  {
    hide SendFailure, FlushChannel, Consumed, Unsent, Auths, Exhausted, Gated;
    if c.Receives? && c.packet.UserAuth? {
      var t := s.(authRequests := s.authRequests + 1);
      FailureStaysOut(p, t);
      FailureStaysOut(p, Consult(t));
    }
  }

  // --- in the event stream ------------------------------------------------------------------------

  /** A login with an exhaustion somewhere before it. */
  predicate LoginLate(events: seq<Event>) {
    exists i, j :: 0 <= i < j < |events| && events[i].AuthExhausted? && events[j].Authenticated?
  }

  lemma {:induction false} AuthsSome(events: seq<Event>)
    ensures Auths(events) > 0 <==> exists j :: 0 <= j < |events| && events[j].Authenticated?
  {
    if events != [] {
      var n := |events| - 1;
      AuthsSome(events[..n]);
      assert forall j :: 0 <= j < n ==> events[..n][j] == events[j];
      assert forall j :: 0 <= j < |events| ==> j < n || events[j] == events[n];
    }
  }

  lemma {:induction false} ExhaustedSome(events: seq<Event>)
    ensures Exhausted(events) > 0 <==> exists j :: 0 <= j < |events| && events[j].AuthExhausted?
  {
    if events != [] {
      var n := |events| - 1;
      ExhaustedSome(events[..n]);
      assert forall j :: 0 <= j < n ==> events[..n][j] == events[j];
      assert forall j :: 0 <= j < |events| ==> j < n || events[j] == events[n];
    }
  }

  /** Exhaustion comes only before a login, so both together mean a late one. */
  lemma LateByCounts(events: seq<Event>)
    requires Gated(events)
    ensures LoginLate(events) <==> Auths(events) > 0 && Exhausted(events) > 0
  {
    hide Auths, Exhausted, Gated;
    AuthsSome(events);
    ExhaustedSome(events);
    if Auths(events) > 0 && Exhausted(events) > 0 {
      var i :| 0 <= i < |events| && events[i].AuthExhausted?;
      var j :| 0 <= j < |events| && events[j].Authenticated?;
      GatedAt(events, i);
      AuthsSome(events[..i]);
      assert forall k :: 0 <= k < i ==> events[..i][k] == events[k];
    }
  }

  // --- runs --------------------------------------------------------------------------------------

  /** The counters behind an exhaustion. */
  ghost predicate Metered(p: Policy, s: Srv) {
    && Guarded(p, s)
    && s.authFailures <= s.authRequests
    && (Exhausted(s.events) > 0 ==> s.authFailures >= Attempts(p) || s.authRequests > p.maxRequests)
  }

  lemma FailureMetered(p: Policy, s: Srv)
    requires Metered(p, s) && s.authFailures < s.authRequests && s.authenticated.None?
    ensures Metered(p, SendFailure(p, s))
  {
    hide Auths, Exhausted, Gated, Unsent;
    FailureGuarded(p, s);
    NoteCounts(s.events, AuthExhausted);
  }

  lemma FinishMetered(p: Policy, s: Srv, user: User, granted: bool)
    requires Metered(p, s) && s.authFailures < s.authRequests && s.authenticated.None?
    ensures Metered(p, FinishAuth(p, s, user, granted))
  {
    hide Auths, Exhausted, Gated, Unsent, SendFailure;
    FinishGuarded(p, s, user, granted);
    FailureMetered(p, s);
    NoteCounts(s.events, Authenticated(user));
  }

  lemma UserAuthMetered(p: Policy, s: Srv, user: User, a: Attempt)
    requires Metered(p, s) && s.authenticated.None? && OnUserAuth(p, s, user, a).Ok?
    ensures Metered(p, OnUserAuth(p, s, user, a).value)
  {
    hide Auths, Exhausted, Gated, Guarded, SendFailure, FinishAuth;
    var t := s.(authRequests := s.authRequests + 1);
    RequestGuarded(p, s);
    if t.authRequests > p.maxRequests {
      TooManyGuarded(p, t);
    } else {
      var u := Consult(t);
      match a
      case NoMethod(allowed) => FinishMetered(p, u, user, allowed);
      case Password(right) => FinishMetered(p, u, user, right);
      case UnknownMethod => FinishMetered(p, t, user, false);
      case PublicKey(readable, authorized, proof) =>
        FailureMetered(p, t);
        FailureMetered(p, u);
        SendGuarded(p, u, PkOk);
        if proof.Some? {
          FinishMetered(p, u, user, proof.value);
        }
    }
  }

  predicate SameMeters(s: Srv, t: Srv) {
    && t.authFailures == s.authFailures && t.authRequests == s.authRequests
    && t.authenticated == s.authenticated && Exhausted(t.events) == Exhausted(s.events)
  }

  lemma ConnectionSameMeters(p: Policy, s: Srv, packet: Packet)
    requires Guarded(p, s) && Connection(p, s, packet).Ok?
    ensures SameMeters(s, Connection(p, s, packet).value)
  {
    hide Auths, Exhausted, Gated, Programs, Unsent, FlushChannel;
    match packet
    case ProgramRequest(program, _) => NoteCounts(s.events, ProgramAsked(program));
    case ChannelData(bytes) => NoteCounts(s.events, DataIn(bytes));
    case ChannelEof => NoteCounts(s.events, EofIn);
    case ChannelClose => NoteCounts(s.events, Closed);
    case OtherRequest(ask, _) => ResizeCounts(s.events, ask);
    case WindowAdjust(n) =>
      if s.chan.Some? {
        FlushUsable(p, s.(chan := Some(AddRemoteWindow(s.chan.value, n))));
      }
    case _ =>
  }

  /** Nothing but an authentication request moves the counters or logs in. */
  lemma OthersSameMeters(p: Policy, s: Srv, c: Call)
    requires Guarded(p, s) && Do(p, s, c).Ok?
    requires s.authenticated.Some? || !c.Receives? || !c.packet.UserAuth?
    ensures SameMeters(s, Do(p, s, c).value)
  {
    hide Auths, Exhausted, Gated, Programs, Unsent, FlushChannel, Consumed, Connection;
    match c
    case Stdout(data) => WritePrograms(p, s, false, data);
    case Stderr(data) => WritePrograms(p, s, true, data);
    case Exited(status) =>
      if s.chan.Some? {
        FlushUsable(p, s.(chan := Some(s.chan.value.(exitStatus := Some(status), wantClose := true))));
      }
    case Consumes(len) =>
      if s.chan.Some? {
        var (ms, d) := Consumed(s.chan.value, len);
        SendAllSame(s.(chan := Some(d)), ms);
      }
    case Receives(packet) =>
      if s.authenticated.Some? {
        ConnectionSameMeters(p, s, packet);
      }
    case _ =>
  }

  lemma CallMetered(p: Policy, s: Srv, c: Call)
    requires Metered(p, s) && Do(p, s, c).Ok?
    ensures Metered(p, Do(p, s, c).value)
  {
    hide Do, Guarded, Exhausted;
    CallGuarded(p, s, c);
    if s.authenticated.None? && c.Receives? && c.packet.UserAuth? {
      DoesUserAuth(p, s, c.packet.user, c.packet.attempt);
      UserAuthMetered(p, s, c.packet.user, c.packet.attempt);
    } else {
      OthersSameMeters(p, s, c);
    }
  }

  lemma DoesUserAuth(p: Policy, s: Srv, user: User, a: Attempt)
    requires Guarded(p, s) && s.authenticated.None?
    ensures Do(p, s, Receives(UserAuth(user, a))) == OnUserAuth(p, s, user, a)
  {
    hide OnUserAuth, Auths, Exhausted, Gated;
  }

  /** Logged in with an exhaustion behind. */
  predicate Late(s: Srv) { s.authenticated.Some? && Exhausted(s.events) > 0 }

  /** The call that makes it so. */
  predicate LogsInLate(p: Policy, s: Srv, c: Call) { Exhausted(s.events) > 0 && LogsIn(p, s, c) }

  lemma CallLateExactly(p: Policy, s: Srv, c: Call)
    requires Metered(p, s) && Do(p, s, c).Ok?
    ensures Late(Do(p, s, c).value) <==> Late(s) || LogsInLate(p, s, c)
  {
    hide Do, Guarded, Exhausted;
    if s.authenticated.None? && c.Receives? && c.packet.UserAuth? {
      LoginExactly(p, s, c);
      DoesUserAuth(p, s, c.packet.user, c.packet.attempt);
      if LogsIn(p, s, c) {
        GrantedEvents(p, s, c.packet.user, c.packet.attempt);
      }
    } else {
      OthersSameMeters(p, s, c);
    }
  }

  lemma GrantedEvents(p: Policy, s: Srv, user: User, a: Attempt)
    requires s.authenticated.None? && s.authRequests < p.maxRequests && Grants(a)
    ensures var r := OnUserAuth(p, s, user, a);
            r.Ok? && r.value.events == s.events + [Authenticated(user)] && Exhausted(r.value.events) == Exhausted(s.events)
  {
    hide Auths, Exhausted, Gated, SendFailure;
    NoteCounts(s.events, Authenticated(user));
  }

  /** Some call of the run logs in after an exhaustion. */
  ghost predicate EverLogsInLate(p: Policy, s: Srv, calls: seq<Call>)
    requires Guarded(p, s)
    decreases |calls|
  {
    if calls == [] then false
    else
      CallGuarded(p, s, calls[0]);
      match Do(p, s, calls[0])
      case Err(_) => false
      case Ok(t) => LogsInLate(p, s, calls[0]) || EverLogsInLate(p, t, calls[1..])
  }

  lemma {:induction false} RunLateExactly(p: Policy, s: Srv, calls: seq<Call>)
    requires Metered(p, s)
    ensures Metered(p, ServerRuns.Run(p, s, calls))
    ensures Late(ServerRuns.Run(p, s, calls)) <==> Late(s) || EverLogsInLate(p, s, calls)
    decreases |calls|
  {
    hide Do, Metered, Late, LogsInLate, Usable, Gated, Auths, Exhausted;
    assert Guarded(p, s) by { MeteredGuarded(p, s); }
    if calls != [] && Do(p, s, calls[0]).Ok? {
      var t := Do(p, s, calls[0]).value;
      CallMetered(p, s, calls[0]);
      CallLateExactly(p, s, calls[0]);
      CallGuarded(p, s, calls[0]);
      RunLateExactly(p, t, calls[1..]);
    }
  }

  lemma MeteredGuarded(p: Policy, s: Srv)
    requires Metered(p, s)
    ensures Guarded(p, s)
  {
  }

  ghost predicate LogsInLateOn(p: Policy, calls: seq<Call>) {
    NewGuarded(p);
    EverLogsInLate(p, NewServer(), calls)
  }

  /** Every run: a login follows an exhaustion in the event stream if and only if a request
      within the cap is granted after it. */
  lemma LateLoginsExactly(p: Policy, calls: seq<Call>)
    ensures LoginLate(Served(p, calls).events) <==> LogsInLateOn(p, calls)
    ensures Metered(p, Served(p, calls))
  {
    hide ServerRuns.Run, LoginLate, Auths, Exhausted, Gated, EverLogsInLate;
    NewGuarded(p);
    NewMetered(p);
    RunLateExactly(p, NewServer(), calls);
    LateByCounts(Served(p, calls).events);
  }

  lemma NewMetered(p: Policy)
    ensures Metered(p, NewServer()) && !Late(NewServer())
  {
    NewGuarded(p);
  }

  // --- which policies allow it ---------------------------------------------------------------------

  /** A password refused `n` times, then accepted. */
  function Guesses(user: User, n: nat): seq<Call> {
    if n == 0 then [Receives(UserAuth(user, Password(true)))]
    else [Receives(UserAuth(user, Password(false)))] + Guesses(user, n - 1)
  }

  lemma RefusedOnce(p: Policy, s: Srv, user: User)
    requires Guarded(p, s) && s.authenticated.None? && s.authRequests < p.maxRequests
    ensures var r := Do(p, s, Receives(UserAuth(user, Password(false))));
            && r.Ok? && r.value.authenticated.None? && r.value.authFailures == s.authFailures + 1
            && r.value.authRequests == s.authRequests + 1
            && (s.authFailures + 1 >= p.maxAttempts ==> Exhausted(r.value.events) > 0)
  {
    hide Auths, Exhausted, Gated, Unsent;
    NoteCounts(s.events, AuthExhausted);
  }

  lemma {:induction false} GuessesLogInLate(p: Policy, s: Srv, user: User, n: nat)
    requires Guarded(p, s) && s.authenticated.None?
    requires s.authRequests == s.authFailures && s.authFailures + n == Attempts(p) < p.maxRequests
    requires n == 0 ==> Exhausted(s.events) > 0
    ensures EverLogsInLate(p, s, Guesses(user, n))
    decreases n
  {
    hide Gated, Auths, Do, Exhausted;
    var calls := Guesses(user, n);
    CallGuarded(p, s, calls[0]);
    if n == 0 {
      DoesUserAuth(p, s, user, Password(true));
      GrantedEvents(p, s, user, Password(true));
    } else {
      RefusedOnce(p, s, user);
      assert calls[1..] == Guesses(user, n - 1);
      GuessesLogInLate(p, Do(p, s, calls[0]).value, user, n - 1);
    }
  }

  /** A login can follow an exhaustion exactly under the policies that leave room for another
      request when the attempts are used up. */
  lemma PoliciesExactly(p: Policy, user: User)
    ensures (exists calls :: LoginLate(Served(p, calls).events)) <==> Attempts(p) < p.maxRequests
  {
    hide Served, LoginLate, EverLogsInLate, Guarded, Do, Exhausted;
    if Attempts(p) < p.maxRequests {
      NewGuarded(p);
      GuessesLogInLate(p, NewServer(), user, Attempts(p));
      LateLoginsExactly(p, Guesses(user, Attempts(p)));
    }
    forall calls | LoginLate(Served(p, calls).events) ensures Attempts(p) < p.maxRequests {
      NewGuarded(p);
      LateLoginsExactly(p, calls);
      NewMetered(p);
      LateNeedsRoom(p, NewServer(), calls);
    }
  }

  lemma {:induction false} LateNeedsRoom(p: Policy, s: Srv, calls: seq<Call>)
    requires Metered(p, s) && EverLogsInLate(p, s, calls)
    ensures Attempts(p) < p.maxRequests
    decreases |calls|
  {
    hide Do, Gated, Auths, Exhausted;
    CallGuarded(p, s, calls[0]);
    if !LogsInLate(p, s, calls[0]) {
      CallMetered(p, s, calls[0]);
      LateNeedsRoom(p, Do(p, s, calls[0]).value, calls[1..]);
    }
  }
}
