/** The invariant of two honest endpoints seen from either end. */
module Paired {
  import opened Bytes
  import opened Transport
  import opened Stream
  import opened Lockstep
  import opened Rounds
  import opened Joint
  import opened Delivery
  import Version
  import Safety

  datatype Pair = Pair(client: State, server: State) {
    function Get(role: Role): State { if role.Client? then client else server }
    function Set(role: Role, s: State): Pair { if role.Client? then this.(client := s) else this.(server := s) }
  }

  function Other(role: Role): Role { if role.Client? then Server else Client }

  /** Where the two ends are: their stages, the server's draw of a reply under way, and how
      many packets of its peer each has taken. */
  datatype Where = Where(ga: Stage, gb: Stage, ds: nat, ka: nat, kb: nat)

  function Cursor(w: Where, role: Role): nat { if role.Client? then w.ka else w.kb }
  function StageOf(w: Where, role: Role): Stage { if role.Client? then w.ga else w.gb }

  /** The stage of one end after a call that can at most start a round. */
  function Restaged(w: Where, role: Role, s: State): Where {
    if role.Client? then w.(ga := Now(w.ga, s)) else w.(gb := Now(w.gb, s))
  }

  /** Key-exchange messages still to reach the endpoint. */
  function Inbound(c: Suite, t: Terms, p: Pair, w: Where, role: Role): seq<Msg> {
    if role.Client? then ToClient(c, t, p.client, p.server, w.ga, w.gb, w.ds)
    else ToServer(c, p.client, p.server, w.ga, w.gb)
  }

  ghost predicate Core(c: Suite, t: Terms, p: Pair, w: Where) {
    && Lock(c, t, p.client, p.server, w.ga, w.gb, w.ds)
    && Ready(p.client) && Ready(p.server)
    && Wired(p.client.out) && Wired(p.server.out)
    && Taken(p.server.out.log, p.client, w.ka) && Taken(p.client.out.log, p.server, w.kb)
  }

  /** One end went to state `r`: it sent `sent`, and its peer has taken what it had taken. */
  ghost predicate Went(c: Suite, t: Terms, p: Pair, w: Where, role: Role, r: State, w': Where, sent: seq<Msg>) {
    && Core(c, t, p.Set(role, r), w')
    && Cursor(w', Other(role)) == Cursor(w, Other(role))
    && Sent(p.Get(role).out, r.out, sent)
    && Inbound(c, t, p.Set(role, r), w', Other(role)) == Inbound(c, t, p, w, Other(role)) + sent
  }

  lemma TakenGrows(log: seq<Frame>, log': seq<Frame>, s: State, k: nat)
    requires Taken(log, s, k) && log <= log'
    ensures Taken(log', s, k)
  {
    hide CipherAfter, SeqAfter, Epochs, Surfacing, PacketsIn, Safety.Apps;
    assert log'[..k] == log[..k];
  }

  lemma FlightGrows(o: Out, p: Out, k: nat, msgs: seq<Msg>, sent: seq<Msg>)
    requires Flight(o, k, msgs) && Sent(o, p, sent)
    ensures Flight(p, k, msgs + sent)
  {
    hide Kexes, Wired;
    assert p.log[..k] == o.log[..k];
    var before := Kexes(o.log[..k]);
    PrefixThen(before, Kexes(o.log), Kexes(p.log), msgs, sent);
  }

  /** A call that can at most start a round. */
  lemma CallWent(c: Suite, t: Terms, p: Pair, w: Where, role: Role, r: State)
    requires Core(c, t, p, w) && Stayed(t, p.Get(role), StageOf(w, role), r)
    ensures Went(c, t, p, w, role, r, Restaged(w, role, r), OfferIf(StageOf(w, role), r))
    ensures Inbound(c, t, p.Set(role, r), Restaged(w, role, r), role) == Inbound(c, t, p, w, role)
    ensures Cursor(Restaged(w, role, r), role) == Cursor(w, role)
  {
    hide Lock, Ready, Wired, Taken, ToServer, ToClient, OfferIf, Sent, InStage;
    var s := p.Get(role);
    var g := StageOf(w, role);
    StayedFacts(t, s, g, r);
    EpochGrows(s.out, r.out, OfferIf(g, r));
    if role.Client? {
      ClientStayed(c, t, p.client, p.server, w.ga, w.gb, w.ds, r);
      TakenStayed(t, s, g, r, p.server.out.log, w.ka);
      TakenGrows(p.client.out.log, r.out.log, p.server, w.kb);
    } else {
      ServerStayed(c, t, p.client, p.server, w.ga, w.gb, w.ds, r);
      TakenStayed(t, s, g, r, p.client.out.log, w.kb);
      TakenGrows(p.server.out.log, r.out.log, p.client, w.ka);
    }
  }

  /** Taking the next packet of the peer. */
  lemma TakeWent(c: Suite, t: Terms, p: Pair, w: Where, role: Role, n: nat) returns (w': Where, sent: seq<Msg>)
    requires Honest(c) && ValidTerms(t) && Core(c, t, p, w)
    requires !p.Get(role).phase.NeedPeerVersion?
    requires var o := p.Get(Other(role)).out;
             Cursor(w, role) < |o.log| && Flight(o, Cursor(w, role), Inbound(c, t, p, w, role))
    ensures var s, o, k := p.Get(role), p.Get(Other(role)).out, Cursor(w, role);
            var r := Accept(c, s, o.log[k].payload, n);
            if r.Err? then Excused(t, s)
            else Went(c, t, p, w, role, r.value, w', sent) && Cursor(w', role) == k + 1 && !r.value.phase.NeedPeerVersion?
                 && (r.value.out.closing || Flight(o, k + 1, Inbound(c, t, p.Set(role, r.value), w', role)))
  {
    hide Lock, Ready, Taken, ToServer, ToClient, Accept, Sent, Threaded, Flight, Honest, ValidTerms, Excused;
    var k := Cursor(w, role);
    w', sent := w, [];
    if role.Client? {
      var gr, out := ClientAccepts(c, t, p.client, p.server, w.ga, w.gb, w.ds, k, n);
      var r := Accept(c, p.client, p.server.out.log[k].payload, n);
      if r.Ok? {
        w', sent := w.(ga := gr, ka := k + 1), out;
        EpochGrows(p.client.out, r.value.out, sent);
        TakenGrows(p.client.out.log, r.value.out.log, p.server, w.kb);
      }
    } else {
      var gr, ds', out := ServerAccepts(c, t, p.client, p.server, w.ga, w.gb, w.ds, k, n);
      var r := Accept(c, p.server, p.client.out.log[k].payload, n);
      if r.Ok? {
        w', sent := w.(gb := gr, kb := k + 1, ds := ds'), out;
        EpochGrows(p.server.out, r.value.out, sent);
        TakenGrows(p.server.out.log, r.value.out.log, p.client, w.ka);
      }
    }
  }

  /** The identification line starts the packets. */
  lemma GreetedWent(c: Suite, t: Terms, p: Pair, w: Where, role: Role)
    requires Core(c, t, p, w) && p.Get(role).phase.NeedPeerVersion?
    ensures var r := p.Get(role).(peerId := Some(Version.LocalId()), phase := Handshake);
            && Went(c, t, p, w, role, r, w, []) && Cursor(w, role) == 0
            && Inbound(c, t, p.Set(role, r), w, role) == Inbound(c, t, p, w, role)
  {
    hide Ready, Wired, Taken, ToServer, ToClient, Sent, InStage;
    var s := p.Get(role);
    var r := s.(peerId := Some(Version.LocalId()), phase := Handshake);
    SentNothing(s.out, r.out);
    GreetedStage(t, s, StageOf(w, role));
    GreetedReady(s, r);
    assert r.kex == s.kex && r.cfg == s.cfg;
    var p' := p.Set(role, r);
    GreetedMessages(c, t, p, p', w);
    if role.Client? {
      GreetedTaken(p.server.out.log, s, r, w.ka);
    } else {
      GreetedTaken(p.client.out.log, s, r, w.kb);
    }
    assert Inbound(c, t, p, w, Other(role)) + [] == Inbound(c, t, p, w, Other(role));
  }

  lemma GreetedStage(t: Terms, s: State, g: Stage)
    requires InStage(t, s, g) && s.phase.NeedPeerVersion?
    ensures InStage(t, s.(peerId := Some(Version.LocalId()), phase := Handshake), g)
  {
    hide Agreement, Offer, Version.LocalId;
  }

  lemma GreetedReady(s: State, r: State)
    requires Ready(s) && r == s.(peerId := r.peerId, phase := Handshake)
    ensures Ready(r)
  {
    hide AppLike;
  }

  lemma GreetedTaken(log: seq<Frame>, s: State, r: State, k: nat)
    requires Taken(log, s, k) && s.phase.NeedPeerVersion? && r == s.(peerId := r.peerId, phase := Handshake)
    ensures Taken(log, r, k) && k == 0
  {
    hide CipherAfter, SeqAfter, Surfacing, PacketsIn, Safety.Apps;
  }

  lemma GreetedMessages(c: Suite, t: Terms, p: Pair, p': Pair, w: Where)
    requires p'.client.kex == p.client.kex && p'.server.kex == p.server.kex
    requires p'.client.rounds == p.client.rounds && p'.server.rounds == p.server.rounds
    ensures ToServer(c, p'.client, p'.server, w.ga, w.gb) == ToServer(c, p.client, p.server, w.ga, w.gb)
    ensures ToClient(c, t, p'.client, p'.server, w.ga, w.gb, w.ds) == ToClient(c, t, p.client, p.server, w.ga, w.gb, w.ds)
    ensures Replied(c, t, p'.client, p'.server, w.ds) == Replied(c, t, p.client, p.server, w.ds)
  {
    hide Settle, Agreement;
  }
}
