/** What one direction of a connection carries: the sealing state a log of packets leaves
    behind, and the steps of a sender that keep the log decodable. */
module Stream {
  import opened Bytes
  import opened Framing
  import opened Transport

  /** Largest payload whose packet stays within the receiver's limit. */
  const MAX_PAYLOAD := MAX_PACKET_LENGTH - 32

  /** Cipher and sequence number for the packet after `log`: a NEWKEYS installs the next
      cipher and restarts the numbers, any other packet moves both on. */
  function CipherAfter(log: seq<Frame>): Cipher {
    if log == [] then Plain
    else
      var f := log[|log| - 1];
      if f.kind.NewKeys? then f.kind.next else Advance(f.cipher)
  }

  function SeqAfter(log: seq<Frame>): u32 {
    if log == [] then 0
    else
      var f := log[|log| - 1];
      if f.kind.NewKeys? then 0 else NextSeq(f.seqNr)
  }

  /** Key changes in a log. */
  function Epochs(log: seq<Frame>): nat {
    if log == [] then 0
    else Epochs(log[..|log| - 1]) + (if log[|log| - 1].kind.NewKeys? then 1 else 0)
  }

  datatype Msg = Msg(kind: Kind, payload: seq<byte>)

  predicate IsKex(kind: Kind) { !kind.App? && !kind.DisconnectMsg? }

  function KexMsgs(kind: Kind, payload: seq<byte>): seq<Msg> {
    if IsKex(kind) then [Msg(kind, payload)] else []
  }

  /** The key-exchange messages of a log, in order. */
  function Kexes(log: seq<Frame>): seq<Msg> {
    if log == [] then []
    else Kexes(log[..|log| - 1]) + KexMsgs(log[|log| - 1].kind, log[|log| - 1].payload)
  }

  /** A payload the receiver hands up, or drops as chaff: no transport or key-exchange id. */
  predicate AppLike(p: seq<byte>) {
    && 0 < |p| <= MAX_PAYLOAD
    && p[0] != MSG_DISCONNECT && p[0] != MSG_DEBUG && p[0] != MSG_KEXINIT && p[0] != MSG_NEWKEYS
    && p[0] != MSG_ECDH_INIT && p[0] != MSG_ECDH_REPLY
  }

  predicate Visible(p: seq<byte>) { p != [] && p[0] != MSG_IGNORE }

  /** The payloads among `ps` that surface at the receiver. */
  function Surfacing(ps: seq<seq<byte>>): seq<seq<byte>> {
    if ps == [] then []
    else Surfacing(ps[..|ps| - 1]) + (if Visible(ps[|ps| - 1]) then [ps[|ps| - 1]] else [])
  }

  predicate Fits(kind: Kind, payload: seq<byte>, epoch: nat) {
    && |payload| <= MAX_PAYLOAD
    && match kind
       case App => epoch > 0 && AppLike(payload)
       case NewKeys(_) => payload == [MSG_NEWKEYS]
       case DisconnectMsg => |payload| >= 5 && payload[0] == MSG_DISCONNECT
       case _ => true
  }

  /** The frame continues the log: its sealing state is the one the log leaves. */
  predicate Continues(log: seq<Frame>, f: Frame) {
    && f.cipher == CipherAfter(log) && f.seqNr == SeqAfter(log) && f.epoch == Epochs(log)
    && Fits(f.kind, f.payload, f.epoch)
  }

  predicate Threaded(log: seq<Frame>) {
    log == [] || (Threaded(log[..|log| - 1]) && Continues(log[..|log| - 1], log[|log| - 1]))
  }

  lemma {:induction false} ThreadedAt(log: seq<Frame>, k: nat)
    requires Threaded(log) && k < |log|
    ensures Continues(log[..k], log[k])
  {
    hide Continues;
    if k < |log| - 1 {
      ThreadedAt(log[..|log| - 1], k);
      assert log[..|log| - 1][..k] == log[..k];
    }
  }

  predicate Wired(o: Out) {
    && Threaded(o.log)
    && (!o.closing ==> o.cipher == CipherAfter(o.log) && o.seqNr == SeqAfter(o.log) && o.epoch == Epochs(o.log))
  }

  /** What a step of the sender may do: extend the log, by the key-exchange messages `sent`
      in that order; an endpoint that closes may lose the end of them. */
  predicate Sent(o: Out, p: Out, sent: seq<Msg>) {
    && o.log <= p.log && o.epoch <= p.epoch
    && (Wired(o) ==> Wired(p))
    && (o.closing ==> p.log == o.log && p.closing)
    && Kexes(p.log) <= Kexes(o.log) + sent
    && (!p.closing ==> Kexes(p.log) == Kexes(o.log) + sent)
  }

  lemma SentThen(o: Out, p: Out, q: Out, a: seq<Msg>, b: seq<Msg>)
    requires Sent(o, p, a) && Sent(p, q, b)
    ensures Sent(o, q, a + b)
  {
    hide Wired, Kexes;
    PrefixThen(Kexes(o.log), Kexes(p.log), Kexes(q.log), a, b);
  }

  lemma PrefixThen<T>(o: seq<T>, p: seq<T>, q: seq<T>, a: seq<T>, b: seq<T>)
    requires p <= o + a && q <= p + b
    ensures p == o + a ==> q <= o + (a + b)
    ensures p == o + a && q == p + b ==> q == o + (a + b)
    ensures q == p ==> q <= o + (a + b)
  {
    assert o + a + b == o + (a + b);
  }

  /** Counters a sender may change without writing. */
  lemma SentNothing(o: Out, p: Out)
    requires p.log == o.log && p.epoch == o.epoch && p.cipher == o.cipher && p.seqNr == o.seqNr
    requires o.closing ==> p.closing
    ensures Sent(o, p, [])
  {
    hide Threaded, Kexes, CipherAfter, SeqAfter, Epochs;
    assert Kexes(o.log) + [] == Kexes(o.log);
  }

  lemma KexesSnoc(log: seq<Frame>, f: Frame)
    ensures Kexes(log + [f]) == Kexes(log) + KexMsgs(f.kind, f.payload)
    ensures Epochs(log + [f]) == Epochs(log) + (if f.kind.NewKeys? then 1 else 0)
    ensures Threaded(log) && Continues(log, f) ==> Threaded(log + [f])
    ensures CipherAfter(log + [f]) == (if f.kind.NewKeys? then f.kind.next else Advance(f.cipher))
    ensures SeqAfter(log + [f]) == (if f.kind.NewKeys? then 0 else NextSeq(f.seqNr))
  {
    hide Continues, KexMsgs;
    assert (log + [f])[..|log|] == log;
  }

  /** Writing one packet that does not change keys. */
  lemma SentWrite(o: Out, kind: Kind, payload: seq<byte>)
    requires !kind.NewKeys? && Fits(kind, payload, o.epoch)
    ensures Sent(o, Write(o, kind, payload), KexMsgs(kind, payload))
  {
    hide Threaded, Kexes, CipherAfter, SeqAfter, Epochs, Fits, Advance;
    if o.closing {
      assert Kexes(o.log) <= Kexes(o.log) + KexMsgs(kind, payload);
    } else {
      KexesSnoc(o.log, Frame(kind, o.epoch, o.cipher, o.seqNr, payload, o.drawn));
    }
  }

  /** Writing NEWKEYS and switching to the keys it announces. */
  lemma SentNewKeys(o: Out, next: Cipher)
    ensures Sent(o, Write(o, NewKeys(next), [MSG_NEWKEYS]).(cipher := next, epoch := o.epoch + 1, seqNr := 0),
                 [Msg(NewKeys(next), [MSG_NEWKEYS])])
  {
    hide Threaded, Kexes, CipherAfter, SeqAfter, Epochs, Advance;
    if o.closing {
      assert Kexes(o.log) <= Kexes(o.log) + [Msg(NewKeys(next), [MSG_NEWKEYS])];
    } else {
      KexesSnoc(o.log, Frame(NewKeys(next), o.epoch, o.cipher, o.seqNr, [MSG_NEWKEYS], o.drawn));
    }
  }

  predicate AllAppLike(ps: seq<seq<byte>>) {
    forall i :: 0 <= i < |ps| ==> AppLike(ps[i])
  }

  lemma {:induction false} SentAll(o: Out, payloads: seq<seq<byte>>)
    requires o.epoch > 0 && AllAppLike(payloads)
    ensures Sent(o, WriteAll(o, payloads), [])
    decreases |payloads|
  {
    hide Sent, Write, AppLike;
    if payloads == [] {
      SentNothing(o, o);
    } else {
      var p := Write(o, App, payloads[0]);
      SentWrite(o, App, payloads[0]) by { assert AppLike(payloads[0]); FitsApp(payloads[0], o.epoch); }
      assert o.epoch <= p.epoch by { EpochGrows(o, p, KexMsgs(App, payloads[0])); }
      SentAll(p, payloads[1..]);
      var none: seq<Msg> := [];
      assert none + none == none;
      SentThen(o, p, WriteAll(p, payloads[1..]), [], []);
    }
  }

  lemma FitsApp(p: seq<byte>, epoch: nat)
    requires AppLike(p) && epoch > 0
    ensures Fits(App, p, epoch)
  {
  }

  lemma EpochGrows(o: Out, p: Out, sent: seq<Msg>)
    requires Sent(o, p, sent)
    ensures o.epoch <= p.epoch && (o.closing ==> p.closing) && o.log <= p.log && (Wired(o) ==> Wired(p))
  {
  }
}
