/** The transport state machine of one endpoint (RFC 4253), as functions on its state:
    identification, key exchange, any number of re-keys, the deferred-packet queue, the
    per-epoch packet cap. Compression is always "none" here. */
module Transport {
  import opened Bytes
  import opened Wire
  import opened Framing
  import opened Kdf
  import Algo
  import Version

  datatype Role = Client | Server
  datatype Phase = NeedPeerVersion | Handshake | Established

  /** The key-exchange family a negotiated name stands for. */
  datatype KexKind = Classical | MlKem

  const REKEY_BYTES: u64 := 0x4000_0000
  const REKEY_PACKETS: u64 := 0x1000_0000
  /** Packets one round may count before the endpoint stops. */
  const EPOCH_HARD_PACKETS := 0x8000_0000
  const DEFAULT_MAX_PEER_REKEYS := 3

  const MSG_DISCONNECT: byte := 1
  const MSG_IGNORE: byte := 2
  const MSG_UNIMPLEMENTED: byte := 3
  const MSG_DEBUG: byte := 4
  const MSG_KEXINIT: byte := 20
  const MSG_NEWKEYS: byte := 21
  const MSG_ECDH_INIT: byte := 30
  const MSG_ECDH_REPLY: byte := 31
  const PROTOCOL_ERROR: u32 := 2

  /** Everything cryptographic or random, as unknown functions. `init`, `respond` and
      `finish` are the three moves of a key exchange, keyed by the random draw they use;
      `cookie` and `noise` are random bytes by draw and position. */
  datatype Suite = Suite(
    prim: Primitives,
    digests: Digests,
    init: (KexKind, nat) -> seq<byte>,
    respond: (KexKind, nat, seq<byte>) -> Option<(seq<byte>, seq<byte>)>,
    finish: (KexKind, nat, seq<byte>) -> Option<seq<byte>>,
    hostBlob: seq<byte>,
    sign: seq<byte> -> seq<byte>,
    verify: (seq<byte>, seq<byte>, seq<byte>) -> bool,
    cookie: (Role, nat, nat) -> byte,
    noise: (Role, nat, nat) -> byte)

  datatype Config = Config(role: Role, ciphers: seq<Name>, compressions: seq<Name>)

  /** Which call wrote a packet. The annotations repeat what the code had at hand: the draw
      of an ephemeral, the cipher installed by a NEWKEYS. */
  datatype Kind =
    | App
    | KexInitMsg
    | EcdhInit(draw: nat)
    | EcdhReply(draw: nat)
    | NewKeys(next: Cipher)
    | DisconnectMsg

  /** One sealed packet: with which key epoch, cipher state and sequence number. */
  datatype Frame = Frame(
    kind: Kind,
    epoch: nat,
    cipher: Cipher,
    seqNr: u32,
    payload: seq<byte>,
    draw: nat)

  datatype Event =
    | ServerHostKey(blob: seq<byte>)
    | Up
    | PacketIn(payload: seq<byte>)
    | Disconnected(reason: u32)

  /** The sending side. `log` is every packet ever sealed; `packets` counts since the last
      completed round; `drawn` counts uses of the random generator. */
  datatype Out = Out(
    log: seq<Frame>,
    epoch: nat,
    cipher: Cipher,
    seqNr: u32,
    packets: nat,
    closing: bool,
    drawn: nat)

  datatype In = In(cipher: Cipher, seqNr: u32, bytes: u64, packets: nat)

  datatype Pending = Pending(out: Cipher, inn: Cipher)

  datatype Ephemeral = Ephemeral(kind: KexKind, draw: nat)

  datatype Kex = Kex(
    localKexinit: seq<byte>,
    peerKexinit: Option<Algo.KexInit>,
    negotiated: Option<Algo.Negotiated>,
    ephemeral: Option<Ephemeral>,
    pending: Option<Pending>,
    sentNewkeys: bool,
    recvNewkeys: bool,
    skipGuess: bool,
    strict: bool,
    initialDone: bool,
    rekeying: bool,
    kexinitSent: bool,
    sessionId: Option<seq<byte>>,
    compOut: Name,
    compIn: Name)

  datatype Limits = Limits(bytes: u64, packets: u64, maxPeerRekeys: u32)

  /** `rounds` is history: what this end hashed in each round it went through with, its own
      ephemeral keys and secret included. */
  datatype State = State(
    cfg: Config,
    phase: Phase,
    out: Out,
    inn: In,
    kex: Kex,
    peerId: Option<seq<byte>>,
    queue: seq<seq<byte>>,
    bytesSince: u64,
    peerRekeys: nat,
    limits: Limits,
    events: seq<Event>,
    rounds: seq<HashInput>)

  // --- writing -----------------------------------------------------------------------

  /** Random padding is drawn by the authenticated ciphers only. */
  function NextDraw(o: Out): nat {
    if o.cipher.Plain? then o.drawn else o.drawn + 1
  }

  /** `write_packet`: seal one payload, unless the endpoint is closing; the packet that
      reaches the cap is the last one. */
  function Write(o: Out, kind: Kind, payload: seq<byte>): Out {
    if o.closing then o
    else
      Out(o.log + [Frame(kind, o.epoch, o.cipher, o.seqNr, payload, o.drawn)], o.epoch, Advance(o.cipher),
          NextSeq(o.seqNr), o.packets + 1, o.packets + 1 >= EPOCH_HARD_PACKETS, NextDraw(o))
  }

  /** Random padding for one packet, by position. */
  function NoiseAt(c: Suite, role: Role, draw: nat): nat -> byte {
    (i: nat) => c.noise(role, draw, i)
  }

  /** The bytes a frame puts on the wire. */
  function FrameBytes(c: Suite, role: Role, f: Frame): (b: seq<byte>)
    ensures |b| > 0
  {
    Seal(c.prim, f.cipher, f.seqNr, f.payload, NoiseAt(c, role, f.draw))
  }

  function WireBytes(c: Suite, role: Role, log: seq<Frame>): seq<byte> {
    if log == [] then []
    else WireBytes(c, role, log[..|log| - 1]) + FrameBytes(c, role, log[|log| - 1])
  }

  function Cookie(c: Suite, role: Role, draw: nat): (b: seq<byte>)
    ensures |b| == 16
  {
    Fill(16, (i: nat) => c.cookie(role, draw, i))
  }

  function KexinitPayload(c: Suite, cfg: Config, draw: nat): seq<byte> {
    Algo.OurPayload(cfg.role.Server?, Cookie(c, cfg.role, draw), cfg.ciphers, cfg.compressions)
  }

  function SendKexinit(c: Suite, s: State): State {
    var payload := KexinitPayload(c, s.cfg, s.out.drawn);
    s.(out := Write(s.out.(drawn := s.out.drawn + 1), KexInitMsg, payload),
       kex := s.kex.(localKexinit := payload, kexinitSent := true))
  }

  function BeginRekeyRound(c: Suite, s: State): State {
    SendKexinit(c, s.(kex := s.kex.(rekeying := true, sentNewkeys := false, recvNewkeys := false,
                                    peerKexinit := None, negotiated := None, ephemeral := None,
                                    skipGuess := false)))
  }

  function InitiateRekey(c: Suite, s: State): State {
    if s.phase.Established? && !s.kex.rekeying then BeginRekeyRound(c, s) else s
  }

  function SaturatingAdd(a: u64, n: nat): u64 {
    if a + n < 0x1_0000_0000_0000_0000 then a + n else 0xFFFF_FFFF_FFFF_FFFF
  }

  /** `send_packet`: refused before the connection is up, deferred during a round. */
  function SendPacket(c: Suite, s: State, payload: seq<byte>): Result<State> {
    if !s.phase.Established? then Err(Protocol)
    else if s.kex.rekeying then Ok(s.(queue := s.queue + [payload]))
    else
      var t := s.(out := Write(s.out, App, payload), bytesSince := SaturatingAdd(s.bytesSince, |payload|));
      Ok(if t.bytesSince >= t.limits.bytes || t.out.packets >= t.limits.packets then InitiateRekey(c, t) else t)
  }

  function IgnorePayload(data: seq<byte>): seq<byte> {
    [MSG_IGNORE] + StringField(data)
  }

  /** A chaff packet with random data; nothing before the connection is up. */
  function SendChaff(c: Suite, s: State, data: seq<byte>): Result<State> {
    if !s.phase.Established? then Ok(s)
    else SendPacket(c, s.(out := s.out.(drawn := s.out.drawn + 1)), IgnorePayload(data))
  }

  function DisconnectPayload(reason: u32, text: seq<byte>): seq<byte> {
    [MSG_DISCONNECT] + Be32(reason) + StringField(text) + StringField([])
  }

  function Disconnect(s: State, reason: u32, text: seq<byte>): State {
    s.(out := Write(s.out, DisconnectMsg, DisconnectPayload(reason, text)).(closing := true))
  }

  // --- key exchange ------------------------------------------------------------------

  function KindOf(kex: Name): KexKind {
    if kex == Algo.Mlkem768() then MlKem else Classical
  }

  function KexKindOf(k: Kex): KexKind {
    if k.negotiated.Some? then KindOf(k.negotiated.value.kex) else Classical
  }

  function SecretOf(kind: KexKind, shared: seq<byte>): Secret {
    if kind.MlKem? then StringSecret(shared) else MpintSecret(shared)
  }

  /** The eight hashed values, each under the name of the side it came from. */
  function RoundInput(role: Role, peerId: seq<byte>, local: seq<byte>, peer: seq<byte>,
                      blob: seq<byte>, qc: seq<byte>, qs: seq<byte>, k: Secret): HashInput {
    if role.Client?
    then HashInput(Version.LocalId(), peerId, local, peer, blob, qc, qs, k)
    else HashInput(peerId, Version.LocalId(), peer, local, blob, qc, qs, k)
  }

  function RoundOf(s: State, blob: seq<byte>, qc: seq<byte>, qs: seq<byte>, k: Secret): HashInput
    requires s.peerId.Some? && s.kex.peerKexinit.Some?
  {
    RoundInput(s.cfg.role, s.peerId.value, s.kex.localKexinit, s.kex.peerKexinit.value.payload, blob, qc, qs, k)
  }

  function RoundHash(c: Suite, s: State, blob: seq<byte>, qc: seq<byte>, qs: seq<byte>, k: Secret): (r: Result<seq<byte>>)
    ensures r.Ok? ==> s.peerId.Some? && s.kex.peerKexinit.Some?
  {
    if s.peerId.None? || s.kex.peerKexinit.None? then Err(Protocol)
    else Ok(ExchangeHash(c.digests, Sha256, RoundOf(s, blob, qc, qs, k)))
  }

  /** Key and IV lengths by cipher name. */
  function KeyLengths(name: Name): Result<(nat, nat)> {
    if name == Algo.ChaCha20Poly1305() then Ok((64, 0))
    else if name == Algo.Aes256Gcm() then Ok((32, 12))
    else Err(NoCommonAlgorithm)
  }

  function MakeCipher(name: Name, key: seq<byte>, iv: seq<byte>): Cipher
    requires KeyLengths(name) == Ok((|key|, |iv|))
  {
    if |iv| == 0 then ChaCha(key[..32], key[32..])
    else Gcm(key, iv[..4], FromBe64(iv[4..]))
  }

  /** The keys of one direction: letters A and C client to server, B and D back. */
  function DirectionCipher(d: Digests, name: Name, k: Secret, h: seq<byte>, sessionId: seq<byte>, c2s: bool): Result<Cipher> {
    var lens :- KeyLengths(name);
    var e := EncodeSecret(k);
    Ok(MakeCipher(name,
        DeriveKey(d, Sha256, e, h, if c2s then 67 else 68, sessionId, lens.0),
        DeriveKey(d, Sha256, e, h, if c2s then 65 else 66, sessionId, lens.1)))
  }

  /** `finish_kex`: the first hash becomes the session id; both directions use the
      client-to-server cipher name. */
  function FinishKex(c: Suite, s: State, h: seq<byte>, k: Secret): Result<State> {
    if s.kex.negotiated.None? then Err(Protocol)
    else
      var n := s.kex.negotiated.value;
      var sid := if s.kex.sessionId.Some? then s.kex.sessionId.value else h;
      var client := s.cfg.role.Client?;
      var out :- DirectionCipher(c.digests, n.cipherC2s, k, h, sid, client);
      var inn :- DirectionCipher(c.digests, n.cipherC2s, k, h, sid, !client);
      Ok(s.(kex := s.kex.(sessionId := Some(sid), pending := Some(Pending(out, inn)),
                          compOut := if client then n.compC2s else n.compS2c,
                          compIn := if client then n.compS2c else n.compC2s)))
  }

  function WriteAll(o: Out, payloads: seq<seq<byte>>): Out
    decreases |payloads|
  {
    if payloads == [] then o else WriteAll(Write(o, App, payloads[0]), payloads[1..])
  }

  /** The state after both NEWKEYS: up on the first round, and clean for the next. */
  function EndRound(s: State): State {
    var up := if s.kex.initialDone then s.(kex := s.kex.(pending := None))
              else s.(kex := s.kex.(pending := None, initialDone := true), phase := Established,
                      events := s.events + [Up]);
    up.(kex := up.kex.(rekeying := false, kexinitSent := false, sentNewkeys := false, recvNewkeys := false),
        bytesSince := 0, inn := up.inn.(bytes := 0, packets := 0),
        out := up.out.(packets := 0))
  }

  /** `maybe_complete_kex`: with both NEWKEYS exchanged, start clean and flush the queue. */
  function MaybeComplete(s: State): State {
    if !(s.kex.sentNewkeys && s.kex.recvNewkeys) then s
    else
      var clean := EndRound(s);
      clean.(out := WriteAll(clean.out, clean.queue), queue := [])
  }

  /** Installing the outbound keys starts a new epoch; strict KEX restarts the numbers. */
  function InstallOut(s: State): State {
    if s.kex.pending.None? then s
    else s.(out := s.out.(cipher := s.kex.pending.value.out, epoch := s.out.epoch + 1),
            kex := s.kex.(pending := Some(s.kex.pending.value.(out := Plain))))
  }

  function SendNewkeys(s: State): State {
    var next := if s.kex.pending.Some? then s.kex.pending.value.out else s.out.cipher;
    var w := s.(out := Write(s.out, NewKeys(next), [MSG_NEWKEYS]));
    var t := InstallOut(w);
    var u := if t.kex.strict then t.(out := t.out.(seqNr := 0)) else t;
    MaybeComplete(u.(kex := u.kex.(sentNewkeys := true)))
  }

  function OnNewkeys(s: State): Result<State> {
    if s.kex.pending.None? then Err(Protocol)
    else
      var p := s.kex.pending.value;
      var t := s.(inn := s.inn.(cipher := p.inn, seqNr := if s.kex.strict then 0 else s.inn.seqNr),
                  kex := s.kex.(pending := Some(p.(inn := Plain)), recvNewkeys := true));
      Ok(MaybeComplete(t))
  }

  /** A round the peer starts: answered with our own KEXINIT, unless there were too many
      in a row. */
  function AnswerRekey(c: Suite, s: State): State {
    if s.phase.Established? && !s.kex.kexinitSent then
      var t := s.(peerRekeys := s.peerRekeys + 1);
      if t.peerRekeys > t.limits.maxPeerRekeys
      then Disconnect(t, PROTOCOL_ERROR, Ascii("re-key rate exceeded"))
      else BeginRekeyRound(c, t)
    else s
  }

  predicate RekeyRefused(s: State) {
    s.phase.Established? && !s.kex.kexinitSent && s.peerRekeys + 1 > s.limits.maxPeerRekeys
  }

  function WrongGuess(peer: Algo.KexInit, n: Algo.Negotiated): bool {
    peer.firstFollows && (peer.kex == [] || peer.kex[0] != n.kex || peer.hostKey == [] || peer.hostKey[0] != n.hostKey)
  }

  /** Parse both KEXINITs and settle the algorithms; the first round also settles whether
      the exchange is strict. */
  function Agree(s: State, payload: seq<byte>): Result<State> {
    var peer :- Algo.Parse(payload);
    var local :- Algo.Parse(s.kex.localKexinit);
    var n :- if s.cfg.role.Client? then Algo.Negotiate(local, peer) else Algo.Negotiate(peer, local);
    var marker := if s.cfg.role.Client? then Algo.StrictServer() else Algo.StrictClient();
    Ok(s.(kex := s.kex.(strict := if s.kex.initialDone then s.kex.strict else marker in peer.kex,
                        skipGuess := WrongGuess(peer, n), negotiated := Some(n), peerKexinit := Some(peer))))
  }

  function SendEcdhInit(c: Suite, s: State): State {
    var kind := KexKindOf(s.kex);
    var draw := s.out.drawn;
    s.(out := Write(s.out.(drawn := draw + 1), EcdhInit(draw), [MSG_ECDH_INIT] + StringField(c.init(kind, draw))),
       kex := s.kex.(ephemeral := Some(Ephemeral(kind, draw))))
  }

  function OnPeerKexinit(c: Suite, s: State, payload: seq<byte>): Result<State> {
    if RekeyRefused(s) then Ok(AnswerRekey(c, s))
    else
      var t :- Agree(AnswerRekey(c, s), payload);
      Ok(if t.cfg.role.Client? then SendEcdhInit(c, t) else t)
  }

  function ReplyPayload(c: Suite, h: seq<byte>, qs: seq<byte>): seq<byte> {
    [MSG_ECDH_REPLY] + StringField(c.hostBlob) + StringField(qs) + StringField(c.sign(h))
  }

  /** The server's half: respond, hash, sign, reply, switch its outbound keys. */
  function Respond(c: Suite, s: State, qc: seq<byte>): Result<State> {
    var kind := KexKindOf(s.kex);
    var draw := s.out.drawn;
    match c.respond(kind, draw, qc)
    case None => Err(KexFailed)
    case Some((qs, shared)) =>
      var k := SecretOf(kind, shared);
      var h :- RoundHash(c, s, c.hostBlob, qc, qs, k);
      var t := s.(out := Write(s.out.(drawn := draw + 1), EcdhReply(draw), ReplyPayload(c, h, qs)),
                  rounds := s.rounds + [RoundOf(s, c.hostBlob, qc, qs, k)]);
      var u :- FinishKex(c, t, h, k);
      Ok(SendNewkeys(u))
  }

  function OnEcdhInit(c: Suite, s: State, payload: seq<byte>): Result<State> {
    if s.kex.skipGuess then Ok(s.(kex := s.kex.(skipGuess := false)))
    else
      var qc :- ReadString(payload, 1);
      Respond(c, s, qc.value)
  }

  /** The client's half: finish with the stored ephemeral, hash, check the signature. */
  function Conclude(c: Suite, s: State, blob: seq<byte>, qs: seq<byte>, sig: seq<byte>): Result<State> {
    if s.kex.ephemeral.None? then Err(Protocol)
    else
      var e := s.kex.ephemeral.value;
      match c.finish(e.kind, e.draw, qs)
      case None => Err(KexFailed)
      case Some(shared) =>
        var k := SecretOf(e.kind, shared);
        var h :- RoundHash(c, s, blob, c.init(e.kind, e.draw), qs, k);
        if !c.verify(blob, h, sig) then Err(KexFailed)
        else
          var t := s.(kex := s.kex.(ephemeral := None), events := s.events + [ServerHostKey(blob)],
                      rounds := s.rounds + [RoundOf(s, blob, c.init(e.kind, e.draw), qs, k)]);
          var u :- FinishKex(c, t, h, k);
          Ok(SendNewkeys(u))
  }

  function OnEcdhReply(c: Suite, s: State, payload: seq<byte>): Result<State> {
    if s.kex.skipGuess then Ok(s.(kex := s.kex.(skipGuess := false)))
    else
      var blob :- ReadString(payload, 1);
      var qs :- ReadString(payload, blob.next);
      var sig :- ReadString(payload, qs.next);
      Conclude(c, s, blob.value, qs.value, sig.value)
  }

  // --- receiving ---------------------------------------------------------------------

  predicate Housekeeping(id: byte) { id == MSG_IGNORE || id == MSG_DEBUG || id == MSG_UNIMPLEMENTED }

  function OnDisconnect(s: State, payload: seq<byte>): Result<State> {
    var reason :- ReadU32(payload, 1);
    Ok(s.(events := s.events + [Disconnected(reason.value)]))
  }

  /** Application payloads surface once the connection is up, and are an error before. */
  function OnOther(s: State, payload: seq<byte>): Result<State> {
    if s.phase.Established? then Ok(s.(peerRekeys := 0, events := s.events + [PacketIn(payload)]))
    else Err(Protocol)
  }

  function HandlePacket(c: Suite, s: State, payload: seq<byte>): Result<State> {
    if payload == [] then Err(BadPacket)
    else
      var id := payload[0];
      if s.kex.strict && !s.phase.Established? && Housekeeping(id) then Err(Protocol)
      else if id == MSG_IGNORE || id == MSG_DEBUG then Ok(s)
      else if id == MSG_DISCONNECT then OnDisconnect(s, payload)
      else if id == MSG_KEXINIT then OnPeerKexinit(c, s, payload)
      else if id == MSG_ECDH_INIT && s.cfg.role.Server? then OnEcdhInit(c, s, payload)
      else if id == MSG_ECDH_REPLY && s.cfg.role.Client? then OnEcdhReply(c, s, payload)
      else if id == MSG_NEWKEYS then OnNewkeys(s)
      else OnOther(s, payload)
  }

  /** Bookkeeping for one opened packet of `n` wire bytes. */
  function Count(s: State, n: nat): State {
    s.(inn := In(Advance(s.inn.cipher), NextSeq(s.inn.seqNr), SaturatingAdd(s.inn.bytes, n), s.inn.packets + 1))
  }

  function AutoRekey(c: Suite, s: State): State {
    if s.phase.Established? && (s.inn.bytes >= s.limits.bytes || s.inn.packets >= s.limits.packets)
    then InitiateRekey(c, s) else s
  }

  /** One opened packet: count it, refuse an overlong epoch, handle it, maybe re-key. */
  function Accept(c: Suite, s: State, payload: seq<byte>, n: nat): Result<State> {
    var t := Count(s, n);
    if t.inn.packets >= EPOCH_HARD_PACKETS then Err(Protocol)
    else
      var u :- HandlePacket(c, t, payload);
      Ok(AutoRekey(c, u))
  }

  datatype Step = Wait | Fail(error: Error) | Took(state: State, consumed: nat)

  function ReadVersion(s: State, rx: seq<byte>): (r: Step)
    ensures r.Took? ==> 0 < r.consumed <= |rx|
  {
    match Version.Parse(rx, s.cfg.role.Client?)
    case Err(e) => Fail(e)
    case Ok(Incomplete) => Wait
    case Ok(Identified(raw, n)) => Took(s.(peerId := Some(raw), phase := Handshake), n)
  }

  /** One turn of the receive loop on the unread bytes. */
  function DriveOnce(c: Suite, s: State, rx: seq<byte>): (r: Step)
    ensures r.Took? ==> 0 < r.consumed <= |rx|
  {
    if s.phase.NeedPeerVersion? then ReadVersion(s, rx)
    else
      match Open(c.prim, s.inn.cipher, s.inn.seqNr, rx)
      case Err(e) => Fail(e)
      case Ok(NeedMore) => Wait
      case Ok(Packet(payload, n)) =>
        match Accept(c, s, payload, n)
        case Err(e) => Fail(e)
        case Ok(t) => Took(t, n)
  }

  // --- starting ----------------------------------------------------------------------

  function Initial(cfg: Config): State {
    State(cfg, NeedPeerVersion, Out([], 0, Plain, 0, 0, false, 0), In(Plain, 0, 0, 0),
          Kex([], None, None, None, None, false, false, false, false, false, false, false, None,
              Ascii("none"), Ascii("none")),
          None, [], 0, 0, Limits(REKEY_BYTES, REKEY_PACKETS, DEFAULT_MAX_PEER_REKEYS), [], [])
  }

  /** A new endpoint has its KEXINIT queued behind its identification line. */
  function Start(c: Suite, cfg: Config): State {
    SendKexinit(c, Initial(cfg))
  }
}
