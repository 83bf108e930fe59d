/** Runs of one endpoint: the receive loop over whole reads, and any mixture of local calls
    and peer bytes. */
module Runs {
  import opened Bytes
  import opened Transport

  /** Where a read leaves the endpoint: its state, the bytes not yet consumed, and the error
      that ended it, if one did. */
  datatype Driven = Driven(state: State, rest: seq<byte>, error: Option<Error>)

  /** The receive loop: packets are taken until more bytes are needed, the endpoint decides
      to close, or something is wrong. */
  function Drive(c: Suite, s: State, rx: seq<byte>): Driven
    decreases |rx|
  {
    if s.out.closing then Driven(s, rx, None)
    else
      match DriveOnce(c, s, rx)
      case Wait => Driven(s, rx, None)
      case Fail(e) => Driven(s, rx, Some(e))
      case Took(t, n) => Drive(c, t, rx[n..])
  }

  /** `on_input`: a closing endpoint neither reads nor keeps the bytes. */
  function OnInput(c: Suite, s: State, rx: seq<byte>, data: seq<byte>): Driven {
    if s.out.closing then Driven(s, rx, None) else Drive(c, s, rx + data)
  }

  datatype Action =
    | Send(payload: seq<byte>)
    | Chaff(data: seq<byte>)
    | Rekey
    | Hangup(reason: u32, text: seq<byte>)
    | SetRekeyLimits(bytes: u64, packets: u64)
    | SetMaxPeerRekeys(n: u32)
    | Input(data: seq<byte>)

  /** One endpoint under its driver. `accepted` lists the payloads `send_packet` took. An
      error from the peer's bytes ends the connection. */
  datatype Endpoint = Endpoint(state: State, rx: seq<byte>, accepted: seq<seq<byte>>, failed: bool)

  function Accepting(e: Endpoint, r: Result<State>, payload: seq<byte>): Endpoint {
    match r
    case Ok(t) => e.(state := t, accepted := e.accepted + [payload])
    case Err(_) => e
  }

  function Act(c: Suite, e: Endpoint, a: Action): Endpoint {
    if e.failed then e
    else
      match a
      case Send(payload) => Accepting(e, SendPacket(c, e.state, payload), payload)
      case Chaff(data) =>
        if e.state.phase.Established?
        then Accepting(e, SendChaff(c, e.state, data), IgnorePayload(data))
        else e
      case Rekey => e.(state := InitiateRekey(c, e.state))
      case Hangup(reason, text) =>
        if e.state.out.closing then e else e.(state := Disconnect(e.state, reason, text))
      case SetRekeyLimits(b, p) => e.(state := e.state.(limits := e.state.limits.(bytes := b, packets := p)))
      case SetMaxPeerRekeys(n) => e.(state := e.state.(limits := e.state.limits.(maxPeerRekeys := n)))
      case Input(data) =>
        var d := OnInput(c, e.state, e.rx, data);
        e.(state := d.state, rx := d.rest, failed := d.error.Some?)
  }

  function Launch(c: Suite, cfg: Config): Endpoint {
    Endpoint(Start(c, cfg), [], [], false)
  }

  function Run(c: Suite, e: Endpoint, actions: seq<Action>): Endpoint
    decreases |actions|
  {
    if actions == [] then e else Run(c, Act(c, e, actions[0]), actions[1..])
  }
}
