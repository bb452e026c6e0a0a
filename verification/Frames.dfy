/** Outcomes of a connected session, and what its messages decode to. */
module Frames {
  import opened Sessions

  datatype Outcome =
    | Normal
    | ClientClosed
    | IdleTimeout
    | MaxDuration
    | MessageTooBig
    | InvalidTerminalFrame
    | InvalidVNCFrame
    | Backpressure
    | RuntimeUnavailable
    | TargetChanged
    | RuntimeFailed
    | TransportFailed
    | Shutdown
    | InvalidStart

  type Failure = o: Outcome | o != Normal witness Shutdown

  function OutcomeText(o: Outcome): string {
    match o
    case Normal => "normal"
    case ClientClosed => "client_closed"
    case IdleTimeout => "idle_timeout"
    case MaxDuration => "max_duration"
    case MessageTooBig => "message_too_big"
    case InvalidTerminalFrame => "invalid_terminal_frame"
    case InvalidVNCFrame => "invalid_vnc_frame"
    case Backpressure => "backpressure"
    case RuntimeUnavailable => "runtime_unavailable"
    case TargetChanged => "target_changed"
    case RuntimeFailed => "runtime_failed"
    case TransportFailed => "transport_failed"
    case Shutdown => "shutdown"
    case InvalidStart => "invalid_start"
  }

  const STATUS_NORMAL_CLOSURE := 1000
  const STATUS_GOING_AWAY := 1001
  const STATUS_MESSAGE_TOO_BIG := 1009

  /** A socket error is known by its close status, -1 if it has none. */
  function ClassifyTransport(cancelled: bool, status: int): Failure {
    if cancelled then Shutdown
    else if status == STATUS_NORMAL_CLOSURE || status == STATUS_GOING_AWAY then ClientClosed
    else if status == STATUS_MESSAGE_TOO_BIG then MessageTooBig
    else TransportFailed
  }

  datatype RuntimeError = Overrun | Broken

  function ClassifyRuntime(e: RuntimeError): Failure {
    if e.Overrun? then Backpressure else RuntimeFailed
  }

  const MAX_TERMINAL_DIMENSION := 4096

  /** The fields of one strictly decoded JSON object. */
  datatype Fields = Fields(kind: string, data: string, rows: uint16, cols: uint16)

  datatype Message = Message(text: bool, raw: string)

  datatype ClientFrame = Stdin(data: string) | Resize(rows: uint16, cols: uint16)

  /** `json` is the strict decoder: one object, no unknown fields, nothing after it. */
  function DecodeClientFrame(json: string -> Option<Fields>, raw: string, maxStdin: int): Option<ClientFrame> {
    match json(raw)
    case None => None
    case Some(f) =>
      if f.kind == "stdin" then
        if |f.data| > maxStdin then None else Some(Stdin(f.data))
      else if f.kind == "resize" then
        if f.rows == 0 || f.cols == 0 || f.rows > MAX_TERMINAL_DIMENSION || f.cols > MAX_TERMINAL_DIMENSION then None
        else Some(Resize(f.rows, f.cols))
      else
        None
  }

  /** What a message carries to a serial console or a VNC stream. */
  function DecodeBytePayload(json: string -> Option<Fields>, mode: string, m: Message, maxBytes: int)
    : Attempt<string, Failure>
  {
    if mode == MODE_VNC then
      if m.text then Rejected(InvalidVNCFrame) else Accepted(m.raw)
    else if !m.text then
      Rejected(InvalidTerminalFrame)
    else
      match DecodeClientFrame(json, m.raw, maxBytes)
      case Some(Stdin(data)) => Accepted(data)
      case _ => Rejected(InvalidTerminalFrame)
  }

  datatype Attempt<+T, +E> = Accepted(value: T) | Rejected(error: E)

  // ---------------------------------------------------------------- counters

  const TWO_TO_THE_64 := 0x1_0000_0000_0000_0000

  /** What a 64-bit counter shows of a total. */
  function Wrapped(total: int): nat {
    total % TWO_TO_THE_64
  }

  /** Adding to an atomic 64-bit counter. */
  function Added(counter: nat, n: nat): nat {
    (counter + n) % TWO_TO_THE_64
  }

  /** A counter that is n behind a total has caught up once n is added. */
  lemma {:induction false} CatchUp(total: int, n: nat)
    ensures Added(Wrapped(total - n), n) == Wrapped(total)
  {
  }
}
