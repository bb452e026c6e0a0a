/**
 One connected exec session: a writer, a reader, an input pump, one or two output
 pumps, a waiter and a main loop, over bounded queues and one-slot channels.

 Each action is one channel operation or one call that returns; a schedule is any
 sequence of actions, and an action that is not possible changes nothing.
 Histories (what was produced, accepted, written, applied) are kept beside the state.
 */
module ExecStream {
  import opened Sessions
  import opened Frames

  datatype Kind = Stdout | Stderr

  datatype Frame = Output(kind: Kind, data: string) | Exit(code: int)

  datatype Policy = Policy(inboundQueue: nat, outboundQueue: nat, maxMessageBytes: int, json: string -> Option<Fields>)

  /** How a socket write ended: None, or the close status of its error. */
  type WriteEnd = Option<int>

  datatype Writer =
    | Ready
    | Writing(frame: Frame)
    | Wrote(frame: Frame, end: WriteEnd)
    | Acked(frame: Frame, end: WriteEnd)
    | Counted
    | Stopped

  /** The outbound side.  `accepted`, `wire` and `lost` are histories. */
  datatype Outbound = Outbound(
    queue: seq<Frame>,
    writer: Writer,
    ack: Option<WriteEnd>,
    bytesOut: nat,
    accepted: seq<Frame>,
    wire: seq<Frame>,
    lost: seq<Frame>)

  /** What a read reports beside its bytes: go on, a quiet end, or a failure. */
  datatype ReadEnd = More | Ended | Failed

  datatype Pump =
    | Reading
    | Offering(chunk: string, end: ReadEnd)
    | Telling(outcome: Failure)
    | Finished

  /** One output stream of the runtime.  `produced`, `chunks` (how many reads returned bytes) and
      `refused` are histories. */
  datatype Source = Source(pump: Pump, produced: string, chunks: nat, refused: string, ended: bool)

  datatype Reader = Listening | Holding(frame: ClientFrame) | Touching | Reporting(outcome: Failure) | Left

  datatype Applier =
    | Free
    | Applying(frame: ClientFrame)
    | Applied(frame: ClientFrame)
    | Credited
    | Complaining(outcome: Failure)
    | Quit

  /** The inbound side.  `messages`, all that the socket delivered, and `received`, `taken`, `turnedAway`,
      `applied` and `failed` are histories. */
  datatype Inbound = Inbound(
    reader: Reader,
    queue: seq<ClientFrame>,
    applier: Applier,
    bytesIn: nat,
    messages: seq<Message>,
    received: seq<ClientFrame>,
    taken: seq<ClientFrame>,
    turnedAway: seq<ClientFrame>,
    applied: seq<ClientFrame>,
    failed: seq<ClientFrame>)

  datatype ExecResult = ExecResult(code: int, failed: bool)

  datatype Waiter = Waiting | Reaped(result: ExecResult) | Gone

  datatype Main = Selecting | Sending(code: int) | Awaiting | Frozen(outcome: Outcome)

  /** The slots between the goroutines.  `cancelled` is the run's context. */
  datatype Control = Control(
    outcomes: Option<Failure>,
    activity: bool,
    completed: Option<ExecResult>,
    cancelled: bool,
    waiter: Waiter,
    main: Main,
    result: Option<ExecResult>)

  datatype World = World(out: Outbound, stdout: Source, stderr: Source, inp: Inbound, ctl: Control)

  /** How a non-blocking send ends: Go takes any ready case, and the default only when none is. */
  datatype Choice = Accept | Cancel | Overflow

  datatype Action =
    | CancelParent
    | WriterTakes
    | WriterQuits
    | WriteReturns(end: WriteEnd)
    | WriterAcks
    | WriterCounts
    | WriterTouches
    | ReadReturns(message: Attempt<Message, int>)
    | ReaderOffers(choice: Choice)
    | ReaderTouches
    | ReaderReports
    | ApplierTakes
    | ApplierQuits
    | ApplyReturns(error: Option<RuntimeError>)
    | ApplierCounts
    | ApplierTouches
    | ApplierReports
    | OutputReturns(kind: Kind, chunk: string, readEnd: ReadEnd)
    | OutputOffers(kind: Kind, choice: Choice)
    | OutputReports(kind: Kind)
    | WaitReturns(result: ExecResult)
    | WaiterSends
    | WaiterQuits
    | MainTakesOutcome
    | MainTakesResult
    | MainTakesActivity
    | IdleFires
    | MaxFires
    | MainStops
    | MainOffersExit(choice: Choice)
    | MainTakesAck
    | MainCancels

  /** A pseudo-terminal has no stderr of its own, so no pump is started for it. */
  function Start(tty: bool): World {
    World(
      Outbound([], Ready, None, 0, [], [], []),
      Source(Reading, "", 0, "", false),
      if tty then Source(Finished, "", 0, "", true) else Source(Reading, "", 0, "", false),
      Inbound(Listening, [], Free, 0, [], [], [], [], [], []),
      Control(None, false, None, false, Waiting, Selecting, None))
  }

  // ------------------------------------------------------------ the channels

  /** signalOutcome: the first outcome stays in the slot. */
  function Signal(c: Control, outcome: Failure): Control {
    if c.outcomes.None? then c.(outcomes := Some(outcome)) else c
  }

  function Touch(c: Control): Control {
    c.(activity := true)
  }

  predicate Allowed(choice: Choice, length: nat, capacity: nat, cancelled: bool) {
    match choice
    case Accept => length < capacity
    case Cancel => cancelled
    case Overflow => capacity <= length && !cancelled
  }

  function Enqueue(o: Outbound, frame: Frame): Outbound {
    o.(queue := o.queue + [frame], accepted := o.accepted + [frame])
  }

  // -------------------------------------------------------------- the writer

  function WriterStep(w: World, a: Action): World {
    var o := w.out;
    match a
    case WriterTakes =>
      if o.writer.Ready? && o.queue != []
      then w.(out := o.(writer := Writing(o.queue[0]), queue := o.queue[1..]))
      else w
    case WriterQuits =>
      if o.writer.Ready? && w.ctl.cancelled then w.(out := o.(writer := Stopped)) else w
    case WriteReturns(end) =>
      if !o.writer.Writing? then w
      else if end.None? then w.(out := o.(writer := Wrote(o.writer.frame, end), wire := o.wire + [o.writer.frame]))
      else w.(out := o.(writer := Wrote(o.writer.frame, end), lost := o.lost + [o.writer.frame]))
    case WriterAcks =>
      if !o.writer.Wrote? then w
      else w.(out := o.(writer := Acked(o.writer.frame, o.writer.end),
                        ack := if o.writer.frame.Exit? then Some(o.writer.end) else o.ack))
    case WriterCounts =>
      if !o.writer.Acked? then w
      else if o.writer.end.Some? then
        w.(out := o.(writer := Stopped), ctl := Signal(w.ctl, ClassifyTransport(w.ctl.cancelled, o.writer.end.value)))
      else
        w.(out := o.(writer := Counted,
                     bytesOut := if o.writer.frame.Output? then Added(o.bytesOut, |o.writer.frame.data|) else o.bytesOut))
    case WriterTouches =>
      if o.writer.Counted? then w.(out := o.(writer := Ready), ctl := Touch(w.ctl)) else w
    case _ => w
  }

  // ------------------------------------------------- the reader and the input

  function ReaderStep(w: World, a: Action, p: Policy): World {
    var i := w.inp;
    match a
    case ReadReturns(message) =>
      if !i.reader.Listening? then w
      else (match message
        case Rejected(status) => w.(inp := i.(reader := Reporting(ClassifyTransport(w.ctl.cancelled, status))))
        case Accepted(m) =>
          var frame := if m.text then DecodeClientFrame(p.json, m.raw, p.maxMessageBytes) else None;
          var heard := i.(messages := i.messages + [m]);
          if frame.None? then w.(inp := heard.(reader := Reporting(InvalidTerminalFrame)))
          else w.(inp := heard.(reader := Holding(frame.value), received := i.received + [frame.value])))
    case ReaderOffers(choice) =>
      if !i.reader.Holding? || !Allowed(choice, |i.queue|, p.inboundQueue, w.ctl.cancelled) then w
      else (match choice
        case Accept =>
          w.(inp := i.(reader := Touching, queue := i.queue + [i.reader.frame], taken := i.taken + [i.reader.frame]))
        case Cancel => w.(inp := i.(reader := Left, turnedAway := i.turnedAway + [i.reader.frame]))
        case Overflow => w.(inp := i.(reader := Reporting(Backpressure), turnedAway := i.turnedAway + [i.reader.frame])))
    case ReaderTouches =>
      if i.reader.Touching? then w.(inp := i.(reader := Listening), ctl := Touch(w.ctl)) else w
    case ReaderReports =>
      if i.reader.Reporting? then w.(inp := i.(reader := Left), ctl := Signal(w.ctl, i.reader.outcome)) else w
    case _ => w
  }

  function ApplierStep(w: World, a: Action): World {
    var i := w.inp;
    match a
    case ApplierTakes =>
      if i.applier.Free? && i.queue != []
      then w.(inp := i.(applier := Applying(i.queue[0]), queue := i.queue[1..]))
      else w
    case ApplierQuits =>
      if i.applier.Free? && w.ctl.cancelled then w.(inp := i.(applier := Quit)) else w
    case ApplyReturns(error) =>
      if !i.applier.Applying? then w
      else if error.Some? then
        w.(inp := i.(applier := Complaining(ClassifyRuntime(error.value)), failed := i.failed + [i.applier.frame]))
      else
        w.(inp := i.(applier := Applied(i.applier.frame), applied := i.applied + [i.applier.frame]))
    case ApplierCounts =>
      if !i.applier.Applied? then w
      else w.(inp := i.(applier := Credited,
                        bytesIn := if i.applier.frame.Stdin? then Added(i.bytesIn, |i.applier.frame.data|) else i.bytesIn))
    case ApplierTouches =>
      if i.applier.Credited? then w.(inp := i.(applier := Free), ctl := Touch(w.ctl)) else w
    case ApplierReports =>
      if i.applier.Complaining? then w.(inp := i.(applier := Quit), ctl := Signal(w.ctl, i.applier.outcome)) else w
    case _ => w
  }

  // -------------------------------------------------------- the output pumps

  function SourceOf(w: World, kind: Kind): Source {
    if kind.Stdout? then w.stdout else w.stderr
  }

  function WithSource(w: World, kind: Kind, s: Source): World {
    if kind.Stdout? then w.(stdout := s) else w.(stderr := s)
  }

  /** After its bytes are out of the way, a pump reads on, or ends, or first reports a failure. */
  function AfterRead(end: ReadEnd, cancelled: bool): Pump {
    match end
    case More => Reading
    case Ended => Finished
    case Failed => if cancelled then Finished else Telling(RuntimeFailed)
  }

  function Read(s: Source, chunk: string, end: ReadEnd, cancelled: bool): Source {
    s.(pump := if chunk != "" then Offering(chunk, end) else AfterRead(end, cancelled),
       produced := s.produced + chunk,
       chunks := if chunk != "" then s.chunks + 1 else s.chunks,
       ended := !end.More?)
  }

  function Offer(s: Source, choice: Choice, cancelled: bool): Source
    requires s.pump.Offering?
  {
    match choice
    case Accept => s.(pump := AfterRead(s.pump.end, cancelled))
    case Cancel => s.(pump := Finished, refused := s.refused + s.pump.chunk)
    case Overflow => s.(pump := Telling(Backpressure), refused := s.refused + s.pump.chunk)
  }

  function OutputStep(w: World, kind: Kind, a: Action, p: Policy): World {
    var s := SourceOf(w, kind);
    match a
    case OutputReturns(_, chunk, end) =>
      if s.pump.Reading? then WithSource(w, kind, Read(s, chunk, end, w.ctl.cancelled)) else w
    case OutputOffers(_, choice) =>
      if !s.pump.Offering? || !Allowed(choice, |w.out.queue|, p.outboundQueue, w.ctl.cancelled) then w
      else
        var w' := WithSource(w, kind, Offer(s, choice, w.ctl.cancelled));
        if choice.Accept? then w'.(out := Enqueue(w.out, Output(kind, s.pump.chunk))) else w'
    case OutputReports(_) =>
      if s.pump.Telling?
      then WithSource(w.(ctl := Signal(w.ctl, s.pump.outcome)), kind, s.(pump := Finished))
      else w
    case _ => w
  }

  predicate OutputsFinished(w: World) {
    w.stdout.pump.Finished? && w.stderr.pump.Finished?
  }

  // ------------------------------------------------ the waiter and the main loop

  function WaiterStep(w: World, a: Action): World {
    var c := w.ctl;
    match a
    case WaitReturns(result) =>
      if c.waiter.Waiting? then w.(ctl := c.(waiter := Reaped(result), result := Some(result))) else w
    case WaiterSends =>
      if c.waiter.Reaped? && OutputsFinished(w) && c.completed.None?
      then w.(ctl := c.(waiter := Gone, completed := Some(c.waiter.result)))
      else w
    case WaiterQuits =>
      if c.waiter.Reaped? && OutputsFinished(w) && c.cancelled then w.(ctl := c.(waiter := Gone)) else w
    case _ => w
  }

  function Freeze(w: World, outcome: Outcome): World {
    w.(ctl := w.ctl.(main := Frozen(outcome)))
  }

  function MainStep(w: World, a: Action, p: Policy): World {
    var c := w.ctl;
    match a
    case MainTakesOutcome =>
      if (c.main.Selecting? || c.main.Awaiting?) && c.outcomes.Some?
      then Freeze(w.(ctl := c.(outcomes := None)), c.outcomes.value)
      else w
    case MainTakesResult =>
      if !c.main.Selecting? || c.completed.None? then w
      else if c.completed.value.failed then Freeze(w.(ctl := c.(completed := None)), RuntimeFailed)
      else w.(ctl := c.(completed := None, main := Sending(c.completed.value.code)))
    case MainTakesActivity =>
      if c.main.Selecting? && c.activity then w.(ctl := c.(activity := false)) else w
    case IdleFires => if c.main.Selecting? then Freeze(w, IdleTimeout) else w
    case MaxFires => if c.main.Selecting? then Freeze(w, MaxDuration) else w
    case MainStops => if (c.main.Selecting? || c.main.Awaiting?) && c.cancelled then Freeze(w, Shutdown) else w
    case MainOffersExit(choice) =>
      if !c.main.Sending? || !Allowed(choice, |w.out.queue|, p.outboundQueue, c.cancelled) then w
      else (match choice
        case Accept => w.(out := Enqueue(w.out, Exit(c.main.code)), ctl := c.(main := Awaiting))
        case Cancel => Freeze(w, Backpressure)
        case Overflow => Freeze(w.(ctl := Signal(c, Backpressure)), Backpressure))
    case MainTakesAck =>
      if !c.main.Awaiting? || w.out.ack.None? then w
      else (match w.out.ack.value
        case None => Freeze(w.(out := w.out.(ack := None)), Normal)
        case Some(status) => Freeze(w.(out := w.out.(ack := None)), ClassifyTransport(c.cancelled, status)))
    case MainCancels => if c.main.Frozen? then w.(ctl := c.(cancelled := true)) else w
    case _ => w
  }

  function Apply(w: World, a: Action, p: Policy): World {
    match a
    case CancelParent => w.(ctl := w.ctl.(cancelled := true))
    case WriterTakes | WriterQuits | WriteReturns(_) | WriterAcks | WriterCounts | WriterTouches => WriterStep(w, a)
    case ReadReturns(_) | ReaderOffers(_) | ReaderTouches | ReaderReports => ReaderStep(w, a, p)
    case ApplierTakes | ApplierQuits | ApplyReturns(_) | ApplierCounts | ApplierTouches | ApplierReports => ApplierStep(w, a)
    case OutputReturns(kind, _, _) => OutputStep(w, kind, a, p)
    case OutputOffers(kind, _) => OutputStep(w, kind, a, p)
    case OutputReports(kind) => OutputStep(w, kind, a, p)
    case WaitReturns(_) | WaiterSends | WaiterQuits => WaiterStep(w, a)
    case _ => MainStep(w, a, p)
  }

  /** The world after the first n actions of a schedule. */
  function WorldAt(actions: seq<Action>, n: nat, tty: bool, p: Policy): World
    requires n <= |actions|
  {
    if n == 0 then Start(tty) else Apply(WorldAt(actions, n - 1, tty, p), actions[n - 1], p)
  }

  // -------------------------------------------------------------- invariants

  function InHand(writer: Writer): seq<Frame> {
    if writer.Writing? then [writer.frame] else []
  }

  predicate Afterwards(writer: Writer) {
    writer.Wrote? || writer.Acked?
  }

  /** The exit frame, if accepted, came last. */
  predicate HasExit(frames: seq<Frame>) {
    frames != [] && frames[|frames| - 1].Exit?
  }

  ghost predicate OneExit(frames: seq<Frame>) {
    forall i :: 0 <= i < |frames| - 1 ==> frames[i].Output?
  }

  /** The bytes of one stream among some frames, in their order. */
  function BytesOf(frames: seq<Frame>, kind: Kind): string {
    if frames == [] then ""
    else
      var last := frames[|frames| - 1];
      BytesOf(frames[..|frames| - 1], kind) + if last.Output? && last.kind == kind then last.data else ""
  }

  function OutputBytes(frames: seq<Frame>): nat {
    |BytesOf(frames, Stdout)| + |BytesOf(frames, Stderr)|
  }

  /** Bytes already on the wire that the counter has yet to hear of. */
  function Uncounted(writer: Writer): nat {
    if Afterwards(writer) && writer.end.None? && writer.frame.Output? then |writer.frame.data| else 0
  }

  /** Frames leave in the order they were accepted; at most one, the last tried, is lost. */
  ghost predicate OutboundOk(o: Outbound, p: Policy) {
    && o.accepted == o.wire + o.lost + InHand(o.writer) + o.queue
    && |o.queue| <= p.outboundQueue
    && OneExit(o.accepted)
    && |o.lost| <= 1
    && (o.lost != [] ==> o.writer.Stopped? || (Afterwards(o.writer) && o.writer.end.Some?))
    && (Afterwards(o.writer) && o.writer.end.None? ==> o.wire != [] && o.wire[|o.wire| - 1] == o.writer.frame)
    && (Afterwards(o.writer) && o.writer.end.Some? ==> o.lost == [o.writer.frame])
    && (o.ack == Some(None) ==> HasExit(o.wire))
  }

  ghost predicate CounterOk(o: Outbound) {
    o.bytesOut == Wrapped(OutputBytes(o.wire) - Uncounted(o.writer))
  }

  function Offered(pump: Pump): string {
    if pump.Offering? then pump.chunk else ""
  }

  /** All that a stream produced was accepted, in order, but for what is on offer or was refused. */
  predicate SourceOk(s: Source, sent: string) {
    && s.produced == sent + Offered(s.pump) + s.refused
    && (s.refused != "" ==> s.pump.Telling? || s.pump.Finished?)
    && (s.pump.Offering? && !s.pump.end.More? ==> s.ended)
    && (s.pump.Telling? || s.pump.Finished? ==> s.ended || s.refused != "")
    && (s.pump.Offering? ==> s.pump.chunk != "")
  }

  function Held(reader: Reader): seq<ClientFrame> {
    if reader.Holding? then [reader.frame] else []
  }

  function Underway(applier: Applier): seq<ClientFrame> {
    if applier.Applying? then [applier.frame] else []
  }

  function StdinBytes(frames: seq<ClientFrame>): nat {
    if frames == [] then 0
    else
      var last := frames[|frames| - 1];
      StdinBytes(frames[..|frames| - 1]) + if last.Stdin? then |last.data| else 0
  }

  function Uncredited(applier: Applier): nat {
    if applier.Applied? && applier.frame.Stdin? then |applier.frame.data| else 0
  }

  /** Frames are applied in the order the client sent them, each accounted for. */
  predicate InboundOk(i: Inbound, p: Policy) {
    && i.received == i.taken + Held(i.reader) + i.turnedAway
    && i.taken == i.applied + i.failed + Underway(i.applier) + i.queue
    && |i.queue| <= p.inboundQueue
    && |i.turnedAway| <= 1 && (i.turnedAway != [] ==> i.reader.Reporting? || i.reader.Left?)
    && |i.failed| <= 1 && (i.failed != [] ==> i.applier.Complaining? || i.applier.Quit?)
  }

  /** The frame is what the message's own fields say: its data, within the limit, or its rows and
      columns, within the terminal's bounds. */
  predicate Says(p: Policy, m: Message, frame: ClientFrame) {
    && m.text && p.json(m.raw).Some?
    && var f := p.json(m.raw).value;
       if frame.Stdin? then f.kind == "stdin" && frame.data == f.data && |f.data| <= p.maxMessageBytes
       else f.kind == "resize" && frame.rows == f.rows && frame.cols == f.cols && 1 <= f.rows <= 4096 && 1 <= f.cols <= 4096
  }

  /** No frame is what the message says. */
  ghost predicate SaysNothing(p: Policy, m: Message) {
    forall frame :: !Says(p, m, frame)
  }

  /** Message for message the frames received are what the client said; the first message that says
      nothing ends the reading, as an invalid frame. */
  ghost predicate MessagesOk(i: Inbound, p: Policy) {
    && |i.received| <= |i.messages| <= |i.received| + 1
    && (forall k :: 0 <= k < |i.received| ==> Says(p, i.messages[k], i.received[k]))
    && (|i.messages| > |i.received| ==>
          SaysNothing(p, i.messages[|i.received|]) && (i.reader == Reporting(InvalidTerminalFrame) || i.reader.Left?))
    && (i.reader == Reporting(InvalidTerminalFrame) ==> |i.messages| > |i.received|)
  }

  ghost predicate CreditOk(i: Inbound) {
    i.bytesIn == Wrapped(StdinBytes(i.applied) - Uncredited(i.applier))
  }

  /** The exit frame waits for both outputs to finish and carries the runtime's own code. */
  ghost predicate ExitOk(w: World) {
    && (w.ctl.completed.Some? ==> OutputsFinished(w) && w.ctl.completed == w.ctl.result)
    && (w.ctl.waiter.Reaped? ==> w.ctl.result == Some(w.ctl.waiter.result))
    && (w.ctl.waiter.Waiting? ==> w.ctl.result.None?)
    && (w.ctl.main.Sending? ==> OutputsFinished(w) && w.ctl.result == Some(ExecResult(w.ctl.main.code, false)))
    && (w.ctl.main.Selecting? || w.ctl.main.Sending? ==> !HasExit(w.out.accepted))
    && (HasExit(w.out.accepted) ==>
          && OutputsFinished(w)
          && w.ctl.result == Some(ExecResult(w.out.accepted[|w.out.accepted| - 1].code, false)))
    && (w.ctl.main == Frozen(Normal) ==> HasExit(w.out.wire))
  }

  ghost predicate Inv(w: World, p: Policy) {
    && OutboundOk(w.out, p)
    && CounterOk(w.out)
    && SourceOk(w.stdout, BytesOf(w.out.accepted, Stdout))
    && SourceOk(w.stderr, BytesOf(w.out.accepted, Stderr))
    && InboundOk(w.inp, p)
    && CreditOk(w.inp)
    && MessagesOk(w.inp, p)
    && ExitOk(w)
  }

  // ------------------------------------------------------ every step keeps them

  lemma {:induction false} BytesAppend(frames: seq<Frame>, f: Frame, kind: Kind)
    ensures BytesOf(frames + [f], kind) == BytesOf(frames, kind) + if f.Output? && f.kind == kind then f.data else ""
  {
    assert (frames + [f])[..|frames|] == frames;
  }

  lemma {:induction false} StdinAppend(frames: seq<ClientFrame>, f: ClientFrame)
    ensures StdinBytes(frames + [f]) == StdinBytes(frames) + if f.Stdin? then |f.data| else 0
  {
    assert (frames + [f])[..|frames|] == frames;
  }

  /** Once the exit frame is on the wire nothing is behind it. */
  lemma {:induction false} ExitEndsTheWire(o: Outbound, p: Policy)
    requires OutboundOk(o, p) && HasExit(o.wire)
    ensures o.wire == o.accepted && o.queue == [] && o.lost == [] && InHand(o.writer) == []
    ensures Afterwards(o.writer) ==> o.writer.frame.Exit? && o.writer.end.None?
  {
    assert o.accepted[|o.wire| - 1] == o.wire[|o.wire| - 1];
    assert |o.accepted| == |o.wire|;
  }

  lemma {:induction false} TakeKeepsOutbound(w: World, a: Action, p: Policy)
    requires OutboundOk(w.out, p) && a.WriterTakes?
    ensures OutboundOk(WriterStep(w, a).out, p)
  {
    var o := w.out;
    if o.writer.Ready? && o.queue != [] {
      assert o.queue == [o.queue[0]] + o.queue[1..];
      assert o.wire + o.lost + [] + o.queue == o.wire + o.lost + [o.queue[0]] + o.queue[1..];
    }
    hide OneExit, HasExit;
  }

  lemma {:induction false} WriteKeepsOutbound(w: World, a: Action, p: Policy)
    requires OutboundOk(w.out, p) && a.WriteReturns?
    ensures OutboundOk(WriterStep(w, a).out, p)
  {
    var o, o' := w.out, WriterStep(w, a).out;
    if o.writer.Writing? {
      assert o.lost == [];
      assert o'.accepted == o'.wire + o'.lost + InHand(o'.writer) + o'.queue;
      if HasExit(o.wire) {
        ExitEndsTheWire(o, p);
      }
    }
    hide OneExit;
  }

  lemma {:induction false} WriterKeepsOutbound(w: World, a: Action, p: Policy)
    requires OutboundOk(w.out, p)
    ensures OutboundOk(WriterStep(w, a).out, p)
    ensures WriterStep(w, a).out.accepted == w.out.accepted
    ensures HasExit(w.out.wire) ==> WriterStep(w, a).out.wire == w.out.wire
  {
    var o := w.out;
    if a.WriterTakes? {
      TakeKeepsOutbound(w, a, p);
    } else if a.WriteReturns? {
      WriteKeepsOutbound(w, a, p);
    } else {
      hide OneExit, ClassifyTransport, Added;
    }
    if HasExit(o.wire) {
      ExitEndsTheWire(o, p);
      hide OutboundOk;
    }
  }

  lemma {:induction false} WriterKeepsCounter(w: World, a: Action, p: Policy)
    requires OutboundOk(w.out, p) && CounterOk(w.out)
    ensures CounterOk(WriterStep(w, a).out)
  {
    hide BytesOf, Added, Wrapped;
    var o, o' := w.out, WriterStep(w, a).out;
    if a.WriteReturns? && o.writer.Writing? && a.end.None? {
      BytesAppend(o.wire, o.writer.frame, Stdout);
      BytesAppend(o.wire, o.writer.frame, Stderr);
      assert OutputBytes(o'.wire) - Uncounted(o'.writer) == OutputBytes(o.wire) - Uncounted(o.writer);
    } else if a.WriterCounts? && o.writer.Acked? {
      CatchUp(OutputBytes(o.wire), Uncounted(o.writer));
    }
    hide OutboundOk;
  }

  lemma {:induction false} ReadKeepsInbound(w: World, a: Action, p: Policy)
    requires InboundOk(w.inp, p) && a.ReadReturns?
    ensures InboundOk(ReaderStep(w, a, p).inp, p)
  {
    hide DecodeClientFrame, ClassifyTransport, Underway;
    var i, i' := w.inp, ReaderStep(w, a, p).inp;
    if i'.reader.Holding? && i.reader.Listening? {
      assert i.received == i.taken + [] + [] == i.taken;
      assert i'.received == i.taken + [i'.reader.frame] == i.taken + [i'.reader.frame] + [];
    }
  }

  lemma {:induction false} OfferKeepsInbound(w: World, a: Action, p: Policy)
    requires InboundOk(w.inp, p) && a.ReaderOffers?
    ensures InboundOk(ReaderStep(w, a, p).inp, p)
  {
    hide Underway;
    var i, i' := w.inp, ReaderStep(w, a, p).inp;
    if i.reader.Holding? {
      var f := i.reader.frame;
      assert i.received == i.taken + [f] + [] == i.taken + [f];
      assert i.taken + [f] + [] + [] == i.taken + [f] == i.taken + [] + [f];
      assert i.applied + i.failed + Underway(i.applier) + i.queue + [f]
          == i.applied + i.failed + Underway(i.applier) + (i.queue + [f]);
    }
  }

  lemma {:induction false} ReaderKeepsInbound(w: World, a: Action, p: Policy)
    requires InboundOk(w.inp, p)
    ensures InboundOk(ReaderStep(w, a, p).inp, p)
  {
    if a.ReadReturns? {
      ReadKeepsInbound(w, a, p);
      hide InboundOk, ReaderStep;
    } else if a.ReaderOffers? {
      OfferKeepsInbound(w, a, p);
      hide InboundOk, ReaderStep;
    }
  }

  /** Decoding a frame reads just what the message says. */
  lemma {:induction false} DecodingSays(p: Policy, m: Message)
    ensures var frame := if m.text then DecodeClientFrame(p.json, m.raw, p.maxMessageBytes) else None;
            if frame.Some? then Says(p, m, frame.value) else SaysNothing(p, m)
  {
  }

  lemma {:induction false} ReaderKeepsMessages(w: World, a: Action, p: Policy)
    requires MessagesOk(w.inp, p)
    ensures MessagesOk(ReaderStep(w, a, p).inp, p)
  {
    hide DecodeClientFrame, Says, SaysNothing;
    if a.ReadReturns? && a.message.Accepted? {
      DecodingSays(p, a.message.value);
    }
    if a.ReadReturns? && a.message.Rejected? {
      NotInvalid(w.ctl.cancelled, a.message.error);
      hide ClassifyTransport;
    }
  }

  lemma {:induction false} NotInvalid(cancelled: bool, status: int)
    ensures ClassifyTransport(cancelled, status) != InvalidTerminalFrame
  {
  }

  lemma {:induction false} ApplierKeepsMessages(w: World, a: Action, p: Policy)
    requires MessagesOk(w.inp, p)
    ensures MessagesOk(ApplierStep(w, a).inp, p)
  {
    hide Says, SaysNothing, Added;
  }

  lemma {:induction false} ReaderKeepsCredit(w: World, a: Action, p: Policy)
    requires CreditOk(w.inp)
    ensures CreditOk(ReaderStep(w, a, p).inp)
  {
    hide StdinBytes, DecodeClientFrame, Wrapped;
  }

  lemma {:induction false} ApplierKeepsInbound(w: World, a: Action, p: Policy)
    requires InboundOk(w.inp, p)
    ensures InboundOk(ApplierStep(w, a).inp, p)
  {
    var i, i' := w.inp, ApplierStep(w, a).inp;
    if a.ApplierTakes? && i.applier.Free? && i.queue != [] {
      assert i.queue == [i.queue[0]] + i.queue[1..];
    } else if a.ApplyReturns? && i.applier.Applying? {
      assert i.failed == [];
      assert i'.taken == i'.applied + i'.failed + Underway(i'.applier) + i'.queue;
    }
  }

  lemma {:induction false} ApplyKeepsCredit(w: World, a: Action)
    requires CreditOk(w.inp) && a.ApplyReturns?
    ensures CreditOk(ApplierStep(w, a).inp)
  {
    hide StdinBytes, Wrapped, ClassifyRuntime;
    var i, i' := w.inp, ApplierStep(w, a).inp;
    if i.applier.Applying? {
      StdinAppend(i.applied, i.applier.frame);
      assert StdinBytes(i'.applied) - Uncredited(i'.applier) == StdinBytes(i.applied) - Uncredited(i.applier);
      assert i'.bytesIn == i.bytesIn;
    }
  }

  lemma {:induction false} CountKeepsCredit(w: World, a: Action)
    requires CreditOk(w.inp) && a.ApplierCounts?
    ensures CreditOk(ApplierStep(w, a).inp)
  {
    if w.inp.applier.Applied? {
      CatchUp(StdinBytes(w.inp.applied), Uncredited(w.inp.applier));
    }
    hide StdinBytes, Added, Wrapped;
  }

  lemma {:induction false} ApplierKeepsCredit(w: World, a: Action)
    requires CreditOk(w.inp)
    ensures CreditOk(ApplierStep(w, a).inp)
  {
    if a.ApplyReturns? {
      ApplyKeepsCredit(w, a);
      hide ApplierStep;
    } else if a.ApplierCounts? {
      CountKeepsCredit(w, a);
      hide ApplierStep;
    }
    hide StdinBytes, Added, Wrapped;
  }

  lemma {:induction false} OutputKeepsOutbound(w: World, kind: Kind, a: Action, p: Policy)
    requires OutboundOk(w.out, p) && (HasExit(w.out.accepted) ==> OutputsFinished(w))
    ensures OutboundOk(OutputStep(w, kind, a, p).out, p)
  {
    var o, s := w.out, SourceOf(w, kind);
    if a.OutputOffers? && s.pump.Offering? && a.choice.Accept? && |o.queue| < p.outboundQueue {
      EnqueueKeepsOutbound(o, Output(kind, s.pump.chunk), p);
    }
  }

  lemma {:induction false} EnqueueKeepsOutbound(o: Outbound, f: Frame, p: Policy)
    requires OutboundOk(o, p) && !HasExit(o.accepted) && |o.queue| < p.outboundQueue
    ensures OutboundOk(Enqueue(o, f), p)
  {
    var o' := Enqueue(o, f);
    assert o'.accepted == o'.wire + o'.lost + InHand(o'.writer) + o'.queue;
  }

  lemma {:induction false} ReadKeepsSource(s: Source, sent: string, chunk: string, end: ReadEnd, cancelled: bool)
    requires SourceOk(s, sent) && s.pump.Reading?
    ensures SourceOk(Read(s, chunk, end, cancelled), sent)
  {
    assert s.produced + chunk == sent + chunk + "";
  }

  lemma {:induction false} OfferKeepsSource(s: Source, sent: string, choice: Choice, cancelled: bool)
    requires SourceOk(s, sent) && s.pump.Offering?
    ensures SourceOk(Offer(s, choice, cancelled), if choice.Accept? then sent + s.pump.chunk else sent)
  {
    assert sent + s.pump.chunk + "" == sent + s.pump.chunk == sent + "" + ("" + s.pump.chunk);
  }

  lemma {:induction false} OutputKeepsItself(w: World, kind: Kind, a: Action, p: Policy)
    requires SourceOk(SourceOf(w, kind), BytesOf(w.out.accepted, kind))
    ensures var w' := OutputStep(w, kind, a, p);
            SourceOk(SourceOf(w', kind), BytesOf(w'.out.accepted, kind))
  {
    var s, sent := SourceOf(w, kind), BytesOf(w.out.accepted, kind);
    if a.OutputReturns? && s.pump.Reading? {
      ReadKeepsSource(s, sent, a.chunk, a.readEnd, w.ctl.cancelled);
      hide SourceOk, Read, BytesOf;
    } else if a.OutputOffers? && s.pump.Offering? {
      BytesAppend(w.out.accepted, Output(kind, s.pump.chunk), kind);
      OfferKeepsSource(s, sent, a.choice, w.ctl.cancelled);
      hide SourceOk, Offer, BytesOf;
    }
  }

  lemma {:induction false} OutputKeepsOther(w: World, kind: Kind, other: Kind, a: Action, p: Policy)
    requires kind != other
    ensures var w' := OutputStep(w, kind, a, p);
            SourceOf(w', other) == SourceOf(w, other) && BytesOf(w'.out.accepted, other) == BytesOf(w.out.accepted, other)
  {
    var s := SourceOf(w, kind);
    if a.OutputOffers? && s.pump.Offering? {
      BytesAppend(w.out.accepted, Output(kind, s.pump.chunk), other);
      hide BytesOf;
    }
  }

  lemma {:induction false} WriterKeepsExit(w: World, a: Action, p: Policy)
    requires OutboundOk(w.out, p) && ExitOk(w)
    ensures ExitOk(WriterStep(w, a))
  {
    WriterKeepsOutbound(w, a, p);
    hide OutboundOk;
  }

  lemma {:induction false} OutputKeepsExit(w: World, kind: Kind, a: Action, p: Policy)
    requires ExitOk(w)
    ensures ExitOk(OutputStep(w, kind, a, p))
  {
    var f := Output(kind, "");
  }

  lemma {:induction false} WaiterKeepsExit(w: World, a: Action)
    requires ExitOk(w)
    ensures ExitOk(WaiterStep(w, a))
  {
  }

  lemma {:induction false} MainKeepsExit(w: World, a: Action, p: Policy)
    requires OutboundOk(w.out, p) && ExitOk(w)
    ensures ExitOk(MainStep(w, a, p))
  {
    hide ClassifyTransport;
  }

  lemma {:induction false} MainKeepsOutbound(w: World, a: Action, p: Policy)
    requires OutboundOk(w.out, p) && CounterOk(w.out) && ExitOk(w)
    ensures OutboundOk(MainStep(w, a, p).out, p) && CounterOk(MainStep(w, a, p).out)
  {
    if a.MainOffersExit? && w.ctl.main.Sending? && a.choice.Accept? && |w.out.queue| < p.outboundQueue {
      EnqueueKeepsOutbound(w.out, Exit(w.ctl.main.code), p);
    }
    hide ClassifyTransport, OutputBytes, OneExit;
  }

  lemma {:induction false} MainKeepsSources(w: World, a: Action, p: Policy, kind: Kind)
    ensures var w' := MainStep(w, a, p);
            SourceOf(w', kind) == SourceOf(w, kind) && BytesOf(w'.out.accepted, kind) == BytesOf(w.out.accepted, kind)
  {
    if w.ctl.main.Sending? {
      BytesAppend(w.out.accepted, Exit(w.ctl.main.code), kind);
    }
    hide ClassifyTransport, BytesOf;
  }

  lemma {:induction false} WriterLeavesRest(w: World, a: Action)
    ensures var w' := WriterStep(w, a);
            w'.stdout == w.stdout && w'.stderr == w.stderr && w'.inp == w.inp && w'.out.accepted == w.out.accepted
  {
    hide ClassifyTransport, Added;
  }

  lemma {:induction false} WriterKeepsInv(w: World, a: Action, p: Policy)
    requires Inv(w, p)
    ensures Inv(WriterStep(w, a), p)
  {
    hide WriterStep, OutboundOk, CounterOk, SourceOk, InboundOk, CreditOk, MessagesOk, ExitOk, BytesOf;
    WriterKeepsOutbound(w, a, p);
    WriterKeepsCounter(w, a, p);
    WriterKeepsExit(w, a, p);
    WriterLeavesRest(w, a);
  }

  /** Nothing but the inbound side, the outcome slot and the activity slot may differ. */
  predicate OnlyInboundMoved(w: World, w': World) {
    && w'.out == w.out && w'.stdout == w.stdout && w'.stderr == w.stderr
    && w'.ctl.(outcomes := w.ctl.outcomes, activity := w.ctl.activity) == w.ctl
  }

  lemma {:induction false} InboundMoveKeepsInv(w: World, w': World, p: Policy)
    requires Inv(w, p) && OnlyInboundMoved(w, w')
    requires InboundOk(w'.inp, p) && CreditOk(w'.inp) && MessagesOk(w'.inp, p)
    ensures Inv(w', p)
  {
    assert w'.ctl == w.ctl.(outcomes := w'.ctl.outcomes, activity := w'.ctl.activity);
    hide OutboundOk, CounterOk, SourceOk, InboundOk, CreditOk, MessagesOk, HasExit;
  }

  lemma {:induction false} ReaderMovesInbound(w: World, a: Action, p: Policy)
    ensures OnlyInboundMoved(w, ReaderStep(w, a, p))
  {
    hide DecodeClientFrame, ClassifyTransport;
  }

  lemma {:induction false} ApplierMovesInbound(w: World, a: Action)
    ensures OnlyInboundMoved(w, ApplierStep(w, a))
  {
    hide Added;
  }

  lemma {:induction false} ReaderKeepsInv(w: World, a: Action, p: Policy)
    requires Inv(w, p)
    ensures Inv(ReaderStep(w, a, p), p)
  {
    hide ReaderStep, InboundOk, CreditOk, MessagesOk, OnlyInboundMoved;
    assert InboundOk(w.inp, p) && CreditOk(w.inp) && MessagesOk(w.inp, p);
    hide Inv;
    ReaderKeepsInbound(w, a, p);
    ReaderKeepsMessages(w, a, p);
    ReaderKeepsCredit(w, a, p);
    ReaderMovesInbound(w, a, p);
    InboundMoveKeepsInv(w, ReaderStep(w, a, p), p);
  }

  lemma {:induction false} ApplierKeepsInv(w: World, a: Action, p: Policy)
    requires Inv(w, p)
    ensures Inv(ApplierStep(w, a), p)
  {
    hide ApplierStep, InboundOk, CreditOk, MessagesOk, OnlyInboundMoved;
    assert InboundOk(w.inp, p) && CreditOk(w.inp) && MessagesOk(w.inp, p);
    hide Inv;
    ApplierKeepsInbound(w, a, p);
    ApplierKeepsMessages(w, a, p);
    ApplierKeepsCredit(w, a);
    ApplierMovesInbound(w, a);
    InboundMoveKeepsInv(w, ApplierStep(w, a), p);
  }

  lemma {:induction false} OutputKeepsRest(w: World, kind: Kind, a: Action, p: Policy)
    requires CounterOk(w.out)
    ensures OutputStep(w, kind, a, p).inp == w.inp && CounterOk(OutputStep(w, kind, a, p).out)
  {
    hide Read, Offer, OutputBytes, Wrapped;
  }

  lemma {:induction false} OutputKeepsInv(w: World, kind: Kind, a: Action, p: Policy)
    requires Inv(w, p)
    ensures Inv(OutputStep(w, kind, a, p), p)
  {
    var w' := OutputStep(w, kind, a, p);
    var other: Kind := if kind.Stdout? then Stderr else Stdout;
    hide OutputStep, OutboundOk, SourceOk, InboundOk, CreditOk, MessagesOk, CounterOk, BytesOf;
    OutputKeepsExit(w, kind, a, p);
    assert HasExit(w.out.accepted) ==> OutputsFinished(w);
    hide ExitOk, HasExit;
    OutputKeepsOutbound(w, kind, a, p);
    OutputKeepsItself(w, kind, a, p);
    OutputKeepsOther(w, kind, other, a, p);
    OutputKeepsRest(w, kind, a, p);
    assert SourceOk(SourceOf(w', other), BytesOf(w'.out.accepted, other));
  }

  lemma {:induction false} WaiterKeepsInv(w: World, a: Action, p: Policy)
    requires Inv(w, p)
    ensures Inv(WaiterStep(w, a), p)
  {
    WaiterKeepsExit(w, a);
    hide OutboundOk, CounterOk, SourceOk, InboundOk, CreditOk, MessagesOk, ExitOk;
  }

  lemma {:induction false} MainKeepsInv(w: World, a: Action, p: Policy)
    requires Inv(w, p)
    ensures Inv(MainStep(w, a, p), p)
  {
    MainKeepsOutbound(w, a, p);
    MainKeepsSources(w, a, p, Stdout);
    MainKeepsSources(w, a, p, Stderr);
    MainKeepsExit(w, a, p);
    hide OutboundOk, CounterOk, SourceOk, InboundOk, CreditOk, MessagesOk, ExitOk, BytesOf, ClassifyTransport;
  }

  lemma {:induction false} CancelKeepsInv(w: World, p: Policy)
    requires Inv(w, p)
    ensures Inv(w.(ctl := w.ctl.(cancelled := true)), p)
  {
    hide OutboundOk, CounterOk, SourceOk, InboundOk, CreditOk, MessagesOk;
  }

  lemma {:induction false} ApplyKeepsInv(w: World, a: Action, p: Policy)
    requires Inv(w, p)
    ensures Inv(Apply(w, a, p), p)
  {
    hide Inv, WriterStep, ReaderStep, ApplierStep, OutputStep, WaiterStep, MainStep;
    match a
    case CancelParent => CancelKeepsInv(w, p);
    case WriterTakes | WriterQuits | WriteReturns(_) | WriterAcks | WriterCounts | WriterTouches => WriterKeepsInv(w, a, p);
    case ReadReturns(_) | ReaderOffers(_) | ReaderTouches | ReaderReports => ReaderKeepsInv(w, a, p);
    case ApplierTakes | ApplierQuits | ApplyReturns(_) | ApplierCounts | ApplierTouches | ApplierReports =>
      ApplierKeepsInv(w, a, p);
    case OutputReturns(kind, _, _) => OutputKeepsInv(w, kind, a, p);
    case OutputOffers(kind, _) => OutputKeepsInv(w, kind, a, p);
    case OutputReports(kind) => OutputKeepsInv(w, kind, a, p);
    case WaitReturns(_) | WaiterSends | WaiterQuits => WaiterKeepsInv(w, a, p);
    case _ => MainKeepsInv(w, a, p);
  }

  lemma {:induction false} StartIsOk(tty: bool, p: Policy)
    ensures Inv(Start(tty), p)
  {
  }

  lemma {:induction false} EveryRunKeepsInv(actions: seq<Action>, n: nat, tty: bool, p: Policy)
    requires n <= |actions|
    ensures Inv(WorldAt(actions, n, tty, p), p)
  {
    hide Inv, Apply;
    if n == 0 {
      StartIsOk(tty, p);
    } else {
      EveryRunKeepsInv(actions, n - 1, tty, p);
      ApplyKeepsInv(WorldAt(actions, n - 1, tty, p), actions[n - 1], p);
    }
  }

  // ------------------------------------------------------------ consequences

  /** In every run: frames reach the socket in the order they were accepted, and the exit frame, if
      any, is the last of them, comes after all output has ended, and carries the runtime's exit code. */
  lemma {:induction false} NothingFollowsExit(actions: seq<Action>, n: nat, tty: bool, p: Policy)
    requires n <= |actions|
    ensures var w := WorldAt(actions, n, tty, p);
            && w.out.wire <= w.out.accepted
            && OneExit(w.out.wire)
            && (HasExit(w.out.wire) ==>
                  && OutputsFinished(w)
                  && w.ctl.result == Some(ExecResult(w.out.wire[|w.out.wire| - 1].code, false)))
  {
    var w := WorldAt(actions, n, tty, p);
    EveryRunKeepsInv(actions, n, tty, p);
    WireIsAPrefix(w.out, p);
    if HasExit(w.out.wire) {
      ExitEndsTheWire(w.out, p);
    }
    hide WorldAt, OutboundOk, CounterOk, SourceOk, InboundOk, CreditOk, MessagesOk, OneExit;
  }

  lemma {:induction false} WireIsAPrefix(o: Outbound, p: Policy)
    requires OutboundOk(o, p)
    ensures o.wire <= o.accepted && OneExit(o.wire)
  {
    assert forall i :: 0 <= i < |o.wire| ==> o.wire[i] == o.accepted[i];
  }

  /** In every run that ends normal, every accepted frame was written, the exit frame last; each
      stream's bytes were written in the order the runtime produced them, up to what was refused;
      the counter shows their sum; and all that the runtime produced was written exactly when
      nothing was refused. */
  lemma {:induction false} NormalMeansDelivered(actions: seq<Action>, n: nat, tty: bool, p: Policy, kind: Kind)
    requires n <= |actions| && WorldAt(actions, n, tty, p).ctl.main == Frozen(Normal)
    ensures Delivered(WorldAt(actions, n, tty, p), kind)
  {
    EveryRunKeepsInv(actions, n, tty, p);
    NormalIsDelivered(WorldAt(actions, n, tty, p), p, kind);
    hide WorldAt, Delivered, Inv;
  }

  predicate Delivered(w: World, kind: Kind) {
    var o, s := w.out, SourceOf(w, kind);
    && o.wire == o.accepted && HasExit(o.wire)
    && w.ctl.result == Some(ExecResult(o.wire[|o.wire| - 1].code, false))
    && o.bytesOut == (|BytesOf(o.wire, Stdout)| + |BytesOf(o.wire, Stderr)|) % TWO_TO_THE_64
    && s.produced == BytesOf(o.wire, kind) + s.refused
    && (s.ended || s.refused != "")
    && (s.produced == BytesOf(o.wire, kind) <==> s.refused == "")
  }

  lemma {:induction false} NormalIsDelivered(w: World, p: Policy, kind: Kind)
    requires Inv(w, p) && w.ctl.main == Frozen(Normal)
    ensures Delivered(w, kind)
  {
    ExitEndsTheWire(w.out, p);
    assert w.out.bytesOut == Wrapped(OutputBytes(w.out.wire));
    assert OutputsFinished(w);
    SentAndRefused(SourceOf(w, kind), BytesOf(w.out.wire, kind));
    hide OutboundOk, CounterOk, SourceOk, InboundOk, CreditOk, MessagesOk, BytesOf;
  }

  lemma {:induction false} SentAndRefused(s: Source, sent: string)
    requires SourceOk(s, sent) && s.pump.Finished?
    ensures s.produced == sent + s.refused && (s.ended || s.refused != "")
    ensures s.produced == sent <==> s.refused == ""
  {
    assert sent + "" == sent;
    assert |sent + s.refused| == |sent| + |s.refused|;
  }

  predicate WireKept(w: World, w': World) {
    w'.out.wire == w.out.wire && w'.out.bytesOut == w.out.bytesOut
  }

  /** The main loop has not moved, and after a normal outcome neither has the wire. */
  predicate Settled(w: World, w': World) {
    w'.ctl.main == w.ctl.main && (w.ctl.main == Frozen(Normal) ==> WireKept(w, w'))
  }

  lemma {:induction false} WriterSettles(w: World, a: Action, p: Policy)
    requires Inv(w, p)
    ensures Settled(w, WriterStep(w, a))
  {
    if w.ctl.main == Frozen(Normal) {
      ExitEndsTheWire(w.out, p);
    }
    hide Inv, ClassifyTransport, Added;
  }

  lemma {:induction false} ReaderSettles(w: World, a: Action, p: Policy)
    ensures Settled(w, ReaderStep(w, a, p))
  {
    hide DecodeClientFrame, ClassifyTransport;
  }

  lemma {:induction false} ApplierSettles(w: World, a: Action)
    ensures Settled(w, ApplierStep(w, a))
  {
    hide Added;
  }

  lemma {:induction false} OutputSettles(w: World, kind: Kind, a: Action, p: Policy)
    ensures Settled(w, OutputStep(w, kind, a, p))
  {
    hide Read, Offer;
  }

  lemma {:induction false} WaiterSettles(w: World, a: Action)
    ensures Settled(w, WaiterStep(w, a))
  {
  }

  lemma {:induction false} MainSettles(w: World, a: Action, p: Policy)
    requires w.ctl.main.Frozen?
    ensures Settled(w, MainStep(w, a, p))
  {
  }

  lemma {:induction false} CancelSettles(w: World)
    ensures Settled(w, w.(ctl := w.ctl.(cancelled := true)))
  {
  }

  lemma {:induction false} FrozenStays(w: World, a: Action, p: Policy)
    requires Inv(w, p) && w.ctl.main.Frozen?
    ensures Settled(w, Apply(w, a, p))
  {
    hide Inv, Settled, WriterStep, ReaderStep, ApplierStep, OutputStep, WaiterStep, MainStep;
    match a
    case CancelParent => CancelSettles(w);
    case WriterTakes | WriterQuits | WriteReturns(_) | WriterAcks | WriterCounts | WriterTouches => WriterSettles(w, a, p);
    case ReadReturns(_) | ReaderOffers(_) | ReaderTouches | ReaderReports => ReaderSettles(w, a, p);
    case ApplierTakes | ApplierQuits | ApplyReturns(_) | ApplierCounts | ApplierTouches | ApplierReports =>
      ApplierSettles(w, a);
    case OutputReturns(kind, _, _) => OutputSettles(w, kind, a, p);
    case OutputOffers(kind, _) => OutputSettles(w, kind, a, p);
    case OutputReports(kind) => OutputSettles(w, kind, a, p);
    case WaitReturns(_) | WaiterSends | WaiterQuits => WaiterSettles(w, a);
    case _ => MainSettles(w, a, p);
  }

  /** The outcome, once chosen, never changes, and after a normal one nothing more is written or counted. */
  lemma {:induction false} OutcomeIsFinal(actions: seq<Action>, i: nat, j: nat, tty: bool, p: Policy)
    requires i <= j <= |actions| && WorldAt(actions, i, tty, p).ctl.main.Frozen?
    ensures Settled(WorldAt(actions, i, tty, p), WorldAt(actions, j, tty, p))
    decreases j
  {
    hide Apply, Inv;
    if i < j {
      OutcomeIsFinal(actions, i, j - 1, tty, p);
      EveryRunKeepsInv(actions, j - 1, tty, p);
      FrozenStays(WorldAt(actions, j - 1, tty, p), actions[j - 1], p);
    }
  }

  /** In every run the frames the runtime applied are a prefix, in order, of the frames the client
      sent; those taken but not applied are at most one that failed or is underway, and the queue,
      which keeps to its bound; and the counter shows the stdin applied, but for one yet to be counted. */
  lemma {:induction false} InputIsAppliedInOrder(actions: seq<Action>, n: nat, tty: bool, p: Policy)
    requires n <= |actions|
    ensures AppliedInOrder(WorldAt(actions, n, tty, p).inp, p)
  {
    EveryRunKeepsInv(actions, n, tty, p);
    InOrderFollows(WorldAt(actions, n, tty, p).inp, p);
    hide WorldAt, AppliedInOrder, Inv;
  }

  predicate AppliedInOrder(i: Inbound, p: Policy) {
    && i.applied <= i.taken <= i.received
    && |i.received| <= |i.taken| + 1
    && i.taken == i.applied + i.failed + Underway(i.applier) + i.queue
    && |i.failed| + |Underway(i.applier)| <= 1
    && |i.queue| <= p.inboundQueue
    && i.bytesIn == (StdinBytes(i.applied) - Uncredited(i.applier)) % TWO_TO_THE_64
  }

  lemma {:induction false} InOrderFollows(i: Inbound, p: Policy)
    requires InboundOk(i, p) && CreditOk(i)
    ensures AppliedInOrder(i, p)
  {
    assert i.bytesIn == (StdinBytes(i.applied) - Uncredited(i.applier)) % TWO_TO_THE_64;
    hide StdinBytes, CreditOk, Wrapped;
  }

  /** In every run the k-th frame received is what the k-th message of the client says, and so is the
      k-th frame applied to the runtime; reading ends, as an invalid frame, at the first message
      that says nothing. */
  lemma {:induction false} FramesAreWhatClientsSay(actions: seq<Action>, n: nat, tty: bool, p: Policy)
    requires n <= |actions|
    ensures var i := WorldAt(actions, n, tty, p).inp;
            && MessagesOk(i, p)
            && |i.applied| <= |i.messages|
            && forall k :: 0 <= k < |i.applied| ==> Says(p, i.messages[k], i.applied[k])
  {
    var i := WorldAt(actions, n, tty, p).inp;
    EveryRunKeepsInv(actions, n, tty, p);
    InOrderFollows(i, p);
    assert MessagesOk(i, p);
    hide WorldAt, Inv, Says, SaysNothing, InboundOk;
    assert forall k :: 0 <= k < |i.applied| ==> i.applied[k] == i.received[k];
  }

  /** The outbound queue keeps to its bound, so accepted output runs at most that far, and the frame
      in the writer's hand or lost, ahead of the wire. */
  lemma {:induction false} OutputIsBounded(actions: seq<Action>, n: nat, tty: bool, p: Policy)
    requires n <= |actions|
    ensures var o := WorldAt(actions, n, tty, p).out;
            |o.queue| <= p.outboundQueue && |o.accepted| <= |o.wire| + 1 + p.outboundQueue
  {
    EveryRunKeepsInv(actions, n, tty, p);
    assert OutboundOk(WorldAt(actions, n, tty, p).out, p);
    hide WorldAt, Inv, OneExit;
  }
}
