/**
 One connected serial or VNC session: an inbound pump, an outbound pump and a main loop.
 Each action is one channel operation or one call that returns, in any order.
 */
module ByteStream {
  import opened Sessions
  import opened Frames

  datatype Policy = Policy(mode: string, maxMessageBytes: int, json: string -> Option<Fields>)

  datatype InPump =
    | Listening
    | Writing(payload: string)
    | Wrote(length: nat)
    | InCounted
    | InReports(outcome: Failure)
    | InLeft

  /** `messages`, all that the socket delivered, `payloads`, what each carried, `decoded`, their
      concatenation, and `written` are histories; `partial` is what a failed write still got through. */
  datatype Inbound = Inbound(
    pump: InPump,
    bytesIn: nat,
    messages: seq<Message>,
    payloads: seq<string>,
    decoded: string,
    written: string,
    partial: nat)

  /** What a read reports beside its bytes: go on, the end of the stream, or a failure. */
  datatype ReadEnd = More | Ended | Failed

  datatype OutPump =
    | Reading
    | Sending(chunk: string, end: ReadEnd)
    | Sent(chunk: string, end: ReadEnd)
    | OutCounted(end: ReadEnd)
    | OutReports(outcome: Outcome)
    | OutLeft

  /** `produced`, `passed` and `lost` are histories of the bytes read, passed to the socket, and not. */
  datatype Outbound = Outbound(pump: OutPump, bytesOut: nat, produced: string, passed: string, lost: string)

  datatype Main = Selecting | Frozen(outcome: Outcome)

  datatype World = World(inp: Inbound, out: Outbound, outcomes: Option<Outcome>, activity: bool, cancelled: bool, main: Main)

  datatype Action =
    | CancelParent
    | SocketReadReturns(message: Attempt<Message, int>)
    | RuntimeWriteReturns(length: nat, error: Option<RuntimeError>)
    | InCounts
    | InTouches
    | InSignals
    | RuntimeReadReturns(chunk: string, end: ReadEnd)
    | SocketWriteReturns(status: Option<int>)
    | OutCounts
    | OutTouches
    | OutSignals
    | MainTakesOutcome
    | MainTakesActivity
    | MainTimesOut(outcome: Outcome)
    | MainStops
    | MainCancels

  const START := World(Inbound(Listening, 0, [], [], "", "", 0), Outbound(Reading, 0, "", "", ""), None, false, false, Selecting)

  function Signal(w: World, outcome: Outcome): World {
    if w.outcomes.None? then w.(outcomes := Some(outcome)) else w
  }

  /** A writer that takes less than it was given must say why, as io.Writer demands. */
  predicate WriterContract(payload: string, length: nat, error: Option<RuntimeError>) {
    length <= |payload| && (error.None? ==> length == |payload|)
  }

  function InStep(w: World, a: Action, p: Policy): World {
    var i := w.inp;
    match a
    case SocketReadReturns(message) =>
      if !i.pump.Listening? then w
      else (match message
        case Rejected(status) => w.(inp := i.(pump := InReports(ClassifyTransport(w.cancelled, status))))
        case Accepted(m) =>
          match DecodeBytePayload(p.json, p.mode, m, p.maxMessageBytes)
          case Rejected(outcome) => w.(inp := i.(pump := InReports(outcome), messages := i.messages + [m]))
          case Accepted(payload) =>
            w.(inp := i.(pump := Writing(payload), messages := i.messages + [m], payloads := i.payloads + [payload],
                         decoded := i.decoded + payload)))
    case RuntimeWriteReturns(length, error) =>
      if !i.pump.Writing? || !WriterContract(i.pump.payload, length, error) then w
      else if error.Some? then
        w.(inp := i.(pump := InReports(ClassifyRuntime(error.value)), written := i.written + i.pump.payload[..length],
                     partial := length))
      else
        w.(inp := i.(pump := Wrote(length), written := i.written + i.pump.payload))
    case InCounts =>
      if i.pump.Wrote? then w.(inp := i.(pump := InCounted, bytesIn := Added(i.bytesIn, i.pump.length))) else w
    case InTouches =>
      if i.pump.InCounted? then w.(inp := i.(pump := Listening), activity := true) else w
    case InSignals =>
      if i.pump.InReports? then Signal(w.(inp := i.(pump := InLeft)), i.pump.outcome) else w
    case _ => w
  }

  function AfterRead(end: ReadEnd, cancelled: bool): OutPump {
    match end
    case More => Reading
    case Ended => OutReports(Normal)
    case Failed => if cancelled then OutLeft else OutReports(RuntimeFailed)
  }

  function OutStep(w: World, a: Action): World {
    var o := w.out;
    match a
    case RuntimeReadReturns(chunk, end) =>
      if !o.pump.Reading? then w
      else w.(out := o.(pump := if chunk != "" then Sending(chunk, end) else AfterRead(end, w.cancelled),
                        produced := o.produced + chunk))
    case SocketWriteReturns(status) =>
      if !o.pump.Sending? then w
      else if status.Some? then
        w.(out := o.(pump := OutReports(ClassifyTransport(w.cancelled, status.value)), lost := o.pump.chunk))
      else
        w.(out := o.(pump := Sent(o.pump.chunk, o.pump.end), passed := o.passed + o.pump.chunk))
    case OutCounts =>
      if o.pump.Sent? then w.(out := o.(pump := OutCounted(o.pump.end), bytesOut := Added(o.bytesOut, |o.pump.chunk|))) else w
    case OutTouches =>
      if o.pump.OutCounted? then w.(out := o.(pump := AfterRead(o.pump.end, w.cancelled)), activity := true) else w
    case OutSignals =>
      if o.pump.OutReports? then Signal(w.(out := o.(pump := OutLeft)), o.pump.outcome) else w
    case _ => w
  }

  function MainStep(w: World, a: Action): World {
    match a
    case CancelParent => w.(cancelled := true)
    case MainTakesOutcome =>
      if w.main.Selecting? && w.outcomes.Some? then w.(main := Frozen(w.outcomes.value), outcomes := None) else w
    case MainTakesActivity => if w.main.Selecting? then w.(activity := false) else w
    case MainTimesOut(outcome) =>
      if w.main.Selecting? && (outcome == IdleTimeout || outcome == MaxDuration) then w.(main := Frozen(outcome)) else w
    case MainStops => if w.main.Selecting? && w.cancelled then w.(main := Frozen(Shutdown)) else w
    case MainCancels => if w.main.Frozen? then w.(cancelled := true) else w
    case _ => w
  }

  function Apply(w: World, a: Action, p: Policy): World {
    match a
    case SocketReadReturns(_) | RuntimeWriteReturns(_, _) | InCounts | InTouches | InSignals => InStep(w, a, p)
    case RuntimeReadReturns(_, _) | SocketWriteReturns(_) | OutCounts | OutTouches | OutSignals => OutStep(w, a)
    case _ => MainStep(w, a)
  }

  function WorldAt(actions: seq<Action>, n: nat, p: Policy): World
    requires n <= |actions|
  {
    if n == 0 then START else Apply(WorldAt(actions, n - 1, p), actions[n - 1], p)
  }

  // -------------------------------------------------------------- invariants

  function Pending(pump: InPump): string {
    if pump.Writing? then pump.payload else ""
  }

  function InUncounted(pump: InPump): nat {
    if pump.Wrote? then pump.length else 0
  }

  /** The runtime was given what was decoded, in order, but for what is pending, or the rest of a
      write that failed, after which the pump stops. */
  predicate InOk(i: Inbound) {
    && i.bytesIn == Wrapped(|i.written| - i.partial - InUncounted(i.pump))
    && i.partial <= |i.written|
    && if i.pump.InReports? || i.pump.InLeft? then i.written <= i.decoded
       else i.partial == 0 && i.decoded == i.written + Pending(i.pump)
  }

  /** The payload is what the message carries: a binary message's own bytes on VNC, and on a serial
      console the data of a stdin frame within the limit. */
  predicate Carries(p: Policy, m: Message, payload: string) {
    if p.mode == "vnc" then
      !m.text && payload == m.raw
    else
      && m.text && p.json(m.raw).Some?
      && var f := p.json(m.raw).value;
         f.kind == "stdin" && payload == f.data && |f.data| <= p.maxMessageBytes
  }

  ghost predicate CarriesNothing(p: Policy, m: Message) {
    forall payload :: !Carries(p, m, payload)
  }

  function InvalidFrame(p: Policy): Failure {
    if p.mode == "vnc" then InvalidVNCFrame else InvalidTerminalFrame
  }

  function Joined(payloads: seq<string>): string {
    if payloads == [] then "" else Joined(payloads[..|payloads| - 1]) + payloads[|payloads| - 1]
  }

  /** Message for message the payloads are what the client sent; the first message that carries nothing
      ends the reading, as an invalid frame of the mode. */
  ghost predicate MessagesOk(i: Inbound, p: Policy) {
    && i.decoded == Joined(i.payloads)
    && |i.payloads| <= |i.messages| <= |i.payloads| + 1
    && (forall k :: 0 <= k < |i.payloads| ==> Carries(p, i.messages[k], i.payloads[k]))
    && (|i.messages| > |i.payloads| ==>
          CarriesNothing(p, i.messages[|i.payloads|]) && (i.pump == InReports(InvalidFrame(p)) || i.pump.InLeft?))
    && (i.pump == InReports(InvalidFrame(p)) ==> |i.messages| > |i.payloads|)
  }

  function InHand(pump: OutPump): string {
    if pump.Sending? then pump.chunk else ""
  }

  function OutUncounted(pump: OutPump): nat {
    if pump.Sent? then |pump.chunk| else 0
  }

  predicate OutOk(o: Outbound) {
    && o.produced == o.passed + o.lost + InHand(o.pump)
    && o.bytesOut == Wrapped(|o.passed| - OutUncounted(o.pump))
    && (o.lost != "" ==> o.pump.OutLeft? || (o.pump.OutReports? && o.pump.outcome != Normal))
  }

  /** All that was produced was passed on and counted, and nothing more will come. */
  predicate Complete(o: Outbound) {
    o.pump.OutLeft? && o.lost == ""
  }

  predicate NormalOk(w: World) {
    w.outcomes == Some(Normal) || w.main == Frozen(Normal) ==> Complete(w.out)
  }

  predicate Inv(w: World) {
    InOk(w.inp) && OutOk(w.out) && NormalOk(w)
  }

  lemma {:induction false} InLeavesOut(w: World, a: Action, p: Policy)
    ensures InStep(w, a, p).out == w.out
  {
    hide Added, DecodeBytePayload, ClassifyTransport, ClassifyRuntime;
  }

  lemma {:induction false} WriteKeepsIn(w: World, length: nat, error: Option<RuntimeError>, p: Policy)
    requires InOk(w.inp)
    ensures InOk(InStep(w, RuntimeWriteReturns(length, error), p).inp)
  {
    var i := w.inp;
    if i.pump.Writing? && length <= |i.pump.payload| {
      assert i.decoded == i.written + i.pump.payload[..length] + i.pump.payload[length..];
    }
    hide Wrapped, ClassifyRuntime;
  }

  lemma {:induction false} InKeepsIn(w: World, a: Action, p: Policy)
    requires InOk(w.inp)
    ensures InOk(InStep(w, a, p).inp) && InStep(w, a, p).out == w.out
  {
    InLeavesOut(w, a, p);
    hide Wrapped, Added, DecodeBytePayload, ClassifyTransport, ClassifyRuntime;
    match a
    case RuntimeWriteReturns(length, error) =>
      WriteKeepsIn(w, length, error, p);
      hide InStep, InOk;
    case InCounts =>
      if w.inp.pump.Wrote? {
        CatchUp(|w.inp.written| - w.inp.partial, w.inp.pump.length);
      }
    case _ =>
  }

  lemma {:induction false} InKeeps(w: World, a: Action, p: Policy)
    requires Inv(w)
    ensures Inv(InStep(w, a, p))
  {
    InKeepsIn(w, a, p);
    hide InOk, OutOk, DecodeBytePayload, ClassifyTransport, ClassifyRuntime, Complete;
  }

  lemma {:induction false} ReadKeepsOut(w: World, a: Action)
    requires OutOk(w.out) && a.RuntimeReadReturns?
    ensures OutOk(OutStep(w, a).out) && OutStep(w, a).inp == w.inp
  {
    var o := w.out;
    if o.pump.Reading? {
      assert o.produced + a.chunk == o.passed + o.lost + a.chunk;
    }
    hide Wrapped;
  }

  lemma {:induction false} WriteKeepsOut(w: World, a: Action)
    requires OutOk(w.out) && a.SocketWriteReturns?
    ensures OutOk(OutStep(w, a).out) && OutStep(w, a).inp == w.inp
  {
    var o := w.out;
    if o.pump.Sending? {
      assert o.passed + "" + o.pump.chunk == o.passed + o.pump.chunk + "" + "";
      assert o.passed + "" + o.pump.chunk == o.passed + o.pump.chunk + "";
    }
    hide Wrapped, ClassifyTransport;
  }

  lemma {:induction false} CountKeepsOut(w: World, a: Action)
    requires OutOk(w.out) && a.OutCounts?
    ensures OutOk(OutStep(w, a).out) && OutStep(w, a).inp == w.inp
  {
    if w.out.pump.Sent? {
      CatchUp(|w.out.passed|, |w.out.pump.chunk|);
    }
    hide Wrapped, Added;
  }

  lemma {:induction false} OutKeepsOut(w: World, a: Action)
    requires OutOk(w.out)
    ensures OutOk(OutStep(w, a).out) && OutStep(w, a).inp == w.inp
  {
    match a {
      case RuntimeReadReturns(_, _) => ReadKeepsOut(w, a);
      case SocketWriteReturns(_) => WriteKeepsOut(w, a);
      case OutCounts => CountKeepsOut(w, a);
      case _ => hide Wrapped;
    }
    hide Wrapped, Added, ClassifyTransport;
  }

  lemma {:induction false} OutKeeps(w: World, a: Action)
    requires Inv(w)
    ensures Inv(OutStep(w, a))
  {
    OutKeepsOut(w, a);
    hide InOk, Wrapped, Added, ClassifyTransport;
  }

  lemma {:induction false} ApplyKeeps(w: World, a: Action, p: Policy)
    requires Inv(w)
    ensures Inv(Apply(w, a, p))
  {
    InKeeps(w, a, p);
    OutKeeps(w, a);
    hide InStep, OutStep, InOk, OutOk, Complete;
  }

  lemma {:induction false} EveryRunKeepsInv(actions: seq<Action>, n: nat, p: Policy)
    requires n <= |actions|
    ensures Inv(WorldAt(actions, n, p))
  {
    if n > 0 {
      hide Apply, Inv;
      EveryRunKeepsInv(actions, n - 1, p);
      ApplyKeeps(WorldAt(actions, n - 1, p), actions[n - 1], p);
    }
  }

  /** If a run ends normal, every byte the runtime produced was passed to the socket, in order, and counted. */
  lemma {:induction false} NormalMeansComplete(actions: seq<Action>, n: nat, p: Policy)
    requires n <= |actions| && WorldAt(actions, n, p).main == Frozen(Normal)
    ensures var o := WorldAt(actions, n, p).out;
            o.passed == o.produced && o.bytesOut == |o.produced| % TWO_TO_THE_64
  {
    EveryRunKeepsInv(actions, n, p);
    hide WorldAt;
  }

  lemma {:induction false} DecodingCarries(p: Policy, m: Message)
    ensures match DecodeBytePayload(p.json, p.mode, m, p.maxMessageBytes)
            case Accepted(payload) => Carries(p, m, payload)
            case Rejected(outcome) => CarriesNothing(p, m) && outcome == InvalidFrame(p)
  {
  }

  lemma {:induction false} NotInvalid(p: Policy, cancelled: bool, status: int, error: RuntimeError)
    ensures ClassifyTransport(cancelled, status) != InvalidFrame(p) && ClassifyRuntime(error) != InvalidFrame(p)
  {
  }

  lemma {:induction false} JoinedGrows(payloads: seq<string>, payload: string)
    ensures Joined(payloads + [payload]) == Joined(payloads) + payload
  {
    assert (payloads + [payload])[..|payloads|] == payloads;
  }

  lemma {:induction false} ReadKeepsMessages(w: World, m: Message, p: Policy)
    requires MessagesOk(w.inp, p) && w.inp.pump.Listening?
    ensures MessagesOk(InStep(w, SocketReadReturns(Accepted(m)), p).inp, p)
  {
    hide DecodeBytePayload, Carries, CarriesNothing, InvalidFrame;
    DecodingCarries(p, m);
    var decoded := DecodeBytePayload(p.json, p.mode, m, p.maxMessageBytes);
    if decoded.Accepted? {
      JoinedGrows(w.inp.payloads, decoded.value);
    }
    hide Joined;
  }

  lemma {:induction false} FailureKeepsMessages(w: World, a: Action, p: Policy)
    requires MessagesOk(w.inp, p)
    requires (a.SocketReadReturns? && a.message.Rejected?) || (a.RuntimeWriteReturns? && a.error.Some?)
    ensures MessagesOk(InStep(w, a, p).inp, p)
  {
    hide Carries, CarriesNothing, ClassifyTransport, ClassifyRuntime, InvalidFrame, Joined;
    match a
    case SocketReadReturns(Rejected(status)) => NotInvalid(p, w.cancelled, status, Broken);
    case RuntimeWriteReturns(_, Some(error)) => NotInvalid(p, w.cancelled, 0, error);
  }

  lemma {:induction false} InKeepsMessages(w: World, a: Action, p: Policy)
    requires MessagesOk(w.inp, p)
    ensures MessagesOk(InStep(w, a, p).inp, p)
  {
    hide DecodeBytePayload, Carries, CarriesNothing, ClassifyTransport, ClassifyRuntime, InvalidFrame, Joined, Added;
    match a
    case SocketReadReturns(Accepted(m)) =>
      if w.inp.pump.Listening? {
        ReadKeepsMessages(w, m, p);
      }
      hide MessagesOk;
    case SocketReadReturns(Rejected(_)) =>
      FailureKeepsMessages(w, a, p);
      hide MessagesOk;
    case RuntimeWriteReturns(_, Some(_)) =>
      FailureKeepsMessages(w, a, p);
      hide MessagesOk;
    case _ =>
  }

  lemma {:induction false} OthersKeepMessages(w: World, a: Action, p: Policy)
    ensures OutStep(w, a).inp == w.inp && MainStep(w, a).inp == w.inp
  {
    hide ClassifyTransport, Added;
  }

  /** In every run the payloads are message for message what the client sent, and what was decoded is
      their concatenation; reading ends, as an invalid frame of the mode, at the first message that
      carries nothing. */
  lemma {:induction false} PayloadsAreWhatClientsSend(actions: seq<Action>, n: nat, p: Policy)
    requires n <= |actions|
    ensures MessagesOk(WorldAt(actions, n, p).inp, p)
  {
    if n > 0 {
      hide MessagesOk, InStep, OutStep, MainStep;
      var w := WorldAt(actions, n - 1, p);
      PayloadsAreWhatClientsSend(actions, n - 1, p);
      InKeepsMessages(w, actions[n - 1], p);
      OthersKeepMessages(w, actions[n - 1], p);
    }
  }

  /** At every point of every run the socket has been passed a prefix of what was produced, the
      runtime has been given a prefix of what the client's messages decode to, all of it unless a
      write is underway or the pump has stopped, and both counters show whole writes only. */
  lemma {:induction false} BytesStayInOrder(actions: seq<Action>, n: nat, p: Policy)
    requires n <= |actions|
    ensures var w := WorldAt(actions, n, p);
            && w.out.passed <= w.out.produced
            && w.inp.written <= w.inp.decoded
            && (w.inp.pump.Listening? ==> w.inp.written == w.inp.decoded)
            && w.out.bytesOut == (|w.out.passed| - OutUncounted(w.out.pump)) % TWO_TO_THE_64
            && w.inp.bytesIn == (|w.inp.written| - w.inp.partial - InUncounted(w.inp.pump)) % TWO_TO_THE_64
  {
    EveryRunKeepsInv(actions, n, p);
    InOrder(WorldAt(actions, n, p).inp, WorldAt(actions, n, p).out);
    hide WorldAt, InOk, OutOk, Wrapped;
  }

  lemma {:induction false} InOrder(i: Inbound, o: Outbound)
    requires InOk(i) && OutOk(o)
    ensures o.passed <= o.produced && i.written <= i.decoded && (i.pump.Listening? ==> i.written == i.decoded)
    ensures o.bytesOut == (|o.passed| - OutUncounted(o.pump)) % TWO_TO_THE_64
    ensures i.bytesIn == (|i.written| - i.partial - InUncounted(i.pump)) % TWO_TO_THE_64
  {
  }

  /** The outcome, once chosen, never changes, and after a normal one nothing more is read, passed or counted. */
  lemma {:induction false} OutcomeIsFinal(actions: seq<Action>, i: nat, j: nat, p: Policy)
    requires i <= j <= |actions| && WorldAt(actions, i, p).main.Frozen?
    ensures WorldAt(actions, j, p).main == WorldAt(actions, i, p).main
    ensures WorldAt(actions, i, p).main == Frozen(Normal) ==> WorldAt(actions, j, p).out == WorldAt(actions, i, p).out
    decreases j
  {
    hide Apply, Inv;
    if i < j {
      OutcomeIsFinal(actions, i, j - 1, p);
      EveryRunKeepsInv(actions, j - 1, p);
      FrozenStays(WorldAt(actions, j - 1, p), actions[j - 1], p);
    }
  }

  lemma {:induction false} FrozenStays(w: World, a: Action, p: Policy)
    requires Inv(w) && w.main.Frozen?
    ensures Apply(w, a, p).main == w.main
    ensures w.main == Frozen(Normal) ==> Apply(w, a, p).out == w.out
  {
    hide DecodeBytePayload, ClassifyTransport, InOk, OutOk;
  }
}
