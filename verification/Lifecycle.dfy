/**
 One connected session from admission to its end: what it asks of the manager, and the calls
 it makes to the observer, the socket and the runtime, in order.
 */
module Lifecycle {
  import opened Sessions
  import opened Ledger
  import opened Manager
  import opened Frames
  import MemoryStore
  import ExecStream
  import ByteStream
  import Timers
  import TimedExec
  import TimedBytes

  const TERMINAL_SUBPROTOCOL := "ani.terminal.v1"
  const VNC_SUBPROTOCOL := "ani.vnc.v1"

  datatype Event =
    | Observed
    | RuntimeOpened
    | Connected(at: Time)
    | FinalClose(outcome: Outcome, sent: bool)
    | RuntimeClosed
    | LeaseReleased(sessionID: string, leaseID: string, reason: string)
    | Finished(finish: Finish)

  datatype Finish = Finish(outcome: Outcome, connected: bool, duration: int, bytesIn: nat, bytesOut: nat)

  datatype EventKind = Observing | Opening | Connecting | FinalClosing | RuntimeClosing | Releasing | Finishing

  function KindOf(e: Event): EventKind {
    match e
    case Observed => Observing
    case RuntimeOpened => Opening
    case Connected(_) => Connecting
    case FinalClose(_, _) => FinalClosing
    case RuntimeClosed => RuntimeClosing
    case LeaseReleased(_, _, _) => Releasing
    case Finished(_) => Finishing
  }

  class Log {
    var events: seq<Event>

    constructor ()
      ensures events == []
    {
      events := [];
    }

    method Add(e: Event)
      modifies this
      ensures events == old(events) + [e]
    {
      events := events + [e];
    }
  }

  /** The claimed access and, unless the upgrade produced none, the socket's subprotocol. */
  datatype Admitted = Admitted(access: ClaimedAccess, socket: Option<string>)

  datatype OpenResult = Opened | TargetGone | OpenFailed

  /** A run of the stream that was carried, with its timers: its main loop had chosen an outcome after
      `chosen` actions, and the counters were read after `left`. */
  datatype Carried =
    | ExecRun(execPolicy: ExecStream.Policy, idleTimeout: nat, start: Time, execActions: seq<TimedExec.Action>, chosen: nat,
              left: nat)
    | ByteRun(bytePolicy: ByteStream.Policy, idleTimeout: nat, start: Time, byteActions: seq<TimedBytes.Action>, chosen: nat,
              left: nat)

  /** What the world outside answers during one run: the runtime's open, the stream, whether its
      pumps ended in time, and the clock at connecting, releasing and finishing. */
  datatype Outside = Outside(
    open: OpenResult,
    connectedAt: Time,
    carried: Carried,
    drained: bool,
    closedAt: Time,
    finishedAt: Time)

  predicate ValidStart(a: Admitted) {
    && a.socket.Some? && a.access.sessionID != "" && a.access.leaseID != ""
    && if a.access.mode == MODE_EXEC then a.access.exec.Some? && a.socket.value == TERMINAL_SUBPROTOCOL
       else if a.access.mode == MODE_SERIAL then a.socket.value == TERMINAL_SUBPROTOCOL
       else a.access.mode == MODE_VNC && a.socket.value == VNC_SUBPROTOCOL
  }

  predicate Connects(a: Admitted, outside: Outside) {
    ValidStart(a) && outside.open.Opened?
  }

  // ------------------------------------------------------- the stream carried

  function ExecTerms(c: Carried, access: ClaimedAccess): TimedExec.Terms
    requires c.ExecRun? && access.exec.Some?
  {
    TimedExec.Terms(access.exec.value.tty, c.execPolicy, Timers.Terms(c.idleTimeout, access.expiresAt))
  }

  function ExecJoint(c: Carried, access: ClaimedAccess, n: nat): TimedExec.Joint
    requires c.ExecRun? && n <= |c.execActions| && access.exec.Some?
  {
    TimedExec.JointAt(c.execActions, n, c.start, ExecTerms(c, access))
  }

  function ExecWorld(c: Carried, access: ClaimedAccess, n: nat): ExecStream.World
    requires c.ExecRun? && n <= |c.execActions| && access.exec.Some?
  {
    ExecJoint(c, access, n).stream
  }

  function ByteTerms(c: Carried, access: ClaimedAccess): TimedBytes.Terms
    requires c.ByteRun?
  {
    TimedBytes.Terms(c.bytePolicy, Timers.Terms(c.idleTimeout, access.expiresAt))
  }

  function ByteJoint(c: Carried, access: ClaimedAccess, n: nat): TimedBytes.Joint
    requires c.ByteRun? && n <= |c.byteActions|
  {
    TimedBytes.JointAt(c.byteActions, n, c.start, ByteTerms(c, access))
  }

  function ByteWorld(c: Carried, access: ClaimedAccess, n: nat): ByteStream.World
    requires c.ByteRun? && n <= |c.byteActions|
  {
    ByteJoint(c, access, n).stream
  }

  /** The run is one of a stream of this access, and its outcome was chosen before it was left. */
  predicate Carries(c: Carried, access: ClaimedAccess) {
    && c.chosen <= c.left
    && match c
       case ExecRun(_, _, _, actions, chosen, left) =>
         access.mode == MODE_EXEC && access.exec.Some? && left <= |actions| && ExecWorld(c, access, chosen).ctl.main.Frozen?
       case ByteRun(p, _, _, actions, chosen, left) =>
         access.mode != MODE_EXEC && p.mode == access.mode && left <= |actions| && ByteWorld(c, access, chosen).main.Frozen?
  }

  predicate Sound(a: Admitted, outside: Outside) {
    Connects(a, outside) ==> Carries(outside.carried, a.access)
  }

  function Selected(c: Carried, access: ClaimedAccess): Outcome
    requires Carries(c, access)
  {
    if c.ExecRun? then ExecWorld(c, access, c.chosen).ctl.main.outcome else ByteWorld(c, access, c.chosen).main.outcome
  }

  function BytesIn(c: Carried, access: ClaimedAccess): nat
    requires Carries(c, access)
  {
    if c.ExecRun? then ExecWorld(c, access, c.left).inp.bytesIn else ByteWorld(c, access, c.left).inp.bytesIn
  }

  function BytesOut(c: Carried, access: ClaimedAccess): nat
    requires Carries(c, access)
  {
    if c.ExecRun? then ExecWorld(c, access, c.left).out.bytesOut else ByteWorld(c, access, c.left).out.bytesOut
  }

  // ------------------------------------------------------------ what a run does

  function OutcomeOf(a: Admitted, outside: Outside): Outcome
    requires Sound(a, outside)
  {
    if !ValidStart(a) then InvalidStart
    else if outside.open.Opened? then Selected(outside.carried, a.access)
    else if outside.open.TargetGone? && a.access.mode != MODE_EXEC then TargetChanged
    else RuntimeUnavailable
  }

  function Closing(a: Admitted, outcome: Outcome): Event {
    FinalClose(outcome, a.socket.Some? && outcome != ClientClosed)
  }

  function Ending(a: Admitted, outside: Outside, connected: bool): seq<Event>
    requires Sound(a, outside)
  {
    var outcome := OutcomeOf(a, outside);
    [LeaseReleased(a.access.sessionID, a.access.leaseID, OutcomeText(outcome)),
     Finished(Finish(outcome, connected, if connected then outside.finishedAt - outside.connectedAt else 0,
                     if Connects(a, outside) then BytesIn(outside.carried, a.access) else 0,
                     if Connects(a, outside) then BytesOut(outside.carried, a.access) else 0))]
  }

  function Trace(a: Admitted, outside: Outside): seq<Event>
    requires Sound(a, outside)
  {
    var closing := Closing(a, OutcomeOf(a, outside));
    if !Connects(a, outside) then
      [Observed, closing] + Ending(a, outside, false)
    else if outside.connectedAt != ZERO_TIME then
      [Observed, RuntimeOpened, Connected(outside.connectedAt), closing, RuntimeClosed] + Ending(a, outside, true)
    else
      [Observed, RuntimeOpened, Connected(outside.connectedAt), closing, RuntimeClosed, closing] + Ending(a, outside, false)
  }

  /** The manager's store after it was asked to close a lease. */
  function AfterClose(st: MemoryStore.StoreState, access: ClaimedAccess, reason: string, at: Time, cfg: Config)
    : MemoryStore.StoreState
  {
    MemoryStore.Step(st, Call(at, Close(access.sessionID, access.leaseID, reason)), cfg.limits).0
  }

  // -------------------------------------------------------------- the module

  /** Decides how the socket is closed; nothing is sent without a socket or to a client that has closed. */
  method WriteFinal(log: Log, socket: Option<string>, outcome: Outcome)
    modifies log
    ensures log.events == old(log.events) + [FinalClose(outcome, socket.Some? && outcome != ClientClosed)]
  {
    if socket.None? || outcome == ClientClosed {
      log.Add(FinalClose(outcome, false));
      return;
    }
    log.Add(FinalClose(outcome, true));
  }

  /** How both kinds of stream end once the main loop has selected an outcome. */
  method CloseOut(log: Log, a: Admitted, selected: Outcome, drained: bool)
    modifies log
    ensures log.events == old(log.events) + [Closing(a, selected), RuntimeClosed]
  {
    WriteFinal(log, a.socket, selected);
    if !drained {
      log.Add(RuntimeClosed);
      // Waits for the pumps once more.
    } else {
      log.Add(RuntimeClosed);
    }
  }

  method Complete(log: Log, manager: Manager, a: Admitted, connectedAt: Time, outcome: Outcome, bytesIn: nat,
                  bytesOut: nat, closedAt: Time, finishedAt: Time)
    requires manager.store.Valid()
    modifies log, manager.store
    ensures manager.store.Valid()
    ensures manager.store.State()
         == AfterClose(old(manager.store.State()), a.access, OutcomeText(outcome), closedAt, manager.cfg)
    ensures log.events == old(log.events)
            + (if connectedAt == ZERO_TIME then [Closing(a, outcome)] else [])
            + [LeaseReleased(a.access.sessionID, a.access.leaseID, OutcomeText(outcome)),
               Finished(Finish(outcome, connectedAt != ZERO_TIME,
                               if connectedAt != ZERO_TIME then finishedAt - connectedAt else 0, bytesIn, bytesOut))]
  {
    hide OutcomeText, MemoryStore.Step, MemoryStore.Rep;
    if connectedAt == ZERO_TIME {
      WriteFinal(log, a.socket, outcome);
    }
    log.Add(LeaseReleased(a.access.sessionID, a.access.leaseID, OutcomeText(outcome)));
    var _ := manager.CloseSession(a.access.sessionID, a.access.leaseID, OutcomeText(outcome), closedAt);
    var finish := Finish(outcome, connectedAt != ZERO_TIME, 0, bytesIn, bytesOut);
    if finish.connected {
      finish := finish.(duration := finishedAt - connectedAt);
    }
    log.Add(Finished(finish));
  }

  /** From an opened runtime to the end. */
  method Carry(log: Log, manager: Manager, a: Admitted, outside: Outside)
    requires manager.store.Valid() && Sound(a, outside) && Connects(a, outside)
    modifies log, manager.store
    ensures manager.store.Valid()
    ensures manager.store.State()
         == AfterClose(old(manager.store.State()), a.access, OutcomeText(OutcomeOf(a, outside)), outside.closedAt, manager.cfg)
    ensures log.events == old(log.events) + Trace(a, outside)[1..]
  {
    hide OutcomeText, ValidStart, Carries, Selected, BytesIn, BytesOut, AfterClose, MemoryStore.Rep;
    var selected := Selected(outside.carried, a.access);
    ConnectedTrace(a, outside);
    assert OutcomeOf(a, outside) == selected;
    hide Trace, Connects, OutcomeOf, Closing, Sound;
    log.Add(RuntimeOpened);
    log.Add(Connected(outside.connectedAt));
    CloseOut(log, a, selected, outside.drained);
    Complete(log, manager, a, outside.connectedAt, selected, BytesIn(outside.carried, a.access),
             BytesOut(outside.carried, a.access), outside.closedAt, outside.finishedAt);
  }

  /** The parts of a connected run after it was observed. */
  lemma {:induction false} ConnectedTrace(a: Admitted, outside: Outside)
    requires Sound(a, outside) && Connects(a, outside)
    ensures var closing, connected := Closing(a, OutcomeOf(a, outside)), outside.connectedAt != ZERO_TIME;
            Trace(a, outside)[1..]
            == [RuntimeOpened] + [Connected(outside.connectedAt)] + [closing, RuntimeClosed]
               + (if connected then [] else [closing]) + Ending(a, outside, connected)
  {
    hide OutcomeText, ValidStart, OutcomeOf, Closing, Ending, Sound;
    var closing, end := Closing(a, OutcomeOf(a, outside)), Ending(a, outside, outside.connectedAt != ZERO_TIME);
    assert outside.connectedAt != ZERO_TIME ==>
      Trace(a, outside) == [Observed, RuntimeOpened, Connected(outside.connectedAt), closing, RuntimeClosed] + end;
  }

  method Run(log: Log, manager: Manager, a: Admitted, outside: Outside) returns (outcome: Outcome)
    requires manager.store.Valid() && Sound(a, outside)
    modifies log, manager.store
    ensures manager.store.Valid()
    ensures outcome == OutcomeOf(a, outside)
    ensures manager.store.State()
         == AfterClose(old(manager.store.State()), a.access, OutcomeText(outcome), outside.closedAt, manager.cfg)
    ensures log.events == old(log.events) + Trace(a, outside)
  {
    hide OutcomeText, ValidStart, Carries, Selected, BytesIn, BytesOut, AfterClose, MemoryStore.Rep;
    ghost var before := log.events;
    log.Add(Observed);
    assert Trace(a, outside)[0] == Observed;
    if !ValidStart(a) {
      Complete(log, manager, a, ZERO_TIME, InvalidStart, 0, 0, outside.closedAt, outside.finishedAt);
      return InvalidStart;
    }
    if a.access.mode == MODE_EXEC {
      if !outside.open.Opened? {
        Complete(log, manager, a, ZERO_TIME, RuntimeUnavailable, 0, 0, outside.closedAt, outside.finishedAt);
        return RuntimeUnavailable;
      }
      Carry(log, manager, a, outside);
      assert log.events == before + ([Observed] + Trace(a, outside)[1..]);
      return Selected(outside.carried, a.access);
    }
    if !outside.open.Opened? {
      outcome := RuntimeUnavailable;
      if outside.open.TargetGone? {
        outcome := TargetChanged;
      }
      Complete(log, manager, a, ZERO_TIME, outcome, 0, 0, outside.closedAt, outside.finishedAt);
      return outcome;
    }
    Carry(log, manager, a, outside);
    assert log.events == before + ([Observed] + Trace(a, outside)[1..]);
    return Selected(outside.carried, a.access);
  }

  // ------------------------------------------------------------- order of a run

  predicate Has(t: seq<Event>, kind: EventKind) {
    exists i :: 0 <= i < |t| && KindOf(t[i]) == kind
  }

  /** The event happens, and it is the only one of its kind. */
  predicate Sole(t: seq<Event>, e: Event) {
    && e in t
    && forall i, j :: 0 <= i < |t| && 0 <= j < |t| && KindOf(t[i]) == KindOf(e) == KindOf(t[j]) ==> i == j
  }

  /** Every event of the first kind comes before every event of the second. */
  predicate Precedes(t: seq<Event>, first: EventKind, second: EventKind) {
    forall i, j :: 0 <= i < |t| && 0 <= j < |t| && KindOf(t[i]) == first && KindOf(t[j]) == second ==> i < j
  }

  predicate OneFinish(t: seq<Event>, outcome: Outcome) {
    exists i :: 0 <= i < |t| && t[i].Finished? && t[i].finish.outcome == outcome
                && (t[i].finish.connected <==> Has(t[..i], Connecting)) && Sole(t, t[i])
  }

  /** One final-close decision, one release of the lease and one finish, in this order and all
      with one outcome; the finish says connected exactly when that was signalled before; a
      runtime that was opened is closed once, before the release. */
  predicate Orderly(t: seq<Event>, a: Admitted, outcome: Outcome) {
    && Sole(t, Closing(a, outcome))
    && Sole(t, LeaseReleased(a.access.sessionID, a.access.leaseID, OutcomeText(outcome)))
    && OneFinish(t, outcome)
    && (if Has(t, Opening) then Sole(t, RuntimeOpened) && Sole(t, RuntimeClosed) else !Has(t, RuntimeClosing))
    && Precedes(t, Opening, RuntimeClosing) && Precedes(t, RuntimeClosing, Releasing)
    && Precedes(t, FinalClosing, Releasing) && Precedes(t, Releasing, Finishing)
  }

  /** A run is orderly exactly when it does not connect at a clock reading of zero: the
      connection time doubles as the mark of having connected. */
  lemma {:induction false} RunIsOrderly(a: Admitted, outside: Outside)
    requires Sound(a, outside)
    ensures Orderly(Trace(a, outside), a, OutcomeOf(a, outside))
       <==> !(Connects(a, outside) && outside.connectedAt == ZERO_TIME)
  {
    var t, outcome := Trace(a, outside), OutcomeOf(a, outside);
    hide OutcomeText, ValidStart, Sound, OutcomeOf;
    if !Connects(a, outside) {
      UnconnectedIsOrderly(a, outside);
    } else if outside.connectedAt != ZERO_TIME {
      ConnectedIsOrderly(a, outside);
    } else {
      assert t[3] == t[5] == Closing(a, outcome);
    }
  }

  lemma {:induction false} UnconnectedIsOrderly(a: Admitted, outside: Outside)
    requires Sound(a, outside) && !Connects(a, outside)
    ensures Orderly(Trace(a, outside), a, OutcomeOf(a, outside))
  {
    var t, outcome := Trace(a, outside), OutcomeOf(a, outside);
    hide OutcomeText, ValidStart, Connects, OutcomeOf, Sound;
    assert |t| == 4 && t[1] == Closing(a, outcome) && t[2].LeaseReleased? && t[3].Finished?;
    assert t[3].finish.outcome == outcome && Sole(t, t[3]) && !Has(t[..3], Connecting);
  }

  lemma {:induction false} ConnectedIsOrderly(a: Admitted, outside: Outside)
    requires Sound(a, outside) && Connects(a, outside) && outside.connectedAt != ZERO_TIME
    ensures Orderly(Trace(a, outside), a, OutcomeOf(a, outside))
  {
    var t, outcome := Trace(a, outside), OutcomeOf(a, outside);
    hide OutcomeText, ValidStart, Connects, OutcomeOf, Sound, BytesIn, BytesOut;
    assert |t| == 7 && t[1] == RuntimeOpened && t[2].Connected? && t[3] == Closing(a, outcome) && t[4] == RuntimeClosed;
    assert t[5].LeaseReleased? && t[6].Finished? && t[6].finish.outcome == outcome && t[6].finish.connected;
    ConnectedParts(t, a, outcome);
  }

  lemma {:induction false} ConnectedParts(t: seq<Event>, a: Admitted, outcome: Outcome)
    requires |t| == 7 && t[0] == Observed && t[1] == RuntimeOpened && t[2].Connected?
    requires t[3] == Closing(a, outcome) && t[4] == RuntimeClosed
    requires t[5] == LeaseReleased(a.access.sessionID, a.access.leaseID, OutcomeText(outcome))
    requires t[6].Finished? && t[6].finish.outcome == outcome && t[6].finish.connected
    ensures Orderly(t, a, outcome)
  {
    hide OutcomeText;
    assert KindOf(t[..6][2]) == Connecting;
    assert Sole(t, t[6]);
    assert Sole(t, t[1]) && Sole(t, t[3]) && Sole(t, t[4]) && Sole(t, t[5]);
    hide Sole;
  }

  // ------------------------------------------------- what a normal finish means

  lemma {:induction false} DeliveredCounts(w: ExecStream.World, kind: ExecStream.Kind)
    requires ExecStream.Delivered(w, kind)
    ensures w.out.bytesOut
         == (|ExecStream.BytesOf(w.out.wire, ExecStream.Stdout)| + |ExecStream.BytesOf(w.out.wire, ExecStream.Stderr)|)
            % TWO_TO_THE_64
  {
    hide ExecStream.BytesOf;
  }

  /** A finish that reports a normal exec end comes from a stream that was delivered as a normal end
      promises, and carries the sum of the bytes then on the wire. */
  lemma {:induction false} NormalExecFinish(a: Admitted, outside: Outside, kind: ExecStream.Kind)
    requires Sound(a, outside) && Connects(a, outside) && a.access.mode == MODE_EXEC
    requires OutcomeOf(a, outside) == Normal
    ensures var t := Trace(a, outside);
            var w := ExecWorld(outside.carried, a.access, outside.carried.chosen);
            && t[|t| - 1].Finished? && t[|t| - 1].finish.outcome == Normal
            && ExecStream.Delivered(w, kind)
            && t[|t| - 1].finish.bytesOut
               == (|ExecStream.BytesOf(w.out.wire, ExecStream.Stdout)| + |ExecStream.BytesOf(w.out.wire, ExecStream.Stderr)|)
                  % TWO_TO_THE_64
  {
    hide ExecStream.WorldAt, TimedExec.JointAt, OutcomeText, ExecStream.BytesOf, ValidStart, ExecStream.Delivered;
    var c, tty := outside.carried, a.access.exec.value.tty;
    var acts, m := ExecJoint(c, a.access, c.left).acts, |ExecJoint(c, a.access, c.chosen).acts|;
    TimedExec.OneStreamRuns(c.execActions, c.chosen, c.left, c.start, ExecTerms(c, a.access));
    ExecStream.NormalMeansDelivered(acts, m, tty, c.execPolicy, kind);
    ExecStream.OutcomeIsFinal(acts, m, |acts|, tty, c.execPolicy);
    DeliveredCounts(ExecWorld(c, a.access, c.chosen), kind);
  }

  lemma {:induction false} CarriedInput(c: Carried, access: ClaimedAccess)
    requires Carries(c, access) && access.mode == MODE_EXEC
    ensures c.ExecRun? && access.exec.Some? && c.left <= |c.execActions|
    ensures ExecStream.AppliedInOrder(ExecWorld(c, access, c.left).inp, c.execPolicy)
  {
    hide ExecStream.WorldAt, TimedExec.JointAt, ExecStream.AppliedInOrder;
    var acts := ExecJoint(c, access, c.left).acts;
    TimedExec.BothSidesRun(c.execActions, c.left, c.start, ExecTerms(c, access));
    ExecStream.InputIsAppliedInOrder(acts, |acts|, access.exec.value.tty, c.execPolicy);
  }

  /** The bytes in that a finish reports are the stdin applied, but for one write yet to be counted. */
  lemma {:induction false} ExecFinishCountsInput(a: Admitted, outside: Outside)
    requires Sound(a, outside) && Connects(a, outside) && a.access.mode == MODE_EXEC
    ensures var t := Trace(a, outside);
            var i := ExecWorld(outside.carried, a.access, outside.carried.left).inp;
            && t[|t| - 1].Finished? && i.applied <= i.received
            && t[|t| - 1].finish.bytesIn
               == (ExecStream.StdinBytes(i.applied) - ExecStream.Uncredited(i.applier)) % TWO_TO_THE_64
  {
    hide ExecWorld, Carries, ValidStart, OutcomeText, ExecStream.StdinBytes, Selected;
    CarriedInput(outside.carried, a.access);
  }

  /** A finish that reports a normal serial or VNC end comes from a stream all of whose output was
      passed to the socket, and carries its length. */
  lemma {:induction false} NormalByteFinish(a: Admitted, outside: Outside)
    requires Sound(a, outside) && Connects(a, outside) && a.access.mode != MODE_EXEC
    requires OutcomeOf(a, outside) == Normal
    ensures var t := Trace(a, outside);
            var o := ByteWorld(outside.carried, a.access, outside.carried.chosen).out;
            && t[|t| - 1].Finished? && t[|t| - 1].finish.outcome == Normal
            && o.passed == o.produced
            && t[|t| - 1].finish.bytesOut == |o.produced| % TWO_TO_THE_64
  {
    var c := outside.carried;
    var acts, m := ByteJoint(c, a.access, c.left).acts, |ByteJoint(c, a.access, c.chosen).acts|;
    TimedBytes.OneStreamRuns(c.byteActions, c.chosen, c.left, c.start, ByteTerms(c, a.access));
    ByteStream.NormalMeansComplete(acts, m, c.bytePolicy);
    ByteStream.OutcomeIsFinal(acts, m, |acts|, c.bytePolicy);
    hide ByteStream.WorldAt, TimedBytes.JointAt, OutcomeText, ValidStart;
  }

  // ------------------------------------------------------------- the handler

  /** A request as the handler sees it. */
  datatype Upgrade = Upgrade(originAllowed: bool, offered: set<string>, ticket: string, upgrades: bool)

  function SubprotocolFor(mode: string): string {
    if mode == MODE_VNC then VNC_SUBPROTOCOL else TERMINAL_SUBPROTOCOL
  }

  /** Whether the request gets as far as a claim. */
  predicate Asks(u: Upgrade) {
    && u.originAllowed
    && (TERMINAL_SUBPROTOCOL in u.offered || VNC_SUBPROTOCOL in u.offered)
    && u.ticket != ""
  }

  function Upgraded(access: ClaimedAccess): Admitted {
    Admitted(access, Some(SubprotocolFor(access.mode)))
  }

  function Served(u: Upgrade, access: ClaimedAccess, outside: Outside): seq<Event>
    requires Sound(Upgraded(access), outside)
  {
    if SubprotocolFor(access.mode) !in u.offered then
      [LeaseReleased(access.sessionID, access.leaseID, "subprotocol_rejected")]
    else if !u.upgrades then
      [LeaseReleased(access.sessionID, access.leaseID, "upgrade_failed")]
    else
      Trace(Upgraded(access), outside)
  }

  function ReasonOf(u: Upgrade, access: ClaimedAccess, outside: Outside): string
    requires Sound(Upgraded(access), outside)
  {
    if SubprotocolFor(access.mode) !in u.offered then "subprotocol_rejected"
    else if !u.upgrades then "upgrade_failed"
    else OutcomeText(OutcomeOf(Upgraded(access), outside))
  }

  /** What the manager's store answers to a claim, and what becomes of it. */
  function Asked(st: MemoryStore.StoreState, manager: Manager, id: string, ticket: string, at: Time)
    : (MemoryStore.StoreState, Reply)
  {
    MemoryStore.Step(st, Call(at, Claim(id, manager.crypto.sha256(ticket))), manager.cfg.limits)
  }

  /** Serves one request: claims its session and, if that succeeds, releases the lease once more,
      having run the session or not. */
  method Serve(log: Log, manager: Manager, id: string, u: Upgrade, claimedAt: Time, outside: Outside)
    returns (claimed: bool)
    requires manager.store.Valid() && manager.cfg.Positive()
    requires var answer := ClaimAnswer(Asked(manager.store.State(), manager, id, u.ticket, claimedAt).1);
             answer.Ok? ==> Sound(Upgraded(answer.value), outside)
    modifies log, manager.store
    ensures manager.store.Valid()
    ensures !Asks(u) ==> !claimed && manager.store.State() == old(manager.store.State()) && log.events == old(log.events)
    ensures Asks(u) ==>
              var (st, reply) := Asked(old(manager.store.State()), manager, id, u.ticket, claimedAt);
              match ClaimAnswer(reply)
              case Err(_) => !claimed && manager.store.State() == st && log.events == old(log.events)
              case Ok(access) =>
                && claimed
                && log.events == old(log.events) + Served(u, access, outside)
                && manager.store.State() == AfterClose(st, access, ReasonOf(u, access, outside), outside.closedAt, manager.cfg)
  {
    hide Sound, MemoryStore.Step, MemoryStore.Rep, OutcomeText, ClaimAnswer, OutcomeOf, Trace;
    if !u.originAllowed {
      return false;
    }
    if !(TERMINAL_SUBPROTOCOL in u.offered || VNC_SUBPROTOCOL in u.offered) {
      return false;
    }
    if u.ticket == "" {
      return false;
    }
    var claim := manager.ClaimSession(id, u.ticket, claimedAt);
    if claim.Err? {
      return false;
    }
    var access := claim.value;
    claimed := true;
    var release, reason := true, "upgrade_failed";
    var expected := TERMINAL_SUBPROTOCOL;
    if access.mode == MODE_VNC {
      expected := VNC_SUBPROTOCOL;
    }
    if expected !in u.offered {
      reason := "subprotocol_rejected";
    } else if u.upgrades {
      release := false;
      var _ := Run(log, manager, Admitted(access, Some(expected)), outside);
    }
    // The handler's deferred release.
    if release {
      log.Add(LeaseReleased(access.sessionID, access.leaseID, reason));
      var _ := manager.CloseSession(access.sessionID, access.leaseID, reason, outside.closedAt);
    }
  }

  /** Every claim that succeeds is followed by exactly one release of its lease, whatever happens in between. */
  lemma {:induction false} OneReleasePerClaim(u: Upgrade, access: ClaimedAccess, outside: Outside)
    requires Sound(Upgraded(access), outside)
    ensures var t := Served(u, access, outside);
            Sole(t, LeaseReleased(access.sessionID, access.leaseID, ReasonOf(u, access, outside)))
  {
    hide OutcomeText, Sound, OutcomeOf, Connects, BytesIn, BytesOut;
    var t := Served(u, access, outside);
    if |t| == 1 {
      assert Sole(t, t[0]);
    } else {
      assert Sole(t, t[|t| - 2]);
    }
  }

  /** After a claim that succeeds and its release, however late, the store holds no lease of the
      session, and the session, if it is still remembered, is closed: at the release and for its
      reason if the lease had not run out, and at the lease's end otherwise. */
  lemma {:induction false} ServedLeaseIsReleased(st: MemoryStore.StoreState, id: string, digest: Digest, claimedAt: Time,
                                                 reason: string, closedAt: Time, cfg: Config)
    requires MemoryStore.Rep(st) && cfg.Positive() && claimedAt <= closedAt
    requires ClaimAnswer(MemoryStore.Step(st, Call(claimedAt, Claim(id, digest)), cfg.limits).1).Ok?
    ensures var (claimed, reply) := MemoryStore.Step(st, Call(claimedAt, Claim(id, digest)), cfg.limits);
            var released := AfterClose(claimed, ClaimAnswer(reply).value, reason, closedAt, cfg);
            && id in claimed.leases && id in claimed.sessions
            && id !in released.leases
            && (id in released.sessions ==>
                  var s, end := released.sessions[id], claimedAt + cfg.limits.sessionMaxDuration;
                  && s.state.Closed? && s.claimedAt == claimedAt && s.intent == claimed.sessions[id].intent
                  && (if closedAt < end then s.closedAt == closedAt && s.closeReason == reason
                      else s.closedAt == end && s.closeReason == "max_duration"))
  {
    hide MemoryStore.Sweep, MemoryStore.SessionOk, MemoryStore.CloseAct;
    var swept := MemoryStore.Sweep(st, claimedAt);
    MemoryStore.SweepKeepsRep(st, claimedAt);
    GrantedClaim(swept, id, digest, claimedAt, cfg);
    MemoryStore.ClaimKeepsRep(swept, id, digest, claimedAt, cfg.limits);
    hide MemoryStore.ClaimAct, MemoryStore.Rep, MemoryStore.Indexed;
    CloseReleases(MemoryStore.ClaimAct(swept, id, digest, claimedAt, cfg.limits).0, id, reason, closedAt, cfg);
  }

  lemma {:induction false} GrantedClaim(st: MemoryStore.StoreState, id: string, digest: Digest, at: Time, cfg: Config)
    requires MemoryStore.Rep(st) && ClaimAnswer(MemoryStore.ClaimAct(st, id, digest, at, cfg.limits).1).Ok?
    ensures var (claimed, reply) := MemoryStore.ClaimAct(st, id, digest, at, cfg.limits);
            var access := ClaimAnswer(reply).value;
            && access.sessionID == id && access.leaseID == LeaseIDFor(id)
            && id in claimed.leases && id in claimed.sessions
            && claimed.sessions[id].state.Claimed? && claimed.sessions[id].leaseID == LeaseIDFor(id)
            && claimed.sessions[id].claimedAt == at
            && claimed.sessions[id].expiresAt == at + cfg.limits.sessionMaxDuration
  {
    assert id in st.sessions ==> MemoryStore.SessionOk(st, id);
    hide MemoryStore.Indexed, MemoryStore.LeasesFor;
  }

  lemma {:induction false} CloseReleases(st: MemoryStore.StoreState, id: string, reason: string, at: Time, cfg: Config)
    requires MemoryStore.Rep(st) && id in st.sessions
    requires st.sessions[id].state.Claimed? && st.sessions[id].leaseID == LeaseIDFor(id)
    ensures var released := MemoryStore.Step(st, Call(at, Close(id, LeaseIDFor(id), reason)), cfg.limits).0;
            && id !in released.leases
            && (id in released.sessions ==>
                  var s, before := released.sessions[id], st.sessions[id];
                  && s.state.Closed? && s.claimedAt == before.claimedAt && s.intent == before.intent
                  && (if at < before.expiresAt then s.closedAt == at && s.closeReason == reason
                      else s.closedAt == before.expiresAt && s.closeReason == "max_duration"))
  {
    var swept := MemoryStore.Sweep(st, at);
    MemoryStore.SweepKeepsRep(st, at);
    ClaimedThenSwept(st, id, at);
    assert id in swept.sessions ==> MemoryStore.SessionOk(swept, id);
    hide MemoryStore.Sweep, MemoryStore.Indexed, MemoryStore.Rep;
  }

  /** What a sweep makes of a claimed session. */
  lemma {:induction false} ClaimedThenSwept(st: MemoryStore.StoreState, id: string, at: Time)
    requires MemoryStore.Rep(st) && id in st.sessions && st.sessions[id].state.Claimed?
    ensures var swept, before := MemoryStore.Sweep(st, at), st.sessions[id];
            id in swept.sessions ==>
              if at < before.expiresAt then swept.sessions[id] == before
              else && swept.sessions[id].state.Closed?
                   && swept.sessions[id].claimedAt == before.claimedAt && swept.sessions[id].intent == before.intent
                   && swept.sessions[id].closedAt == before.expiresAt && swept.sessions[id].closeReason == "max_duration"
  {
    assert MemoryStore.SessionOk(st, id);
    hide MemoryStore.Indexed;
  }

  /** What a valid request was issued for passes the start check once it is claimed and upgraded,
      so the handler never starts a run that is reported as an invalid start. */
  lemma {:induction false} IssuedAccessStarts(crypto: Crypto, cfg: Config, r: Request, draw: Draw, issuedAt: Time,
                                              claimedAt: Time)
    requires ValidRequest(r) && draw.id != ""
    ensures var s := ClaimedSession(CandidateFor(crypto, cfg, r, draw, issuedAt), claimedAt, cfg.limits);
            ValidStart(Upgraded(AccessOf(SessionLease(s.leaseID, s, s.expiresAt))))
  {
    hide ValidVMBinding;
  }
}
