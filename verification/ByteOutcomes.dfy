/** Where the outcome of a serial or VNC run comes from: what each pump reports, what the slot keeps,
    what the main loop chooses. */
module ByteOutcomes {
  import opened Sessions
  import opened Frames
  import opened ByteStream
  import ExecOutcomes

  /** What the event that an action stands for obliges a pump to report. */
  ghost function Cause(w: World, a: Action, p: Policy): set<Outcome> {
    match a
    case SocketReadReturns(Rejected(status)) =>
      if w.inp.pump.Listening? then {ExecOutcomes.Departure(w.cancelled, status)} else {}
    case SocketReadReturns(Accepted(m)) =>
      if w.inp.pump.Listening? && CarriesNothing(p, m)
      then {if p.mode == "vnc" then InvalidVNCFrame else InvalidTerminalFrame} else {}
    case RuntimeWriteReturns(length, Some(error)) =>
      if w.inp.pump.Writing? && length <= |w.inp.pump.payload|
      then {if error.Overrun? then Backpressure else RuntimeFailed} else {}
    case SocketWriteReturns(Some(status)) =>
      if w.out.pump.Sending? then {ExecOutcomes.Departure(w.cancelled, status)} else {}
    case RuntimeReadReturns(chunk, end) =>
      if w.out.pump.Reading? && chunk == "" then AtEnd(end, w.cancelled) else {}
    case OutTouches =>
      if w.out.pump.OutCounted? then AtEnd(w.out.pump.end, w.cancelled) else {}
    case _ => {}
  }

  /** The end of the stream is a normal one; a failure is one too, unless it comes of a cancelled run. */
  function AtEnd(end: ReadEnd, cancelled: bool): set<Outcome> {
    match end
    case More => {}
    case Ended => {Normal}
    case Failed => if cancelled then {} else {RuntimeFailed}
  }

  /** What an action puts to the outcome slot. */
  function Put(w: World, a: Action): seq<Outcome> {
    match a
    case InSignals => if w.inp.pump.InReports? then [w.inp.pump.outcome] else []
    case OutSignals => if w.out.pump.OutReports? then [w.out.pump.outcome] else []
    case _ => []
  }

  function InDue(pump: InPump): set<Outcome> {
    if pump.InReports? then {pump.outcome} else {}
  }

  function OutDue(pump: OutPump): set<Outcome> {
    if pump.OutReports? then {pump.outcome} else {}
  }

  function Elements(s: seq<Outcome>): set<Outcome> {
    set o | o in s
  }

  function Pending(w: World): set<Outcome> {
    InDue(w.inp.pump) + OutDue(w.out.pump)
  }

  lemma {:induction false} InReportsAll(w: World, a: Action, p: Policy)
    requires a.SocketReadReturns? || a.RuntimeWriteReturns? || a.InCounts? || a.InTouches? || a.InSignals?
    ensures var w' := InStep(w, a, p);
            InDue(w'.inp.pump) + Elements(Put(w, a)) == InDue(w.inp.pump) + Cause(w, a, p) && w'.out == w.out
  {
    match a {
      case SocketReadReturns(Rejected(status)) => ExecOutcomes.DepartureIsClassified(w.cancelled, status);
      case SocketReadReturns(Accepted(m)) => DecodingTells(p, m);
      case _ =>
    }
    hide DecodeBytePayload, ClassifyTransport, ExecOutcomes.Departure, CarriesNothing, Added;
  }

  lemma {:induction false} DecodingTells(p: Policy, m: Message)
    ensures match DecodeBytePayload(p.json, p.mode, m, p.maxMessageBytes)
            case Accepted(_) => !CarriesNothing(p, m)
            case Rejected(outcome) =>
              CarriesNothing(p, m) && outcome == if p.mode == "vnc" then InvalidVNCFrame else InvalidTerminalFrame
  {
    DecodingCarries(p, m);
    hide DecodeBytePayload, Carries;
    var decoded := DecodeBytePayload(p.json, p.mode, m, p.maxMessageBytes);
    if decoded.Accepted? {
      assert Carries(p, m, decoded.value);
    }
  }

  lemma {:induction false} OutReportsAll(w: World, a: Action, p: Policy)
    requires a.RuntimeReadReturns? || a.SocketWriteReturns? || a.OutCounts? || a.OutTouches? || a.OutSignals?
    ensures var w' := OutStep(w, a);
            OutDue(w'.out.pump) + Elements(Put(w, a)) == OutDue(w.out.pump) + Cause(w, a, p) && w'.inp == w.inp
  {
    if a.SocketWriteReturns? && a.status.Some? {
      ExecOutcomes.DepartureIsClassified(w.cancelled, a.status.value);
    }
    hide ClassifyTransport, ExecOutcomes.Departure, Added;
  }

  /** Whatever an action's event obliges to be reported is then pending or put to the slot, and nothing else is. */
  lemma {:induction false} StepReports(w: World, a: Action, p: Policy)
    ensures Pending(Apply(w, a, p)) + Elements(Put(w, a)) == Pending(w) + Cause(w, a, p)
  {
    hide InStep, OutStep, InDue, OutDue;
    match a
    case SocketReadReturns(_) | RuntimeWriteReturns(_, _) | InCounts | InTouches | InSignals =>
      InReportsAll(w, a, p);
      hide Put, Cause, Elements;
    case RuntimeReadReturns(_, _) | SocketWriteReturns(_) | OutCounts | OutTouches | OutSignals =>
      OutReportsAll(w, a, p);
      hide Put, Cause, Elements;
    case _ =>
  }

  ghost function Causes(actions: seq<Action>, n: nat, p: Policy): set<Outcome>
    requires n <= |actions|
  {
    if n == 0 then {} else Causes(actions, n - 1, p) + Cause(WorldAt(actions, n - 1, p), actions[n - 1], p)
  }

  function Puts(actions: seq<Action>, n: nat, p: Policy): seq<Outcome>
    requires n <= |actions|
  {
    if n == 0 then [] else Puts(actions, n - 1, p) + Put(WorldAt(actions, n - 1, p), actions[n - 1])
  }

  /** In every run just what events oblige to be reported is reported, or about to be. */
  lemma {:induction false} ReportsAreComplete(actions: seq<Action>, n: nat, p: Policy)
    requires n <= |actions|
    ensures Pending(WorldAt(actions, n, p)) + Elements(Puts(actions, n, p)) == Causes(actions, n, p)
  {
    hide Pending, Put, Cause, Apply, Elements;
    if n == 0 {
      NothingReported();
    } else {
      var w, a := WorldAt(actions, n - 1, p), actions[n - 1];
      ReportsAreComplete(actions, n - 1, p);
      StepReports(w, a, p);
      ElementsOfSum(Puts(actions, n - 1, p), Put(w, a));
      ExecOutcomes.Balance(Pending(w), Elements(Puts(actions, n - 1, p)), Causes(actions, n - 1, p),
                           Pending(Apply(w, a, p)), Elements(Put(w, a)), Cause(w, a, p));
    }
  }

  lemma {:induction false} NothingReported()
    ensures Pending(START) + Elements([]) == {}
  {
  }

  lemma {:induction false} ElementsOfSum(a: seq<Outcome>, b: seq<Outcome>)
    ensures Elements(a + b) == Elements(a) + Elements(b)
  {
  }

  function Slot(puts: seq<Outcome>): Option<Outcome> {
    if puts == [] then None else Some(puts[0])
  }

  lemma {:induction false} StepKeepsSlot(w: World, a: Action, p: Policy, puts: seq<Outcome>)
    requires !w.main.Frozen? ==> w.outcomes == Slot(puts)
    ensures !Apply(w, a, p).main.Frozen? ==> !w.main.Frozen? && Apply(w, a, p).outcomes == Slot(puts + Put(w, a))
  {
    assert puts + [] == puts;
    hide ClassifyTransport, DecodeBytePayload, Added;
  }

  /** Until the main loop chooses, the slot holds the first outcome ever put to it. */
  lemma {:induction false} SlotKeepsTheFirst(actions: seq<Action>, n: nat, p: Policy)
    requires n <= |actions|
    ensures !WorldAt(actions, n, p).main.Frozen? ==> WorldAt(actions, n, p).outcomes == Slot(Puts(actions, n, p))
  {
    if n > 0 {
      hide Apply, Put, Slot;
      SlotKeepsTheFirst(actions, n - 1, p);
      StepKeepsSlot(WorldAt(actions, n - 1, p), actions[n - 1], p, Puts(actions, n - 1, p));
    } else {
      assert Puts(actions, 0, p) == [];
    }
  }

  /** What the main loop, not yet frozen, chooses by an action: the outcome in the slot, a timer, or the cancelled context. */
  function Choice(w: World, a: Action): Option<Outcome> {
    if w.main.Frozen? then None
    else match a
      case MainTakesOutcome => w.outcomes
      case MainTimesOut(outcome) => if outcome in {IdleTimeout, MaxDuration} then Some(outcome) else None
      case MainStops => if w.cancelled then Some(Shutdown) else None
      case _ => None
  }

  lemma {:induction false} StepChooses(w: World, a: Action, p: Policy)
    ensures var m := Apply(w, a, p).main;
            if w.main.Frozen? then m == w.main
            else if Choice(w, a).Some? then m == Frozen(Choice(w, a).value)
            else !m.Frozen?
  {
    hide ClassifyTransport, DecodeBytePayload, Added;
  }

  ghost predicate ChoosesAt(actions: seq<Action>, k: nat, p: Policy, outcome: Outcome)
    requires k < |actions|
  {
    !WorldAt(actions, k, p).main.Frozen? && Choice(WorldAt(actions, k, p), actions[k]) == Some(outcome)
  }

  /** In every run that has an outcome, one action chose it; and if that took it from the slot, it is the
      first outcome ever put there, and an event obliged a pump to report it. */
  lemma {:induction false} OutcomeIsChosen(actions: seq<Action>, n: nat, p: Policy) returns (k: nat)
    requires n <= |actions| && WorldAt(actions, n, p).main.Frozen?
    ensures k < n && ChoosesAt(actions, k, p, WorldAt(actions, n, p).main.outcome)
    ensures actions[k].MainTakesOutcome? ==>
              var puts, outcome := Puts(actions, k, p), WorldAt(actions, n, p).main.outcome;
              puts != [] && outcome == puts[0] && outcome in Causes(actions, k, p)
  {
    hide Apply, Choice, Put, Cause;
    k := n - 1;
    StepChooses(WorldAt(actions, k, p), actions[k], p);
    if WorldAt(actions, k, p).main.Frozen? {
      k := OutcomeIsChosen(actions, k, p);
    } else if actions[k].MainTakesOutcome? {
      SlotKeepsTheFirst(actions, k, p);
      ReportsAreComplete(actions, k, p);
      TakenFromSlot(WorldAt(actions, k, p));
      assert Puts(actions, k, p)[0] in Elements(Puts(actions, k, p));
    }
  }

  lemma {:induction false} TakenFromSlot(w: World)
    ensures Choice(w, MainTakesOutcome).Some? ==> w.outcomes.Some? && Choice(w, MainTakesOutcome).value == w.outcomes.value
  {
  }

  /** What the pumps of a serial or VNC session can report. */
  ghost function Reportable(p: Policy): set<Outcome> {
    {Normal, ClientClosed, MessageTooBig, Backpressure, RuntimeFailed, TransportFailed, Shutdown}
    + {if p.mode == "vnc" then InvalidVNCFrame else InvalidTerminalFrame}
  }

  lemma {:induction false} CauseIsReportable(w: World, a: Action, p: Policy)
    ensures Cause(w, a, p) <= Reportable(p)
  {
    hide CarriesNothing;
  }

  lemma {:induction false} CausesAreReportable(actions: seq<Action>, n: nat, p: Policy)
    requires n <= |actions|
    ensures Causes(actions, n, p) <= Reportable(p)
  {
    hide Cause, WorldAt, Reportable;
    if n > 0 {
      CausesAreReportable(actions, n - 1, p);
      CauseIsReportable(WorldAt(actions, n - 1, p), actions[n - 1], p);
    }
  }

  /** The outcome slot holds nothing else, no timeout in particular. */
  lemma {:induction false} SlotIsReportable(actions: seq<Action>, n: nat, p: Policy)
    requires n <= |actions| && !WorldAt(actions, n, p).main.Frozen?
    ensures var slot := WorldAt(actions, n, p).outcomes;
            slot.Some? ==> slot.value in Reportable(p)
  {
    hide WorldAt, Causes, Puts, Pending, Reportable;
    SlotKeepsTheFirst(actions, n, p);
    ReportsAreComplete(actions, n, p);
    CausesAreReportable(actions, n, p);
    var puts := Puts(actions, n, p);
    if puts != [] {
      assert puts[0] in Elements(puts);
    }
  }

  /** A serial or VNC run ends by a timeout or with what a pump can report, never with what only a start can fail of. */
  lemma {:induction false} OutcomesOfRuns(actions: seq<Action>, n: nat, p: Policy)
    requires n <= |actions| && WorldAt(actions, n, p).main.Frozen?
    ensures WorldAt(actions, n, p).main.outcome in Reportable(p) + {IdleTimeout, MaxDuration}
  {
    hide WorldAt, Causes, Puts;
    var k := OutcomeIsChosen(actions, n, p);
    CausesAreReportable(actions, k, p);
  }

  /** Whether a token waits after n actions: bytes were passed either way since one was last taken. */
  function Token(actions: seq<Action>, n: nat, p: Policy): bool
    requires n <= |actions|
  {
    if n == 0 then false
    else
      var w, a := WorldAt(actions, n - 1, p), actions[n - 1];
      || (a.InTouches? && w.inp.pump.InCounted?)
      || (a.OutTouches? && w.out.pump.OutCounted?)
      || (Token(actions, n - 1, p) && !(a.MainTakesActivity? && w.main.Selecting?))
  }

  lemma {:induction false} ActivityIsKept(actions: seq<Action>, n: nat, p: Policy)
    requires n <= |actions|
    ensures WorldAt(actions, n, p).activity == Token(actions, n, p)
  {
    if n > 0 {
      ActivityIsKept(actions, n - 1, p);
      StepTouches(WorldAt(actions, n - 1, p), actions[n - 1], p);
      hide Apply;
    }
  }

  lemma {:induction false} StepTouches(w: World, a: Action, p: Policy)
    ensures Apply(w, a, p).activity ==
            (|| (a.InTouches? && w.inp.pump.InCounted?)
             || (a.OutTouches? && w.out.pump.OutCounted?)
             || (w.activity && !(a.MainTakesActivity? && w.main.Selecting?)))
  {
    hide ClassifyTransport, DecodeBytePayload, Added;
  }
}
