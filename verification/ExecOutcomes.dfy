/** Where the outcome of an exec run comes from: what each pump reports, what the slot keeps, what the main loop chooses. */
module ExecOutcomes {
  import opened Sessions
  import opened Frames
  import opened ExecStream

  /** What an error of the socket amounts to: the shutdown that caused it, or how the client left. */
  function Departure(cancelled: bool, status: int): Failure {
    if cancelled then Shutdown
    else if status in {1000, 1001} then ClientClosed
    else if status == 1009 then MessageTooBig
    else TransportFailed
  }

  lemma {:induction false} DepartureIsClassified(cancelled: bool, status: int)
    ensures ClassifyTransport(cancelled, status) == Departure(cancelled, status)
  {
  }

  // ------------------------------------------------------- what must be reported

  /** What the event that an action stands for obliges a pump, or the main loop, to report. */
  ghost function Cause(w: World, a: Action, p: Policy): set<Failure> {
    match a
    case ReadReturns(Rejected(status)) =>
      if w.inp.reader.Listening? then {Departure(w.ctl.cancelled, status)} else {}
    case ReadReturns(Accepted(m)) =>
      if w.inp.reader.Listening? && SaysNothing(p, m) then {InvalidTerminalFrame} else {}
    case ReaderOffers(Overflow) =>
      if w.inp.reader.Holding? && p.inboundQueue <= |w.inp.queue| && !w.ctl.cancelled then {Backpressure} else {}
    case ApplyReturns(Some(error)) =>
      if w.inp.applier.Applying? then {if error.Overrun? then Backpressure else RuntimeFailed} else {}
    case OutputReturns(kind, chunk, Failed) =>
      if SourceOf(w, kind).pump.Reading? && chunk == "" && !w.ctl.cancelled then {RuntimeFailed} else {}
    case OutputOffers(kind, Accept) =>
      if SourceOf(w, kind).pump.Offering? && SourceOf(w, kind).pump.end.Failed?
         && |w.out.queue| < p.outboundQueue && !w.ctl.cancelled then {RuntimeFailed} else {}
    case OutputOffers(kind, Overflow) =>
      if SourceOf(w, kind).pump.Offering? && p.outboundQueue <= |w.out.queue| && !w.ctl.cancelled then {Backpressure} else {}
    case WriterCounts =>
      if w.out.writer.Acked? && w.out.writer.end.Some? then {Departure(w.ctl.cancelled, w.out.writer.end.value)} else {}
    case MainOffersExit(Overflow) =>
      if w.ctl.main.Sending? && p.outboundQueue <= |w.out.queue| && !w.ctl.cancelled then {Backpressure} else {}
    case _ => {}
  }

  /** What an action puts to the outcome slot. */
  function Put(w: World, a: Action, p: Policy): seq<Failure> {
    match a
    case ReaderReports => if w.inp.reader.Reporting? then [w.inp.reader.outcome] else []
    case ApplierReports => if w.inp.applier.Complaining? then [w.inp.applier.outcome] else []
    case OutputReports(kind) => if SourceOf(w, kind).pump.Telling? then [SourceOf(w, kind).pump.outcome] else []
    case WriterCounts =>
      if w.out.writer.Acked? && w.out.writer.end.Some? then [Departure(w.ctl.cancelled, w.out.writer.end.value)] else []
    case MainOffersExit(Overflow) =>
      if w.ctl.main.Sending? && p.outboundQueue <= |w.out.queue| && !w.ctl.cancelled then [Backpressure] else []
    case _ => []
  }

  function ReaderDue(r: Reader): set<Failure> {
    if r.Reporting? then {r.outcome} else {}
  }

  function ApplierDue(a: Applier): set<Failure> {
    if a.Complaining? then {a.outcome} else {}
  }

  function PumpDue(p: Pump): set<Failure> {
    if p.Telling? then {p.outcome} else {}
  }

  /** What the pumps are about to report. */
  function Pending(w: World): set<Failure> {
    ReaderDue(w.inp.reader) + ApplierDue(w.inp.applier) + PumpDue(w.stdout.pump) + PumpDue(w.stderr.pump)
  }

  function Elements(s: seq<Failure>): set<Failure> {
    set o | o in s
  }

  // ---------------------------------------------------------------- each step

  lemma {:induction false} ReaderReportsAll(w: World, a: Action, p: Policy)
    requires a.ReadReturns? || a.ReaderOffers? || a.ReaderTouches? || a.ReaderReports?
    ensures var w' := ReaderStep(w, a, p);
            ReaderDue(w'.inp.reader) + Elements(Put(w, a, p)) == ReaderDue(w.inp.reader) + Cause(w, a, p)
  {
    match a {
      case ReadReturns(Rejected(status)) => DepartureIsClassified(w.ctl.cancelled, status);
      case ReadReturns(Accepted(m)) => DecodingTells(p, m);
      case _ =>
    }
    hide DecodeClientFrame, ClassifyTransport, Departure, SaysNothing;
  }

  lemma {:induction false} DecodingTells(p: Policy, m: Message)
    ensures SaysNothing(p, m) <==> !m.text || DecodeClientFrame(p.json, m.raw, p.maxMessageBytes).None?
  {
    DecodingSays(p, m);
    hide DecodeClientFrame, Says;
    if m.text && DecodeClientFrame(p.json, m.raw, p.maxMessageBytes).Some? {
      assert Says(p, m, DecodeClientFrame(p.json, m.raw, p.maxMessageBytes).value);
    }
  }

  lemma {:induction false} ApplierReportsAll(w: World, a: Action, p: Policy)
    requires a.ApplierTakes? || a.ApplierQuits? || a.ApplyReturns? || a.ApplierCounts? || a.ApplierTouches?
             || a.ApplierReports?
    ensures var w' := ApplierStep(w, a);
            ApplierDue(w'.inp.applier) + Elements(Put(w, a, p)) == ApplierDue(w.inp.applier) + Cause(w, a, p)
  {
    hide Added;
  }

  lemma {:induction false} OutputReportsAll(w: World, kind: Kind, a: Action, p: Policy)
    requires a.OutputReturns? || a.OutputOffers? || a.OutputReports?
    requires a.kind == kind
    ensures var w' := OutputStep(w, kind, a, p);
            && PumpDue(SourceOf(w', kind).pump) + Elements(Put(w, a, p)) == PumpDue(SourceOf(w, kind).pump) + Cause(w, a, p)
            && w'.inp == w.inp && (kind.Stdout? ==> w'.stderr == w.stderr) && (kind.Stderr? ==> w'.stdout == w.stdout)
  {
  }

  lemma {:induction false} WriterReportsAll(w: World, a: Action, p: Policy)
    requires a.WriterTakes? || a.WriterQuits? || a.WriteReturns? || a.WriterAcks? || a.WriterCounts? || a.WriterTouches?
    ensures Elements(Put(w, a, p)) == Cause(w, a, p) && Pending(WriterStep(w, a)) == Pending(w)
  {
    hide ClassifyTransport, Departure, Added;
  }

  lemma {:induction false} ReaderMovesAlone(w: World, a: Action, p: Policy)
    ensures var w' := ReaderStep(w, a, p);
            w'.inp.applier == w.inp.applier && w'.stdout == w.stdout && w'.stderr == w.stderr
  {
    hide DecodeClientFrame, ClassifyTransport;
  }

  lemma {:induction false} ApplierMovesAlone(w: World, a: Action)
    ensures var w' := ApplierStep(w, a);
            w'.inp.reader == w.inp.reader && w'.stdout == w.stdout && w'.stderr == w.stderr
  {
    hide Added;
  }

  lemma {:induction false} ReaderBalances(w: World, a: Action, p: Policy)
    requires a.ReadReturns? || a.ReaderOffers? || a.ReaderTouches? || a.ReaderReports?
    ensures Pending(ReaderStep(w, a, p)) + Elements(Put(w, a, p)) == Pending(w) + Cause(w, a, p)
  {
    hide ReaderStep, ReaderDue, ApplierDue, PumpDue, Put, Cause, Elements;
    ReaderReportsAll(w, a, p);
    ReaderMovesAlone(w, a, p);
  }

  lemma {:induction false} ApplierBalances(w: World, a: Action, p: Policy)
    requires a.ApplierTakes? || a.ApplierQuits? || a.ApplyReturns? || a.ApplierCounts? || a.ApplierTouches?
             || a.ApplierReports?
    ensures Pending(ApplierStep(w, a)) + Elements(Put(w, a, p)) == Pending(w) + Cause(w, a, p)
  {
    hide ApplierStep, ReaderDue, ApplierDue, PumpDue, Put, Cause, Elements;
    ApplierReportsAll(w, a, p);
    ApplierMovesAlone(w, a);
  }

  lemma {:induction false} OutputBalances(w: World, kind: Kind, a: Action, p: Policy)
    requires (a.OutputReturns? || a.OutputOffers? || a.OutputReports?) && a.kind == kind
    ensures Pending(OutputStep(w, kind, a, p)) + Elements(Put(w, a, p)) == Pending(w) + Cause(w, a, p)
  {
    hide OutputStep, ReaderDue, ApplierDue, PumpDue, Put, Cause, Elements;
    OutputReportsAll(w, kind, a, p);
  }

  predicate IsOther(a: Action) {
    || a.CancelParent? || a.WaitReturns? || a.WaiterSends? || a.WaiterQuits?
    || a.MainTakesOutcome? || a.MainTakesResult? || a.MainTakesActivity? || a.IdleFires? || a.MaxFires? || a.MainStops?
    || a.MainOffersExit? || a.MainTakesAck? || a.MainCancels?
  }

  lemma {:induction false} MainLeavesPumps(w: World, a: Action, p: Policy)
    ensures var w' := MainStep(w, a, p);
            w'.inp == w.inp && w'.stdout == w.stdout && w'.stderr == w.stderr
  {
    hide ClassifyTransport, Enqueue;
  }

  lemma {:induction false} OthersLeavePumps(w: World, a: Action, p: Policy)
    requires IsOther(a)
    ensures var w' := Apply(w, a, p);
            w'.inp == w.inp && w'.stdout == w.stdout && w'.stderr == w.stderr
  {
    MainLeavesPumps(w, a, p);
    hide WriterStep, ReaderStep, ApplierStep, OutputStep, MainStep;
  }

  lemma {:induction false} OthersPut(w: World, a: Action, p: Policy)
    requires IsOther(a)
    ensures Elements(Put(w, a, p)) == Cause(w, a, p)
  {
    hide Departure;
  }

  lemma {:induction false} OthersBalance(w: World, a: Action, p: Policy)
    requires IsOther(a)
    ensures Pending(Apply(w, a, p)) == Pending(w) && Elements(Put(w, a, p)) == Cause(w, a, p)
  {
    OthersLeavePumps(w, a, p);
    OthersPut(w, a, p);
    hide Apply, Put, Cause, Elements, ReaderDue, ApplierDue, PumpDue;
  }

  /** Whatever an action's event obliges to be reported is then pending or put to the slot, and nothing else is. */
  lemma {:induction false} StepReports(w: World, a: Action, p: Policy)
    ensures Pending(Apply(w, a, p)) + Elements(Put(w, a, p)) == Pending(w) + Cause(w, a, p)
  {
    hide WriterStep, ReaderStep, ApplierStep, OutputStep, Pending, Put, Cause, Elements;
    match a
    case WriterTakes | WriterQuits | WriteReturns(_) | WriterAcks | WriterCounts | WriterTouches => WriterReportsAll(w, a, p);
    case ReadReturns(_) | ReaderOffers(_) | ReaderTouches | ReaderReports => ReaderBalances(w, a, p);
    case ApplierTakes | ApplierQuits | ApplyReturns(_) | ApplierCounts | ApplierTouches | ApplierReports =>
      ApplierBalances(w, a, p);
    case OutputReturns(kind, _, _) => OutputBalances(w, kind, a, p);
    case OutputOffers(kind, _) => OutputBalances(w, kind, a, p);
    case OutputReports(kind) => OutputBalances(w, kind, a, p);
    case _ =>
      OthersBalance(w, a, p);
      hide Apply;
  }

  // ------------------------------------------------------------------ whole runs

  /** What the events of the first n actions obliged to be reported. */
  ghost function Causes(actions: seq<Action>, n: nat, tty: bool, p: Policy): set<Failure>
    requires n <= |actions|
  {
    if n == 0 then {} else Causes(actions, n - 1, tty, p) + Cause(WorldAt(actions, n - 1, tty, p), actions[n - 1], p)
  }

  /** What the first n actions put to the outcome slot, in order. */
  function Puts(actions: seq<Action>, n: nat, tty: bool, p: Policy): seq<Failure>
    requires n <= |actions|
  {
    if n == 0 then [] else Puts(actions, n - 1, tty, p) + Put(WorldAt(actions, n - 1, tty, p), actions[n - 1], p)
  }

  lemma {:induction false} NothingReported(tty: bool)
    ensures Pending(Start(tty)) + Elements([]) == {}
  {
  }

  lemma {:induction false} Balance<T>(due: set<T>, put: set<T>, causes: set<T>, due': set<T>, put': set<T>, cause: set<T>)
    requires due + put == causes && due' + put' == due + cause
    ensures due' + (put + put') == causes + cause
  {
  }

  /** In every run just what events oblige to be reported is reported, or about to be. */
  lemma {:induction false} ReportsAreComplete(actions: seq<Action>, n: nat, tty: bool, p: Policy)
    requires n <= |actions|
    ensures Pending(WorldAt(actions, n, tty, p)) + Elements(Puts(actions, n, tty, p)) == Causes(actions, n, tty, p)
  {
    hide Pending, Put, Cause, Apply, Elements;
    if n == 0 {
      NothingReported(tty);
    } else {
      var w, a := WorldAt(actions, n - 1, tty, p), actions[n - 1];
      ReportsAreComplete(actions, n - 1, tty, p);
      StepReports(w, a, p);
      ElementsOfSum(Puts(actions, n - 1, tty, p), Put(w, a, p));
      Balance(Pending(w), Elements(Puts(actions, n - 1, tty, p)), Causes(actions, n - 1, tty, p),
              Pending(Apply(w, a, p)), Elements(Put(w, a, p)), Cause(w, a, p));
    }
  }

  lemma {:induction false} ElementsOfSum(a: seq<Failure>, b: seq<Failure>)
    ensures Elements(a + b) == Elements(a) + Elements(b)
  {
  }

  function Slot(puts: seq<Failure>): Option<Failure> {
    if puts == [] then None else Some(puts[0])
  }

  lemma {:induction false} WriterKeepsSlot(w: World, a: Action, p: Policy, puts: seq<Failure>)
    requires a.WriterTakes? || a.WriterQuits? || a.WriteReturns? || a.WriterAcks? || a.WriterCounts? || a.WriterTouches?
    requires !w.ctl.main.Frozen? ==> w.ctl.outcomes == Slot(puts)
    ensures !Apply(w, a, p).ctl.main.Frozen? ==>
              !w.ctl.main.Frozen? && Apply(w, a, p).ctl.outcomes == Slot(puts + Put(w, a, p))
  {
    assert puts + [] == puts;
    if w.out.writer.Acked? && w.out.writer.end.Some? {
      DepartureIsClassified(w.ctl.cancelled, w.out.writer.end.value);
    }
    hide ClassifyTransport, Departure, Added;
  }

  lemma {:induction false} MainKeepsSlot(w: World, a: Action, p: Policy, puts: seq<Failure>)
    requires IsOther(a)
    requires !w.ctl.main.Frozen? ==> w.ctl.outcomes == Slot(puts)
    ensures !Apply(w, a, p).ctl.main.Frozen? ==>
              !w.ctl.main.Frozen? && Apply(w, a, p).ctl.outcomes == Slot(puts + Put(w, a, p))
  {
    assert puts + [] == puts;
    hide WriterStep, ReaderStep, ApplierStep, OutputStep, ClassifyTransport, Enqueue;
  }

  lemma {:induction false} StepKeepsSlot(w: World, a: Action, p: Policy, puts: seq<Failure>)
    requires !w.ctl.main.Frozen? ==> w.ctl.outcomes == Slot(puts)
    ensures !Apply(w, a, p).ctl.main.Frozen? ==>
              !w.ctl.main.Frozen? && Apply(w, a, p).ctl.outcomes == Slot(puts + Put(w, a, p))
  {
    match a
    case WriterTakes | WriterQuits | WriteReturns(_) | WriterAcks | WriterCounts | WriterTouches =>
      WriterKeepsSlot(w, a, p, puts);
      hide Apply, Put, Slot;
    case ReadReturns(_) | ReaderOffers(_) | ReaderTouches | ReaderReports =>
      assert puts + [] == puts;
      hide ClassifyTransport, DecodeClientFrame;
    case ApplierTakes | ApplierQuits | ApplyReturns(_) | ApplierCounts | ApplierTouches | ApplierReports =>
      assert puts + [] == puts;
      hide Added;
    case OutputReturns(_, _, _) | OutputOffers(_, _) | OutputReports(_) =>
      assert puts + [] == puts;
      hide Read, Offer;
    case _ =>
      MainKeepsSlot(w, a, p, puts);
      hide Apply, Put, Slot;
  }

  /** Until the main loop chooses, the slot holds the first outcome ever put to it. */
  lemma {:induction false} SlotKeepsTheFirst(actions: seq<Action>, n: nat, tty: bool, p: Policy)
    requires n <= |actions|
    ensures var w := WorldAt(actions, n, tty, p);
            !w.ctl.main.Frozen? ==> w.ctl.outcomes == Slot(Puts(actions, n, tty, p))
  {
    if n > 0 {
      hide Apply, Put, Slot;
      SlotKeepsTheFirst(actions, n - 1, tty, p);
      StepKeepsSlot(WorldAt(actions, n - 1, tty, p), actions[n - 1], p, Puts(actions, n - 1, tty, p));
    } else {
      assert Puts(actions, 0, tty, p) == [];
    }
  }

  // ------------------------------------------------------- what the main loop chooses

  /** What the main loop, not yet frozen, chooses by an action: the outcome in the slot, the runtime's failed exit, a
      timer, the cancelled context, an exit frame that finds no room, or how the exit frame's write ended. */
  function Choice(w: World, a: Action, p: Policy): Option<Outcome> {
    var selecting, waiting := w.ctl.main.Selecting?, w.ctl.main.Selecting? || w.ctl.main.Awaiting?;
    match a
    case MainTakesOutcome => if waiting && w.ctl.outcomes.Some? then Some(w.ctl.outcomes.value) else None
    case MainTakesResult =>
      if selecting && w.ctl.completed.Some? && w.ctl.completed.value.failed then Some(RuntimeFailed) else None
    case IdleFires => if selecting then Some(IdleTimeout) else None
    case MaxFires => if selecting then Some(MaxDuration) else None
    case MainStops => if waiting && w.ctl.cancelled then Some(Shutdown) else None
    case MainOffersExit(Cancel) => if w.ctl.main.Sending? && w.ctl.cancelled then Some(Backpressure) else None
    case MainOffersExit(Overflow) =>
      if w.ctl.main.Sending? && p.outboundQueue <= |w.out.queue| && !w.ctl.cancelled then Some(Backpressure) else None
    case MainTakesAck =>
      if !w.ctl.main.Awaiting? || w.out.ack.None? then None
      else if w.out.ack.value.None? then Some(Normal)
      else Some(Departure(w.ctl.cancelled, w.out.ack.value.value))
    case _ => None
  }

  lemma {:induction false} StepChooses(w: World, a: Action, p: Policy)
    ensures var m := Apply(w, a, p).ctl.main;
            if w.ctl.main.Frozen? then m == w.ctl.main
            else if Choice(w, a, p).Some? then m == Frozen(Choice(w, a, p).value)
            else !m.Frozen?
  {
    if a.MainTakesAck? && w.out.ack.Some? && w.out.ack.value.Some? {
      DepartureIsClassified(w.ctl.cancelled, w.out.ack.value.value);
    }
    hide ClassifyTransport, Departure, DecodeClientFrame, Added, Read, Offer;
  }

  /** The k-th action of a run is the one by which the main loop chooses. */
  ghost predicate ChoosesAt(actions: seq<Action>, k: nat, tty: bool, p: Policy, outcome: Outcome)
    requires k < |actions|
  {
    && !WorldAt(actions, k, tty, p).ctl.main.Frozen?
    && Choice(WorldAt(actions, k, tty, p), actions[k], p) == Some(outcome)
  }

  /** In every run that has an outcome, one action chose it; and if that took it from the slot, it is the
      first outcome ever put there, and an event obliged somebody to report it. */
  lemma {:induction false} OutcomeIsChosen(actions: seq<Action>, n: nat, tty: bool, p: Policy) returns (k: nat)
    requires n <= |actions| && WorldAt(actions, n, tty, p).ctl.main.Frozen?
    ensures k < n && ChoosesAt(actions, k, tty, p, WorldAt(actions, n, tty, p).ctl.main.outcome)
    ensures actions[k].MainTakesOutcome? ==>
              var puts, outcome := Puts(actions, k, tty, p), WorldAt(actions, n, tty, p).ctl.main.outcome;
              puts != [] && outcome == puts[0] && outcome in Causes(actions, k, tty, p)
  {
    hide Apply, Choice, Put, Cause;
    k := n - 1;
    StepChooses(WorldAt(actions, k, tty, p), actions[k], p);
    if WorldAt(actions, k, tty, p).ctl.main.Frozen? {
      k := OutcomeIsChosen(actions, k, tty, p);
    } else if actions[k].MainTakesOutcome? {
      SlotKeepsTheFirst(actions, k, tty, p);
      ReportsAreComplete(actions, k, tty, p);
      TakenFromSlot(WorldAt(actions, k, tty, p), p);
      assert Puts(actions, k, tty, p)[0] in Elements(Puts(actions, k, tty, p));
    }
  }

  lemma {:induction false} TakenFromSlot(w: World, p: Policy)
    ensures Choice(w, MainTakesOutcome, p).Some? ==>
              w.ctl.outcomes.Some? && Choice(w, MainTakesOutcome, p).value == w.ctl.outcomes.value
  {
  }

  /** What the goroutines of an exec session can report. */
  ghost const REPORTABLE: set<Outcome> :=
    {ClientClosed, MessageTooBig, InvalidTerminalFrame, Backpressure, RuntimeFailed, TransportFailed, Shutdown}

  lemma {:induction false} CauseIsReportable(w: World, a: Action, p: Policy)
    ensures Cause(w, a, p) <= REPORTABLE
  {
    hide SaysNothing;
  }

  lemma {:induction false} CausesAreReportable(actions: seq<Action>, n: nat, tty: bool, p: Policy)
    requires n <= |actions|
    ensures Causes(actions, n, tty, p) <= REPORTABLE
  {
    hide Cause, WorldAt;
    if n > 0 {
      CausesAreReportable(actions, n - 1, tty, p);
      CauseIsReportable(WorldAt(actions, n - 1, tty, p), actions[n - 1], p);
    }
  }

  /** The outcome slot holds nothing else, no timeout in particular. */
  lemma {:induction false} SlotIsReportable(actions: seq<Action>, n: nat, tty: bool, p: Policy)
    requires n <= |actions| && !WorldAt(actions, n, tty, p).ctl.main.Frozen?
    ensures var slot := WorldAt(actions, n, tty, p).ctl.outcomes;
            slot.Some? ==> slot.value in REPORTABLE
  {
    hide WorldAt, Causes, Puts, Pending;
    SlotKeepsTheFirst(actions, n, tty, p);
    ReportsAreComplete(actions, n, tty, p);
    CausesAreReportable(actions, n, tty, p);
    var puts := Puts(actions, n, tty, p);
    if puts != [] {
      assert puts[0] in Elements(puts);
    }
  }

  /** An exec run ends normal, by a timeout, or with what a goroutine can report, never with what only a start can fail of. */
  lemma {:induction false} OutcomesOfRuns(actions: seq<Action>, n: nat, tty: bool, p: Policy)
    requires n <= |actions| && WorldAt(actions, n, tty, p).ctl.main.Frozen?
    ensures WorldAt(actions, n, tty, p).ctl.main.outcome in REPORTABLE + {Normal, IdleTimeout, MaxDuration}
  {
    hide WorldAt, Causes, Puts;
    var k := OutcomeIsChosen(actions, n, tty, p);
    CausesAreReportable(actions, k, tty, p);
  }

  // ------------------------------------------------------------------- activity

  /** Whether a token waits after n actions: a frame was written, taken or applied since one was last taken. */
  function Token(actions: seq<Action>, n: nat, tty: bool, p: Policy): bool
    requires n <= |actions|
  {
    if n == 0 then false
    else
      var w, a := WorldAt(actions, n - 1, tty, p), actions[n - 1];
      || (a.WriterTouches? && w.out.writer.Counted?)
      || (a.ReaderTouches? && w.inp.reader.Touching?)
      || (a.ApplierTouches? && w.inp.applier.Credited?)
      || (Token(actions, n - 1, tty, p) && !(a.MainTakesActivity? && w.ctl.main.Selecting?))
  }

  lemma {:induction false} ActivityIsKept(actions: seq<Action>, n: nat, tty: bool, p: Policy)
    requires n <= |actions|
    ensures WorldAt(actions, n, tty, p).ctl.activity == Token(actions, n, tty, p)
  {
    if n > 0 {
      ActivityIsKept(actions, n - 1, tty, p);
      StepTouches(WorldAt(actions, n - 1, tty, p), actions[n - 1], p);
      hide Apply;
    }
  }

  lemma {:induction false} StepTouches(w: World, a: Action, p: Policy)
    ensures Apply(w, a, p).ctl.activity ==
            (|| (a.WriterTouches? && w.out.writer.Counted?)
             || (a.ReaderTouches? && w.inp.reader.Touching?)
             || (a.ApplierTouches? && w.inp.applier.Credited?)
             || (w.ctl.activity && !(a.MainTakesActivity? && w.ctl.main.Selecting?)))
  {
    hide ClassifyTransport, DecodeClientFrame, Added, Read, Offer;
  }
}
