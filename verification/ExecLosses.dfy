/**
 When an exec run that ends normal has delivered all output, and when not.

 Output is refused when the outbound queue is full or the context is cancelled; the main
 loop may take the runtime's exit all the same, and end normal.
 */
module ExecLosses {
  import opened Sessions
  import opened Frames
  import opened ExecStream

  /** Both streams arrived in full. */
  predicate AllDelivered(w: World) {
    w.stdout.produced == BytesOf(w.out.wire, Stdout) && w.stderr.produced == BytesOf(w.out.wire, Stderr)
  }

  /** How many chunks of output the runtime has returned. */
  function Chunks(w: World): nat {
    w.stdout.chunks + w.stderr.chunks
  }

  /** Nobody cancels the run's parent context. */
  predicate Undisturbed(actions: seq<Action>) {
    forall i :: 0 <= i < |actions| ==> !actions[i].CancelParent?
  }

  // ------------------------------------------------- what a refusal presupposes

  function Exits(frames: seq<Frame>): nat {
    if HasExit(frames) then 1 else 0
  }

  /** Chunks of a stream that were returned but not accepted. */
  function Due(s: Source): nat {
    if s.pump.Offering? || s.refused != "" then 1 else 0
  }

  predicate Refused(w: World) {
    w.stdout.refused != "" || w.stderr.refused != ""
  }

  /** Every chunk returned was accepted, is on offer or was refused. */
  predicate ChunksOk(w: World) {
    Chunks(w) == |w.out.accepted| - Exits(w.out.accepted) + Due(w.stdout) + Due(w.stderr)
  }

  /** Undisturbed, a run is cancelled only once its outcome is chosen, and output is refused
      only after as much of it was accepted as the queue holds. */
  predicate RefusalOk(w: World, p: Policy) {
    && (w.ctl.cancelled ==> w.ctl.main.Frozen?)
    && ((!w.ctl.cancelled || w.ctl.main == Frozen(Normal)) && Refused(w) ==>
          p.outboundQueue <= |w.out.accepted| - Exits(w.out.accepted))
  }

  /** The parts of a world that bear on refusals are untouched. */
  predicate Aside(w: World, w': World) {
    && w'.out.accepted == w.out.accepted && w'.stdout == w.stdout && w'.stderr == w.stderr
    && w'.ctl.main == w.ctl.main && w'.ctl.cancelled == w.ctl.cancelled
  }

  lemma {:induction false} WriterAside(w: World, a: Action)
    ensures Aside(w, WriterStep(w, a))
  {
    hide ClassifyTransport, Added;
  }

  lemma {:induction false} InboundAside(w: World, a: Action, p: Policy)
    ensures Aside(w, ReaderStep(w, a, p)) && Aside(w, ApplierStep(w, a))
  {
    ReaderMovesInbound(w, a, p);
    ApplierMovesInbound(w, a);
    hide ReaderStep, ApplierStep;
  }

  lemma {:induction false} WaiterAside(w: World, a: Action)
    ensures Aside(w, WaiterStep(w, a))
  {
  }

  lemma {:induction false} AsideKeeps(w: World, w': World, p: Policy)
    requires Aside(w, w') && ChunksOk(w)
    ensures ChunksOk(w') && (RefusalOk(w, p) ==> RefusalOk(w', p))
  {
  }

  lemma {:induction false} ReadKeeps(w: World, kind: Kind, a: Action, p: Policy)
    requires Inv(w, p) && ChunksOk(w) && a.OutputReturns?
    ensures ChunksOk(OutputStep(w, kind, a, p)) && (RefusalOk(w, p) ==> RefusalOk(OutputStep(w, kind, a, p), p))
  {
    assert SourceOk(SourceOf(w, kind), BytesOf(w.out.accepted, kind));
    hide Inv, HasExit;
  }

  /** While a chunk is on offer no exit frame has been accepted and no normal end chosen. */
  lemma {:induction false} OfferIsEarly(w: World, kind: Kind, p: Policy)
    requires Inv(w, p) && SourceOf(w, kind).pump.Offering?
    ensures !HasExit(w.out.accepted) && w.ctl.main != Frozen(Normal)
    ensures |w.out.queue| <= |w.out.accepted|
    ensures SourceOf(w, kind).refused == "" && SourceOf(w, kind).pump.chunk != ""
  {
    assert ExitOk(w) && OutboundOk(w.out, p) && SourceOk(SourceOf(w, kind), BytesOf(w.out.accepted, kind));
    hide Inv, BytesOf, OneExit;
    if w.ctl.main == Frozen(Normal) {
      ExitEndsTheWire(w.out, p);
    }
  }

  lemma {:induction false} OfferKeeps(w: World, kind: Kind, a: Action, p: Policy)
    requires Inv(w, p) && ChunksOk(w) && a.OutputOffers?
    ensures ChunksOk(OutputStep(w, kind, a, p)) && (RefusalOk(w, p) ==> RefusalOk(OutputStep(w, kind, a, p), p))
  {
    hide Inv;
    if SourceOf(w, kind).pump.Offering? {
      OfferIsEarly(w, kind, p);
    }
  }

  lemma {:induction false} ReportKeeps(w: World, kind: Kind, a: Action, p: Policy)
    requires ChunksOk(w) && a.OutputReports?
    ensures ChunksOk(OutputStep(w, kind, a, p)) && (RefusalOk(w, p) ==> RefusalOk(OutputStep(w, kind, a, p), p))
  {
    hide HasExit;
  }

  lemma {:induction false} NoExitYet(w: World, p: Policy)
    requires Inv(w, p) && w.ctl.main.Sending?
    ensures !HasExit(w.out.accepted)
  {
    assert ExitOk(w);
    hide Inv;
  }

  lemma {:induction false} SendingKeeps(w: World, a: Action, p: Policy)
    requires Inv(w, p) && ChunksOk(w) && a.MainOffersExit?
    ensures ChunksOk(MainStep(w, a, p)) && (RefusalOk(w, p) ==> RefusalOk(MainStep(w, a, p), p))
  {
    hide Inv, Due, OutputsFinished, ExitOk, BytesOf, Added;
    if w.ctl.main.Sending? {
      NoExitYet(w, p);
    }
  }

  lemma {:induction false} ChoosingKeeps(w: World, a: Action, p: Policy)
    requires ChunksOk(w) && !a.MainOffersExit?
    ensures ChunksOk(MainStep(w, a, p)) && (RefusalOk(w, p) ==> RefusalOk(MainStep(w, a, p), p))
  {
    hide ClassifyTransport, Due, Exits;
  }

  lemma {:induction false} MainKeeps(w: World, a: Action, p: Policy)
    requires Inv(w, p) && ChunksOk(w)
    ensures ChunksOk(MainStep(w, a, p)) && (RefusalOk(w, p) ==> RefusalOk(MainStep(w, a, p), p))
  {
    if a.MainOffersExit? {
      SendingKeeps(w, a, p);
    } else {
      ChoosingKeeps(w, a, p);
    }
    hide Inv, MainStep, ChunksOk, RefusalOk;
  }

  lemma {:induction false} ApplyKeeps(w: World, a: Action, p: Policy)
    requires Inv(w, p) && ChunksOk(w)
    ensures ChunksOk(Apply(w, a, p))
    ensures RefusalOk(w, p) && !a.CancelParent? ==> RefusalOk(Apply(w, a, p), p)
  {
    hide Inv, WriterStep, ReaderStep, ApplierStep, OutputStep, WaiterStep, MainStep, Aside, ChunksOk, RefusalOk;
    match a
    case CancelParent => CancelKeepsChunks(w);
    case WriterTakes | WriterQuits | WriteReturns(_) | WriterAcks | WriterCounts | WriterTouches =>
      WriterAside(w, a);
      AsideKeeps(w, WriterStep(w, a), p);
    case ReadReturns(_) | ReaderOffers(_) | ReaderTouches | ReaderReports =>
      InboundAside(w, a, p);
      AsideKeeps(w, ReaderStep(w, a, p), p);
    case ApplierTakes | ApplierQuits | ApplyReturns(_) | ApplierCounts | ApplierTouches | ApplierReports =>
      InboundAside(w, a, p);
      AsideKeeps(w, ApplierStep(w, a), p);
    case OutputReturns(kind, _, _) => ReadKeeps(w, kind, a, p);
    case OutputOffers(kind, _) => OfferKeeps(w, kind, a, p);
    case OutputReports(kind) => ReportKeeps(w, kind, a, p);
    case WaitReturns(_) | WaiterSends | WaiterQuits =>
      WaiterAside(w, a);
      AsideKeeps(w, WaiterStep(w, a), p);
    case _ => MainKeeps(w, a, p);
  }

  lemma {:induction false} CancelKeepsChunks(w: World)
    requires ChunksOk(w)
    ensures ChunksOk(w.(ctl := w.ctl.(cancelled := true)))
  {
  }

  lemma {:induction false} EveryRunKeepsChunks(actions: seq<Action>, n: nat, tty: bool, p: Policy)
    requires n <= |actions|
    ensures ChunksOk(WorldAt(actions, n, tty, p))
    ensures Undisturbed(actions[..n]) ==> RefusalOk(WorldAt(actions, n, tty, p), p)
  {
    hide Inv, Apply;
    if n > 0 {
      hide ChunksOk, RefusalOk;
      EveryRunKeepsInv(actions, n - 1, tty, p);
      EveryRunKeepsChunks(actions, n - 1, tty, p);
      ApplyKeeps(WorldAt(actions, n - 1, tty, p), actions[n - 1], p);
      if Undisturbed(actions[..n]) {
        assert forall i :: 0 <= i < n - 1 ==> actions[..n - 1][i] == actions[..n][i];
        assert !actions[..n][n - 1].CancelParent?;
      }
    }
  }

  // ---------------------------------------------------- runs that lose nothing

  lemma {:induction false} CancelStays(w: World, a: Action, p: Policy)
    ensures w.ctl.cancelled || a.CancelParent? ==> Apply(w, a, p).ctl.cancelled
  {
    hide WriterStep, ReaderStep, ApplierStep, OutputStep, WaiterStep, MainStep;
    match a
    case CancelParent =>
    case WriterTakes | WriterQuits | WriteReturns(_) | WriterAcks | WriterCounts | WriterTouches => WriterAside(w, a);
    case ReadReturns(_) | ReaderOffers(_) | ReaderTouches | ReaderReports => InboundAside(w, a, p);
    case ApplierTakes | ApplierQuits | ApplyReturns(_) | ApplierCounts | ApplierTouches | ApplierReports =>
      InboundAside(w, a, p);
    case OutputReturns(kind, _, _) => OutputKeepsContext(w, kind, a, p);
    case OutputOffers(kind, _) => OutputKeepsContext(w, kind, a, p);
    case OutputReports(kind) => OutputKeepsContext(w, kind, a, p);
    case WaitReturns(_) | WaiterSends | WaiterQuits => WaiterAside(w, a);
    case _ => MainKeepsContext(w, a, p);
  }

  lemma {:induction false} OutputKeepsContext(w: World, kind: Kind, a: Action, p: Policy)
    ensures OutputStep(w, kind, a, p).ctl.cancelled == w.ctl.cancelled
  {
    hide Read, Offer;
  }

  lemma {:induction false} MainKeepsContext(w: World, a: Action, p: Policy)
    ensures w.ctl.cancelled ==> MainStep(w, a, p).ctl.cancelled
  {
    hide ClassifyTransport;
  }

  /** A run whose context is not cancelled has been left alone. */
  lemma {:induction false} UncancelledIsUndisturbed(actions: seq<Action>, n: nat, tty: bool, p: Policy)
    requires n <= |actions| && !WorldAt(actions, n, tty, p).ctl.cancelled
    ensures Undisturbed(actions[..n])
  {
    hide Apply;
    if n > 0 {
      CancelStays(WorldAt(actions, n - 1, tty, p), actions[n - 1], p);
      assert !WorldAt(actions, n - 1, tty, p).ctl.cancelled && !actions[n - 1].CancelParent?;
      UncancelledIsUndisturbed(actions, n - 1, tty, p);
      assert forall i :: 0 <= i < n - 1 ==> actions[..n][i] == actions[..n - 1][i];
    }
  }

  /** An undisturbed run that ends normal has delivered all output if the runtime returned no
      more chunks than the outbound queue holds, or if no more frames than that were written. */
  lemma {:induction false} ShortRunsLoseNothing(actions: seq<Action>, n: nat, tty: bool, p: Policy)
    requires n <= |actions| && WorldAt(actions, n, tty, p).ctl.main == Frozen(Normal)
    requires Undisturbed(actions[..n]) || !WorldAt(actions, n, tty, p).ctl.cancelled
    requires var w := WorldAt(actions, n, tty, p);
             Chunks(w) <= p.outboundQueue || |w.out.wire| <= p.outboundQueue
    ensures AllDelivered(WorldAt(actions, n, tty, p))
  {
    var w := WorldAt(actions, n, tty, p);
    if !w.ctl.cancelled {
      UncancelledIsUndisturbed(actions, n, tty, p);
    }
    EveryRunKeepsInv(actions, n, tty, p);
    EveryRunKeepsChunks(actions, n, tty, p);
    NormalIsDelivered(w, p, Stdout);
    NormalIsDelivered(w, p, Stderr);
    hide WorldAt, Inv, BytesOf;
    assert !Refused(w);
  }

  lemma {:induction false} SilentRunsLoseNothing(actions: seq<Action>, n: nat, tty: bool, p: Policy)
    requires n <= |actions| && WorldAt(actions, n, tty, p).ctl.main == Frozen(Normal)
    requires Chunks(WorldAt(actions, n, tty, p)) == 0
    ensures AllDelivered(WorldAt(actions, n, tty, p))
  {
    var w := WorldAt(actions, n, tty, p);
    EveryRunKeepsInv(actions, n, tty, p);
    EveryRunKeepsChunks(actions, n, tty, p);
    NormalIsDelivered(w, p, Stdout);
    NormalIsDelivered(w, p, Stderr);
    hide WorldAt, Inv, BytesOf;
    assert |w.out.accepted| >= Exits(w.out.accepted);
  }

  // -------------------------------------------------------- runs that do lose

  /** Some schedule leads to this world; a calm one leaves the parent context alone. */
  ghost predicate Reached(w: World, tty: bool, p: Policy, calm: bool) {
    exists actions: seq<Action> ::
      WorldAt(actions, |actions|, tty, p) == w && (calm ==> Undisturbed(actions))
  }

  lemma {:induction false} SamePrefix(actions: seq<Action>, more: seq<Action>, n: nat, tty: bool, p: Policy)
    requires n <= |actions|
    ensures WorldAt(actions + more, n, tty, p) == WorldAt(actions, n, tty, p)
  {
    hide Apply;
    if n > 0 {
      SamePrefix(actions, more, n - 1, tty, p);
    }
  }

  lemma {:induction false} StartReached(tty: bool, p: Policy, calm: bool)
    ensures Reached(Start(tty), tty, p, calm)
  {
    var none: seq<Action> := [];
    assert WorldAt(none, |none|, tty, p) == Start(tty);
  }

  /** One more action. */
  lemma {:induction false} Then(w: World, a: Action, tty: bool, p: Policy, calm: bool) returns (w': World)
    requires Reached(w, tty, p, calm) && (calm ==> !a.CancelParent?)
    ensures Reached(w', tty, p, calm) && w' == Apply(w, a, p)
  {
    hide Apply;
    w' := Apply(w, a, p);
    var actions :| WorldAt(actions, |actions|, tty, p) == w && (calm ==> Undisturbed(actions));
    var longer := actions + [a];
    SamePrefix(actions, [a], |actions|, tty, p);
    assert WorldAt(longer, |longer|, tty, p) == w';
  }

  lemma {:induction false} ReachedKeepsInv(w: World, tty: bool, p: Policy, calm: bool)
    requires Reached(w, tty, p, calm)
    ensures Inv(w, p)
  {
    hide Inv;
    var actions :| WorldAt(actions, |actions|, tty, p) == w && (calm ==> Undisturbed(actions));
    EveryRunKeepsInv(actions, |actions|, tty, p);
  }

  /** Stdout has returned so many chunks, none refused, with so many frames in the queue. */
  predicate Flowing(w: World, chunks: nat, queued: nat, tty: bool) {
    && w.out.writer.Ready? && |w.out.queue| == queued
    && w.stdout.pump.Reading? && w.stdout.chunks == chunks && w.stdout.refused == ""
    && w.stderr == Start(tty).stderr
    && Untouched(w.ctl) && !w.ctl.cancelled && w.ctl.outcomes.None?
  }

  predicate Untouched(c: Control) {
    c.main.Selecting? && c.waiter.Waiting? && c.completed.None?
  }

  lemma {:induction false} AcceptOne(w: World, chunks: nat, queued: nat, tty: bool, p: Policy, calm: bool)
    returns (w': World)
    requires Reached(w, tty, p, calm) && Flowing(w, chunks, queued, tty) && queued < p.outboundQueue
    ensures Reached(w', tty, p, calm) && Flowing(w', chunks + 1, queued + 1, tty)
  {
    hide Reached;
    var w1 := Then(w, OutputReturns(Stdout, "x", More), tty, p, calm);
    w' := Then(w1, OutputOffers(Stdout, Accept), tty, p, calm);
  }

  lemma {:induction false} TakeAndWrite(w: World, tty: bool, p: Policy, calm: bool) returns (w': World)
    requires Reached(w, tty, p, calm) && w.out.writer.Ready? && w.out.queue != []
    ensures Reached(w', tty, p, calm)
    ensures w'.out.writer == Wrote(w.out.queue[0], None) && w'.out.queue == w.out.queue[1..]
    ensures w'.out.accepted == w.out.accepted
    ensures w'.(out := w.out) == w
  {
    hide Reached;
    var w1 := Then(w, WriterTakes, tty, p, calm);
    w' := Then(w1, WriteReturns(None), tty, p, calm);
  }

  lemma {:induction false} AckAndCount(w: World, tty: bool, p: Policy, calm: bool) returns (w': World)
    requires Reached(w, tty, p, calm) && w.out.writer.Wrote? && w.out.writer.end.None?
    ensures Reached(w', tty, p, calm)
    ensures w'.out.writer.Ready? && w'.out.queue == w.out.queue && w'.out.accepted == w.out.accepted
    ensures w'.(out := w.out, ctl := w.ctl) == w && w'.ctl == Touch(w.ctl)
  {
    hide Reached, Added;
    var w1 := Then(w, WriterAcks, tty, p, calm);
    var w2 := Then(w1, WriterCounts, tty, p, calm);
    w' := Then(w2, WriterTouches, tty, p, calm);
  }

  lemma {:induction false} WriteOne(w: World, chunks: nat, queued: nat, tty: bool, p: Policy, calm: bool)
    returns (w': World)
    requires Reached(w, tty, p, calm) && Flowing(w, chunks, queued, tty) && 0 < queued
    ensures Reached(w', tty, p, calm) && Flowing(w', chunks, queued - 1, tty)
  {
    hide Reached;
    var w1 := TakeAndWrite(w, tty, p, calm);
    w' := AckAndCount(w1, tty, p, calm);
  }

  /** Any number of chunks can have been returned with any part of them in the queue. */
  lemma {:induction false} Flow(chunks: nat, queued: nat, tty: bool, p: Policy, calm: bool) returns (w: World)
    requires queued <= chunks && queued <= p.outboundQueue && 1 <= p.outboundQueue
    ensures Reached(w, tty, p, calm) && Flowing(w, chunks, queued, tty)
    decreases chunks
  {
    hide Reached;
    if chunks == 0 {
      StartReached(tty, p, calm);
      w := Start(tty);
    } else if queued > 0 {
      hide Flowing;
      w := Flow(chunks - 1, queued - 1, tty, p, calm);
      w := AcceptOne(w, chunks - 1, queued - 1, tty, p, calm);
    } else {
      hide Flowing;
      w := Flow(chunks - 1, 0, tty, p, calm);
      w := AcceptOne(w, chunks - 1, 0, tty, p, calm);
      w := WriteOne(w, chunks, 1, tty, p, calm);
    }
  }

  /** Stdout has ended with its last chunk refused; nothing else has happened yet. */
  predicate Lossy(w: World, chunks: nat, outcomes: Option<Failure>, tty: bool) {
    && w.out.writer.Ready?
    && w.stdout.pump.Finished? && w.stdout.chunks == chunks && w.stdout.refused == "x"
    && w.stderr == Start(tty).stderr
    && Untouched(w.ctl) && w.ctl.outcomes == outcomes
  }

  lemma {:induction false} LastRead(w: World, chunks: nat, queued: nat, tty: bool, p: Policy, calm: bool)
    returns (w': World)
    requires Reached(w, tty, p, calm) && Flowing(w, chunks, queued, tty)
    ensures Reached(w', tty, p, calm) && w'.(stdout := w.stdout) == w
    ensures w'.stdout == w.stdout.(pump := Offering("x", Ended), chunks := chunks + 1, ended := true,
                                   produced := w.stdout.produced + "x")
  {
    hide Reached;
    w' := Then(w, OutputReturns(Stdout, "x", Ended), tty, p, calm);
  }

  /** The queue is full when one more chunk comes. */
  lemma {:induction false} Overflowing(chunks: nat, tty: bool, p: Policy) returns (w: World)
    requires p.outboundQueue <= chunks && 1 <= p.outboundQueue
    ensures Reached(w, tty, p, true) && Lossy(w, chunks + 1, Some(Backpressure), tty) && w.out.queue != []
  {
    hide Reached;
    w := Flow(chunks, p.outboundQueue, tty, p, true);
    w := LastRead(w, chunks, p.outboundQueue, tty, p, true);
    assert "" + "x" == "x";
    w := Then(w, OutputOffers(Stdout, Overflow), tty, p, true);
    w := Then(w, OutputReports(Stdout), tty, p, true);
  }

  /** The parent context is cancelled when one more chunk comes. */
  lemma {:induction false} Cancelling(chunks: nat, tty: bool, p: Policy) returns (w: World)
    requires 1 <= p.outboundQueue
    ensures Reached(w, tty, p, false) && Lossy(w, chunks + 1, None, tty) && w.out.queue == []
  {
    hide Reached;
    w := Flow(chunks, 0, tty, p, false);
    w := LastRead(w, chunks, 0, tty, p, false);
    assert "" + "x" == "x";
    w := Then(w, CancelParent, tty, p, false);
    w := Then(w, OutputOffers(Stdout, Cancel), tty, p, false);
  }

  /** Stdout returned so many chunks and had its last one refused; stderr returned none. */
  predicate LastRefused(w: World, chunks: nat) {
    w.stdout.chunks == chunks && w.stdout.refused == "x" && w.stderr.chunks == 0 && w.stderr.refused == ""
  }

  /** The runtime has exited and the main loop is about to send the exit frame. */
  predicate Leaving(w: World, chunks: nat, outcomes: Option<Failure>, code: int) {
    && LastRefused(w, chunks)
    && w.ctl.main == Sending(code) && w.ctl.outcomes == outcomes
  }

  lemma {:induction false} StderrEnds(w: World, chunks: nat, outcomes: Option<Failure>, tty: bool, p: Policy, calm: bool)
    returns (w': World)
    requires Reached(w, tty, p, calm) && Lossy(w, chunks, outcomes, tty)
    ensures Reached(w', tty, p, calm) && w'.out == w.out && w'.ctl == w.ctl && LastRefused(w', chunks)
    ensures OutputsFinished(w')
  {
    hide Reached;
    w' := Then(w, OutputReturns(Stderr, "", Ended), tty, p, calm);
  }

  /** The runtime's result is on its way to the main loop, and nothing else has moved. */
  lemma {:induction false} WaiterReports(w: World, tty: bool, p: Policy, calm: bool) returns (w': World)
    requires Reached(w, tty, p, calm) && OutputsFinished(w) && Untouched(w.ctl)
    ensures Reached(w', tty, p, calm) && w'.(ctl := w.ctl) == w && w'.ctl.main.Selecting?
    ensures w'.ctl.completed == Some(ExecResult(0, false)) && w'.ctl.outcomes == w.ctl.outcomes
  {
    hide Reached;
    w' := Then(w, WaitReturns(ExecResult(0, false)), tty, p, calm);
    assert w' == w.(ctl := w'.ctl) && w'.ctl.waiter == Reaped(ExecResult(0, false)) && w'.ctl.completed.None?;
    w' := Then(w', WaiterSends, tty, p, calm);
  }

  lemma {:induction false} RuntimeExits(w: World, chunks: nat, outcomes: Option<Failure>, tty: bool, p: Policy,
                                        calm: bool) returns (w': World)
    requires Reached(w, tty, p, calm) && Lossy(w, chunks, outcomes, tty)
    ensures Reached(w', tty, p, calm) && Leaving(w', chunks, outcomes, 0) && w'.out == w.out
  {
    assert Untouched(w.ctl) && w.ctl.outcomes == outcomes;
    w' := StderrEnds(w, chunks, outcomes, tty, p, calm);
    hide Reached, Lossy, OutputsFinished;
    w' := WaiterReports(w', tty, p, calm);
    w' := Then(w', MainTakesResult, tty, p, calm);
  }

  /** The exit frame is in the queue or in the writer's hands. */
  predicate Draining(w: World, chunks: nat, outcomes: Option<Failure>) {
    && LastRefused(w, chunks)
    && w.ctl.main.Awaiting? && w.ctl.outcomes == outcomes
    && HasExit(w.out.accepted) && w.out.writer.Ready? && w.out.queue != []
  }

  /** The queue has room, or the writer makes some. */
  lemma {:induction false} MakeRoom(w: World, tty: bool, p: Policy, calm: bool) returns (w': World)
    requires Reached(w, tty, p, calm) && w.out.writer.Ready? && 1 <= p.outboundQueue
    ensures Reached(w', tty, p, calm) && w'.out.writer.Ready? && |w'.out.queue| < p.outboundQueue
    ensures w'.(out := w.out, ctl := w.ctl) == w && (w'.ctl == w.ctl || w'.ctl == Touch(w.ctl))
  {
    ReachedKeepsInv(w, tty, p, calm);
    assert |w.out.queue| <= p.outboundQueue;
    hide Inv, Reached;
    w' := w;
    if w.out.queue != [] {
      w' := TakeAndWrite(w, tty, p, calm);
      w' := AckAndCount(w', tty, p, calm);
    }
  }

  lemma {:induction false} SendExit(w: World, chunks: nat, outcomes: Option<Failure>, tty: bool, p: Policy, calm: bool)
    returns (w': World)
    requires Reached(w, tty, p, calm) && Leaving(w, chunks, outcomes, 0) && w.out.writer.Ready? && 1 <= p.outboundQueue
    ensures Reached(w', tty, p, calm) && Draining(w', chunks, outcomes)
  {
    hide Reached;
    w' := MakeRoom(w, tty, p, calm);
    assert Leaving(w', chunks, outcomes, 0);
    w' := Then(w', MainOffersExit(Accept), tty, p, calm);
  }

  lemma {:induction false} LastFrameIsExit(o: Outbound, p: Policy)
    requires OutboundOk(o, p) && HasExit(o.accepted) && o.writer.Ready? && |o.queue| == 1
    ensures o.queue[0].Exit?
  {
    assert o.accepted[|o.accepted| - 1] == o.queue[0];
  }

  lemma {:induction false} AckExit(w: World, tty: bool, p: Policy, calm: bool) returns (w': World)
    requires Reached(w, tty, p, calm) && w.out.writer.Wrote? && w.out.writer.frame.Exit? && w.out.writer.end.None?
    ensures Reached(w', tty, p, calm) && w'.(out := w.out) == w && w'.out.ack == Some(None)
  {
    hide Reached;
    w' := Then(w, WriterAcks, tty, p, calm);
  }

  lemma {:induction false} TakeAck(w: World, tty: bool, p: Policy, calm: bool) returns (w': World)
    requires Reached(w, tty, p, calm) && w.ctl.main.Awaiting? && w.out.ack == Some(None)
    ensures Reached(w', tty, p, calm) && w'.stdout == w.stdout && w'.stderr == w.stderr
    ensures w'.ctl == w.ctl.(main := Frozen(Normal))
  {
    hide Reached;
    w' := Then(w, MainTakesAck, tty, p, calm);
  }

  lemma {:induction false} LastAck(w: World, w1: World, chunks: nat, outcomes: Option<Failure>, tty: bool, p: Policy,
                                   calm: bool) returns (w': World)
    requires Reached(w, tty, p, calm) && Draining(w, chunks, outcomes) && |w.out.queue| == 1
    requires Reached(w1, tty, p, calm) && w1.out.writer == Wrote(w.out.queue[0], None) && w1.(out := w.out) == w
    ensures Reached(w', tty, p, calm) && Lost(w', chunks, outcomes)
  {
    ReachedKeepsInv(w, tty, p, calm);
    LastFrameIsExit(w.out, p);
    hide Inv, Reached;
    var w2 := AckExit(w1, tty, p, calm);
    assert w1.ctl == w.ctl && w1.stdout == w.stdout && w1.stderr == w.stderr;
    assert w2.ctl == w.ctl && w2.stdout == w.stdout && w2.stderr == w.stderr;
    w' := TakeAck(w2, tty, p, calm);
  }

  /** The writer works off the queue, the exit frame is acknowledged, and the run ends normal. */
  lemma {:induction false} Drain(w: World, chunks: nat, outcomes: Option<Failure>, tty: bool, p: Policy, calm: bool)
    returns (w': World)
    requires Reached(w, tty, p, calm) && Draining(w, chunks, outcomes)
    ensures Reached(w', tty, p, calm) && Lost(w', chunks, outcomes)
    decreases |w.out.queue|
  {
    hide Reached, Lost;
    w' := TakeAndWrite(w, tty, p, calm);
    if |w.out.queue| == 1 {
      w' := LastAck(w, w', chunks, outcomes, tty, p, calm);
    } else {
      w' := AckAndCount(w', tty, p, calm);
      assert Draining(w', chunks, outcomes);
      hide Draining;
      w' := Drain(w', chunks, outcomes, tty, p, calm);
    }
  }

  /** A normal end with the last chunk of stdout gone. */
  predicate Lost(w: World, chunks: nat, outcomes: Option<Failure>) {
    w.ctl.main == Frozen(Normal) && w.ctl.outcomes == outcomes && LastRefused(w, chunks)
  }

  /** For every queue size and every number of chunks above it, an undisturbed run can end normal
      with the last chunk lost and the backpressure outcome still in its slot.  */
  lemma {:induction false} BackpressureLosesOutput(chunks: nat, tty: bool, p: Policy) returns (actions: seq<Action>)
    requires 1 <= p.outboundQueue < chunks
    ensures Undisturbed(actions) && Lost(WorldAt(actions, |actions|, tty, p), chunks, Some(Backpressure))
    ensures !AllDelivered(WorldAt(actions, |actions|, tty, p))
    ensures |WorldAt(actions, |actions|, tty, p).out.wire| == chunks
  {
    hide Reached, Lossy, Leaving, Draining, Lost;
    var w := Overflowing(chunks - 1, tty, p);
    actions := Ending(w, chunks, Some(Backpressure), tty, p, true);
    LostIsUndelivered(actions, chunks, Some(Backpressure), tty, p);
  }

  /** For every queue size and every number of chunks a cancelled run can end normal with the last
      chunk lost and no other outcome in the slot. */
  lemma {:induction false} CancellationLosesOutput(chunks: nat, tty: bool, p: Policy) returns (actions: seq<Action>)
    requires 1 <= p.outboundQueue && 1 <= chunks
    ensures Lost(WorldAt(actions, |actions|, tty, p), chunks, None)
    ensures !AllDelivered(WorldAt(actions, |actions|, tty, p))
    ensures |WorldAt(actions, |actions|, tty, p).out.wire| == chunks
  {
    hide Reached, Lossy, Leaving, Draining, Lost;
    var w := Cancelling(chunks - 1, tty, p);
    actions := Ending(w, chunks, None, tty, p, false);
    LostIsUndelivered(actions, chunks, None, tty, p);
  }

  lemma {:induction false} Ending(w: World, chunks: nat, outcomes: Option<Failure>, tty: bool, p: Policy, calm: bool)
    returns (actions: seq<Action>)
    requires Reached(w, tty, p, calm) && Lossy(w, chunks, outcomes, tty) && 1 <= p.outboundQueue
    ensures (calm ==> Undisturbed(actions)) && Lost(WorldAt(actions, |actions|, tty, p), chunks, outcomes)
  {
    assert w.out.writer.Ready?;
    hide Lossy, Leaving, Draining, Lost;
    var w1 := RuntimeExits(w, chunks, outcomes, tty, p, calm);
    var w2 := SendExit(w1, chunks, outcomes, tty, p, calm);
    var w3 := Drain(w2, chunks, outcomes, tty, p, calm);
    actions :| WorldAt(actions, |actions|, tty, p) == w3 && (calm ==> Undisturbed(actions));
  }

  lemma {:induction false} LostIsUndelivered(actions: seq<Action>, chunks: nat, outcomes: Option<Failure>, tty: bool,
                                             p: Policy)
    requires Lost(WorldAt(actions, |actions|, tty, p), chunks, outcomes)
    ensures !AllDelivered(WorldAt(actions, |actions|, tty, p))
    ensures |WorldAt(actions, |actions|, tty, p).out.wire| == chunks
  {
    var w := WorldAt(actions, |actions|, tty, p);
    EveryRunKeepsInv(actions, |actions|, tty, p);
    EveryRunKeepsChunks(actions, |actions|, tty, p);
    NormalIsDelivered(w, p, Stdout);
    assert OutputsFinished(w) && SourceOk(w.stderr, BytesOf(w.out.accepted, Stderr));
    hide WorldAt, Inv, BytesOf;
  }

  // ------------------------------------------------------- the exact condition

  /** However it is scheduled, a run that ends normal with this many chunks returned, undisturbed
      if `calm`, has delivered all of them. */
  ghost predicate AlwaysDelivers(chunks: nat, calm: bool, tty: bool, p: Policy) {
    forall actions: seq<Action> ::
      var w := WorldAt(actions, |actions|, tty, p);
      w.ctl.main == Frozen(Normal) && Chunks(w) == chunks && (calm ==> Undisturbed(actions)) ==> AllDelivered(w)
  }

  /** A normal end means that no output was lost exactly for runs without output, and for
      undisturbed runs with no more chunks than the outbound queue holds. */
  lemma {:induction false} DeliveryIsSureExactly(chunks: nat, calm: bool, tty: bool, p: Policy)
    requires 1 <= p.outboundQueue
    ensures AlwaysDelivers(chunks, calm, tty, p) <==> chunks == 0 || (calm && chunks <= p.outboundQueue)
  {
    hide WorldAt, AllDelivered;
    if chunks == 0 || (calm && chunks <= p.outboundQueue) {
      forall actions: seq<Action> |
        WorldAt(actions, |actions|, tty, p).ctl.main == Frozen(Normal)
        && Chunks(WorldAt(actions, |actions|, tty, p)) == chunks && (calm ==> Undisturbed(actions))
        ensures AllDelivered(WorldAt(actions, |actions|, tty, p))
      {
        assert actions[..|actions|] == actions;
        if chunks == 0 {
          SilentRunsLoseNothing(actions, |actions|, tty, p);
        } else {
          ShortRunsLoseNothing(actions, |actions|, tty, p);
        }
      }
    } else if calm {
      var actions := BackpressureLosesOutput(chunks, tty, p);
      assert Chunks(WorldAt(actions, |actions|, tty, p)) == chunks;
    } else {
      var actions := CancellationLosesOutput(chunks, tty, p);
      assert Chunks(WorldAt(actions, |actions|, tty, p)) == chunks;
    }
  }
}
