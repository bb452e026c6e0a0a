/** The exec session's main loop and its timers as one system: the loop waits only once both
    timers are set, and takes a timeout only from a timer that is ready. */
module TimedExec {
  import opened Sessions
  import opened Frames
  import ExecStream
  import ExecOutcomes
  import Timers

  /** `acts` and `ticks` are what each side has done. */
  datatype Joint = Joint(
    stream: ExecStream.World,
    timers: Timers.World,
    acts: seq<ExecStream.Action>,
    ticks: seq<Timers.Action>)

  datatype Action = Elapse(time: nat) | Advance | Act(act: ExecStream.Action)

  datatype Terms = Terms(tty: bool, stream: ExecStream.Policy, timers: Timers.Terms)

  /** What an action of the stream is to the timers. */
  function Asks(w: ExecStream.World, a: ExecStream.Action): Option<Timers.Action> {
    match a
    case WriterTouches => if w.out.writer.Counted? then Some(Timers.Touch) else None
    case ReaderTouches => if w.inp.reader.Touching? then Some(Timers.Touch) else None
    case ApplierTouches => if w.inp.applier.Credited? then Some(Timers.Touch) else None
    case MainTakesActivity => if w.ctl.main.Selecting? then Some(Timers.TakeActivity) else None
    case IdleFires => if w.ctl.main.Selecting? then Some(Timers.TakeIdle) else None
    case MaxFires => if w.ctl.main.Selecting? then Some(Timers.TakeMax) else None
    case MainTakesOutcome => if w.ctl.main.Selecting? && w.ctl.outcomes.Some? then Some(Timers.Leave) else None
    case MainTakesResult => if w.ctl.main.Selecting? && w.ctl.completed.Some? then Some(Timers.Leave) else None
    case MainStops => if w.ctl.main.Selecting? && w.ctl.cancelled then Some(Timers.Leave) else None
    case _ => None
  }

  function Tick(j: Joint, t: Timers.Action, s: Terms): Joint {
    j.(timers := Timers.Apply(j.timers, t, s.timers), ticks := j.ticks + [t])
  }

  /** A stream's action that concerns a timer happens together with the timer's, or not at all. */
  function Apply(j: Joint, a: Action, s: Terms): Joint {
    match a
    case Elapse(time) => Tick(j, Timers.Elapse(time), s)
    case Advance => Tick(j, Timers.Advance, s)
    case Act(act) =>
      var acted := j.(stream := ExecStream.Apply(j.stream, act, s.stream), acts := j.acts + [act]);
      match Asks(j.stream, act)
      case None => acted
      case Some(t) => if Timers.Offered(j.timers, t) then Tick(acted, t, s) else j
  }

  predicate Waits(j: Joint) {
    j.stream.ctl.main.Selecting? && j.timers.main.Selecting?
  }

  function JointAt(run: seq<Action>, n: nat, start: Time, s: Terms): Joint
    requires n <= |run|
  {
    if n == 0 then Joint(ExecStream.Start(s.tty), Timers.Start(start), [], [])
    else Apply(JointAt(run, n - 1, start, s), run[n - 1], s)
  }

  // --------------------------------------------------------- each side's own run

  lemma {:induction false} StreamExtends(acts: seq<ExecStream.Action>, more: seq<ExecStream.Action>, n: nat, tty: bool,
                                         p: ExecStream.Policy)
    requires n <= |acts|
    ensures ExecStream.WorldAt(acts + more, n, tty, p) == ExecStream.WorldAt(acts, n, tty, p)
  {
    hide ExecStream.Apply;
    if n > 0 {
      StreamExtends(acts, more, n - 1, tty, p);
    }
  }

  predicate SidesRun(j: Joint, start: Time, s: Terms) {
    && j.stream == ExecStream.WorldAt(j.acts, |j.acts|, s.tty, s.stream)
    && j.timers == Timers.WorldAt(j.ticks, |j.ticks|, start, s.timers)
  }

  lemma {:induction false} TickKeepsSides(j: Joint, t: Timers.Action, start: Time, s: Terms)
    requires SidesRun(j, start, s)
    ensures SidesRun(Tick(j, t, s), start, s)
  {
    hide ExecStream.Apply, Timers.Apply;
    Timers.RunExtends(j.ticks, [t], |j.ticks|, start, s.timers);
  }

  lemma {:induction false} ActKeepsSides(j: Joint, act: ExecStream.Action, start: Time, s: Terms)
    requires SidesRun(j, start, s)
    ensures SidesRun(j.(stream := ExecStream.Apply(j.stream, act, s.stream), acts := j.acts + [act]), start, s)
  {
    hide ExecStream.Apply, Timers.Apply;
    StreamExtends(j.acts, [act], |j.acts|, s.tty, s.stream);
  }

  lemma {:induction false} ApplyKeepsSides(j: Joint, a: Action, start: Time, s: Terms)
    requires SidesRun(j, start, s)
    ensures SidesRun(Apply(j, a, s), start, s)
  {
    hide SidesRun, ExecStream.Apply, Timers.Apply, Asks;
    match a
    case Elapse(time) => TickKeepsSides(j, Timers.Elapse(time), start, s);
    case Advance => TickKeepsSides(j, Timers.Advance, start, s);
    case Act(act) =>
      ActKeepsSides(j, act, start, s);
      if Asks(j.stream, act).Some? {
        TickKeepsSides(j.(stream := ExecStream.Apply(j.stream, act, s.stream), acts := j.acts + [act]),
                       Asks(j.stream, act).value, start, s);
      }
  }

  /** Each side of the joint system has made a run of its own model, so whatever holds of those runs holds here. */
  lemma {:induction false} BothSidesRun(run: seq<Action>, n: nat, start: Time, s: Terms)
    requires n <= |run|
    ensures var j := JointAt(run, n, start, s);
            && j.stream == ExecStream.WorldAt(j.acts, |j.acts|, s.tty, s.stream)
            && j.timers == Timers.WorldAt(j.ticks, |j.ticks|, start, s.timers)
  {
    hide Apply;
    if n > 0 {
      BothSidesRun(run, n - 1, start, s);
      ApplyKeepsSides(JointAt(run, n - 1, start, s), run[n - 1], start, s);
    }
  }

  lemma {:induction false} StepGrows(j: Joint, a: Action, s: Terms)
    ensures j.acts <= Apply(j, a, s).acts
  {
    hide ExecStream.Apply, Timers.Apply, Asks;
  }

  lemma {:induction false} ActsGrow(run: seq<Action>, m: nat, n: nat, start: Time, s: Terms)
    requires m <= n <= |run|
    ensures JointAt(run, m, start, s).acts <= JointAt(run, n, start, s).acts
  {
    hide Apply;
    if m < n {
      ActsGrow(run, m, n - 1, start, s);
      StepGrows(JointAt(run, n - 1, start, s), run[n - 1], s);
    }
  }

  /** Two points of a run are two points of one run of the stream. */
  lemma {:induction false} OneStreamRuns(run: seq<Action>, m: nat, n: nat, start: Time, s: Terms)
    requires m <= n <= |run|
    ensures var i, j := JointAt(run, m, start, s), JointAt(run, n, start, s);
            && |i.acts| <= |j.acts|
            && i.stream == ExecStream.WorldAt(j.acts, |i.acts|, s.tty, s.stream)
            && j.stream == ExecStream.WorldAt(j.acts, |j.acts|, s.tty, s.stream)
  {
    hide JointAt, ExecStream.WorldAt, Timers.WorldAt;
    var i, j := JointAt(run, m, start, s), JointAt(run, n, start, s);
    ActsGrow(run, m, n, start, s);
    BothSidesRun(run, m, start, s);
    BothSidesRun(run, n, start, s);
    StreamExtends(i.acts, j.acts[|i.acts|..], |i.acts|, s.tty, s.stream);
    assert i.acts + j.acts[|i.acts|..] == j.acts;
  }

  // ------------------------------------------------------------- tokens and time

  /** The k-th action takes an activity token. */
  predicate TakesToken(run: seq<Action>, k: nat, start: Time, s: Terms)
    requires k < |run|
  {
    var j := JointAt(run, k, start, s);
    run[k] == Act(ExecStream.MainTakesActivity) && Waits(j) && j.stream.ctl.activity
  }

  lemma {:induction false} JointMoves(j: Joint, a: Action, s: Terms)
    ensures var j' := Apply(j, a, s);
            && j.timers.now <= j'.timers.now && (j'.timers.since == j.timers.since || j'.timers.since == j.timers.now)
            && (a == Act(ExecStream.MainTakesActivity) && Waits(j) && j.timers.activity ==> j'.timers.since == j.timers.now)
  {
    match a {
      case Elapse(time) => Timers.Moves(j.timers, Timers.Elapse(time), s.timers);
      case Advance => Timers.Moves(j.timers, Timers.Advance, s.timers);
      case Act(act) =>
        if Asks(j.stream, act).Some? {
          Timers.Moves(j.timers, Asks(j.stream, act).value, s.timers);
        }
    }
    hide ExecStream.Apply, Timers.AdvanceMain;
  }

  lemma {:induction false} StepSharesTokens(j: Joint, a: Action, s: Terms)
    requires j.timers.activity == j.stream.ctl.activity
    ensures Apply(j, a, s).timers.activity == Apply(j, a, s).stream.ctl.activity
  {
    if a.Act? {
      ExecOutcomes.StepTouches(j.stream, a.act, s.stream);
    }
    hide ExecStream.Apply;
  }

  /** The token the pumps leave is the one that resets the idle timer. */
  lemma {:induction false} TokensAreShared(run: seq<Action>, n: nat, start: Time, s: Terms)
    requires n <= |run|
    ensures JointAt(run, n, start, s).timers.activity == JointAt(run, n, start, s).stream.ctl.activity
  {
    hide Apply;
    if n > 0 {
      TokensAreShared(run, n - 1, start, s);
      StepSharesTokens(JointAt(run, n - 1, start, s), run[n - 1], s);
    }
  }

  /** No token was taken later than the idle timer's count began. */
  lemma {:induction false} TokensComeBefore(run: seq<Action>, k: nat, n: nat, start: Time, s: Terms)
    requires k < n <= |run| && TakesToken(run, k, start, s)
    ensures var t := JointAt(run, k, start, s).timers.now;
            t <= JointAt(run, n, start, s).timers.since && t <= JointAt(run, n, start, s).timers.now
  {
    hide Apply;
    TokensAreShared(run, k, start, s);
    JointMoves(JointAt(run, n - 1, start, s), run[n - 1], s);
    if k < n - 1 {
      TokensComeBefore(run, k, n - 1, start, s);
    }
  }

  // ---------------------------------------------------------- who chooses a timeout

  /** A timeout is chosen by the action of that timer alone. */
  lemma {:induction false} OnlyTimersTimeOut(w: ExecStream.World, a: ExecStream.Action, p: ExecStream.Policy)
    requires !w.ctl.main.Frozen? && w.ctl.outcomes !in {Some(IdleTimeout), Some(MaxDuration)}
    ensures var m := ExecStream.Apply(w, a, p).ctl.main;
            && (m == ExecStream.Frozen(IdleTimeout) <==> w.ctl.main.Selecting? && a.IdleFires?)
            && (m == ExecStream.Frozen(MaxDuration) <==> w.ctl.main.Selecting? && a.MaxFires?)
  {
    hide ExecStream.Apply;
    ExecOutcomes.StepChooses(w, a, p);
  }

  /** One step of the whole makes a timeout the outcome exactly when that timer is ready for the waiting loop. */
  lemma {:induction false} StepTimesOut(j: Joint, a: Action, s: Terms)
    requires !j.stream.ctl.main.Frozen? && j.stream.ctl.outcomes !in {Some(IdleTimeout), Some(MaxDuration)}
    ensures var m, waits := Apply(j, a, s).stream.ctl.main, Waits(j);
            && (m == ExecStream.Frozen(IdleTimeout) <==> waits && a == Act(ExecStream.IdleFires) && j.timers.idle.slot)
            && (m == ExecStream.Frozen(MaxDuration) <==> waits && a == Act(ExecStream.MaxFires) && j.timers.max.slot)
  {
    if a.Act? {
      OnlyTimersTimeOut(j.stream, a.act, s.stream);
    }
    hide ExecStream.Apply, Timers.Apply;
  }

  lemma {:induction false} FrozenStays(j: Joint, a: Action, s: Terms)
    requires j.stream.ctl.main.Frozen?
    ensures Apply(j, a, s).stream.ctl.main == j.stream.ctl.main
  {
    if a.Act? {
      ExecOutcomes.StepChooses(j.stream, a.act, s.stream);
    }
    hide ExecStream.Apply, Timers.Apply;
  }

  /** A run that ends in a timeout has one action that took it, from a loop that waited for a ready timer: an idle
      timeout when a full IdleTimeout had gone by since every token taken, a maximum duration not before the lease's end. */
  lemma {:induction false} TimeoutsAreEarned(run: seq<Action>, n: nat, start: Time, s: Terms) returns (k: nat)
    requires n <= |run|
    requires JointAt(run, n, start, s).stream.ctl.main
             in {ExecStream.Frozen(IdleTimeout), ExecStream.Frozen(MaxDuration)}
    ensures k < n && !JointAt(run, k, start, s).stream.ctl.main.Frozen?
    ensures var outcome, now := JointAt(run, n, start, s).stream.ctl.main.outcome, JointAt(run, k, start, s).timers.now;
            if outcome == IdleTimeout then
              && run[k] == Act(ExecStream.IdleFires) && start + s.timers.idleTimeout <= now
              && (forall i :: 0 <= i < k && TakesToken(run, i, start, s) ==>
                    JointAt(run, i, start, s).timers.now + s.timers.idleTimeout <= now)
            else
              run[k] == Act(ExecStream.MaxFires) && s.timers.expiresAt <= now
  {
    hide Apply, TakesToken;
    var before := JointAt(run, n - 1, start, s);
    if before.stream.ctl.main.Frozen? {
      FrozenStays(before, run[n - 1], s);
      k := TimeoutsAreEarned(run, n - 1, start, s);
    } else {
      k := n - 1;
      BothSidesRun(run, k, start, s);
      ExecOutcomes.SlotIsReportable(before.acts, |before.acts|, s.tty, s.stream);
      StepTimesOut(before, run[k], s);
      Timers.TimeoutsAreDue(before.ticks, |before.ticks|, start, s.timers);
      Timers.NotBeforeStart(before.ticks, |before.ticks|, start, s.timers);
      forall i | 0 <= i < k && TakesToken(run, i, start, s)
        ensures JointAt(run, i, start, s).timers.now <= before.timers.since
      {
        TokensComeBefore(run, i, k, start, s);
      }
    }
  }

  /** Whenever the loop waits, the next action can end it with its maximum duration exactly from the lease's end on,
      or from the clock reading if that was later, put off by the time it took to set the timer; and as
      idle exactly from IdleTimeout after the idle timer was last set. */
  lemma {:induction false} TimeoutsAreOffered(run: seq<Action>, n: nat, start: Time, s: Terms)
    requires n <= |run| && Waits(JointAt(run, n, start, s))
    ensures var j := JointAt(run, n, start, s);
            var end := if j.timers.readAt <= s.timers.expiresAt then s.timers.expiresAt else j.timers.readAt;
            && (Apply(j, Act(ExecStream.MaxFires), s).stream.ctl.main == ExecStream.Frozen(MaxDuration)
                <==> end + (j.timers.setAt - j.timers.readAt) <= j.timers.now)
            && (Apply(j, Act(ExecStream.IdleFires), s).stream.ctl.main == ExecStream.Frozen(IdleTimeout)
                <==> j.timers.armed + s.timers.idleTimeout <= j.timers.now)
  {
    var j := JointAt(run, n, start, s);
    BothSidesRun(run, n, start, s);
    ExecOutcomes.SlotIsReportable(j.acts, |j.acts|, s.tty, s.stream);
    StepTimesOut(j, Act(ExecStream.MaxFires), s);
    StepTimesOut(j, Act(ExecStream.IdleFires), s);
    Timers.TimeoutsAreDue(j.ticks, |j.ticks|, start, s.timers);
    Timers.MaxDurationIsPrompt(j.ticks, |j.ticks|, start, s.timers);
    hide Apply, JointAt;
  }
}
