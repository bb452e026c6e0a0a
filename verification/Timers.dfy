/**
 The idle and maximum-duration timers of a connected session.

 A timer has a deadline while it runs and a one-slot channel.  Reaching the deadline and
 delivering into the slot are one step; stopping, draining and resetting are separate ones,
 and any amount of time may pass between them.
 */
module Timers {
  import opened Sessions
  import opened Frames

  datatype TimerState = TimerState(deadline: Option<Time>, slot: bool)

  /** A timer set for an instant, as it stands now. */
  function SetFor(due: Time, now: Time): TimerState {
    if due <= now then TimerState(None, true) else TimerState(Some(due), false)
  }

  /** What the passing of time does to a timer. */
  function Pass(t: TimerState, now: Time): TimerState {
    if t.deadline.Some? && t.deadline.value <= now then TimerState(None, true) else t
  }

  function Stop(t: TimerState): TimerState {
    t.(deadline := None)
  }

  function Drain(t: TimerState): TimerState {
    t.(slot := false)
  }

  /** Reset leaves whatever is in the slot. */
  function Reset(t: TimerState, now: Time, after: nat): TimerState {
    Pass(t.(deadline := Some(now + after)), now)
  }

  /** A timer object and the clock it runs on. */
  class Timer {
    var now: Time
    var deadline: Option<Time>
    var slot: bool

    function State(): TimerState
      reads this
    {
      TimerState(deadline, slot)
    }

    /** Nothing is overdue. */
    predicate Valid()
      reads this
    {
      deadline.Some? ==> now < deadline.value && !slot
    }

    constructor (now: Time, after: nat)
      ensures this.now == now && State() == SetFor(now + after, now) && Valid()
    {
      this.now := now;
      if after == 0 {
        deadline, slot := None, true;
      } else {
        deadline, slot := Some(now + after), false;
      }
    }

    method Elapse(time: nat)
      modifies this
      ensures now == old(now) + time && State() == Pass(old(State()), now)
    {
      now := now + time;
      if deadline.Some? && deadline.value <= now {
        deadline, slot := None, true;
      }
    }

    method StopTimer() returns (active: bool)
      modifies this
      ensures now == old(now) && active == old(deadline).Some? && State() == Stop(old(State()))
    {
      active := deadline.Some?;
      deadline := None;
    }

    /** A receive that does not wait. */
    method TryReceive()
      modifies this
      ensures now == old(now) && State() == Drain(old(State()))
    {
      slot := false;
    }

    method ResetFor(after: nat)
      modifies this
      ensures now == old(now) && State() == Reset(old(State()), now, after)
    {
      deadline := Some(now + after);
      if after == 0 {
        deadline, slot := None, true;
      }
    }
  }

  /** Whatever state the timer was in and however long each step takes, it ends up as one
      newly set: no earlier firing is left behind. */
  method ResetTimer(timer: Timer, after: nat, pause: nat, wait: nat)
    requires timer.Valid()
    modifies timer
    ensures timer.now == old(timer.now) + pause + wait
    ensures timer.State() == SetFor(timer.now + after, timer.now) && timer.Valid()
  {
    var active := timer.StopTimer();
    timer.Elapse(pause);
    if !active {
      timer.TryReceive();
    }
    timer.Elapse(wait);
    timer.ResetFor(after);
  }

  // ------------------------------------------------------ the loop and its timers

  datatype Main =
    | NewIdle
    | ReadClock
    | NewMax(after: nat)
    | Selecting
    | Stopping
    | Draining
    | Rearming
    | Frozen(outcome: Outcome, at: Time)
    | Left

  /** `since` is the start or the instant of the last activity token taken, `armed` that of the
      last setting of the idle timer, `maxDue` what the other timer was set for, `readAt` when the
      clock was read for it and `setAt` when it was set. */
  datatype World = World(
    now: Time,
    idle: TimerState,
    max: TimerState,
    activity: bool,
    main: Main,
    since: Time,
    armed: Time,
    maxDue: Time,
    readAt: Time,
    setAt: Time)

  datatype Terms = Terms(idleTimeout: nat, expiresAt: Time)

  datatype Action =
    | Elapse(time: nat)
    | Touch
    | Advance
    | TakeActivity
    | TakeIdle
    | TakeMax
    | Leave

  const IDLE := TimerState(None, false)

  function Start(now: Time): World {
    World(now, IDLE, IDLE, false, NewIdle, now, now, now, now, now)
  }

  /** The next step of setting the timers up, or of resetting the idle timer. */
  function AdvanceMain(w: World, s: Terms): World {
    match w.main
    case NewIdle =>
      w.(idle := SetFor(w.now + s.idleTimeout, w.now), since := w.now, armed := w.now, main := ReadClock)
    case ReadClock =>
      w.(readAt := w.now, main := NewMax(if s.expiresAt < w.now then 0 else s.expiresAt - w.now))
    case NewMax(after) =>
      w.(max := SetFor(w.now + after, w.now), maxDue := w.now + after, setAt := w.now, main := Selecting)
    case Stopping =>
      w.(idle := Stop(w.idle), main := if w.idle.deadline.Some? then Rearming else Draining)
    case Draining =>
      w.(idle := Drain(w.idle), main := Rearming)
    case Rearming =>
      w.(idle := Reset(w.idle, w.now, s.idleTimeout), armed := w.now, main := Selecting)
    case _ => w
  }

  /** Whether the waiting loop has the case of its select to take; `Leave` stands for any that is no timer. */
  predicate Offered(w: World, a: Action) {
    match a
    case Elapse(_) | Touch | Advance => true
    case TakeActivity => w.main.Selecting? && w.activity
    case TakeIdle => w.main.Selecting? && w.idle.slot
    case TakeMax => w.main.Selecting? && w.max.slot
    case Leave => w.main.Selecting?
  }

  function Apply(w: World, a: Action, s: Terms): World {
    match a
    case Elapse(time) =>
      var now := w.now + time;
      w.(now := now, idle := Pass(w.idle, now), max := Pass(w.max, now))
    case Touch => w.(activity := true)
    case Advance => AdvanceMain(w, s)
    case TakeActivity => if Offered(w, a) then w.(activity := false, since := w.now, main := Stopping) else w
    case TakeIdle => if Offered(w, a) then w.(idle := Drain(w.idle), main := Frozen(IdleTimeout, w.now)) else w
    case TakeMax => if Offered(w, a) then w.(max := Drain(w.max), main := Frozen(MaxDuration, w.now)) else w
    case Leave => if Offered(w, a) then w.(main := Left) else w
  }

  function WorldAt(actions: seq<Action>, n: nat, start: Time, s: Terms): World
    requires n <= |actions|
  {
    if n == 0 then Start(start) else Apply(WorldAt(actions, n - 1, start, s), actions[n - 1], s)
  }

  predicate IdleOk(w: World, s: Terms) {
    match w.main
    case NewIdle => w.idle == IDLE
    case ReadClock | NewMax(_) | Selecting =>
      w.since <= w.armed <= w.now && w.idle == SetFor(w.armed + s.idleTimeout, w.now)
    case Stopping => w.since <= w.now && w.idle == SetFor(w.armed + s.idleTimeout, w.now)
    case Draining => w.since <= w.now && w.idle.deadline.None?
    case Rearming => w.since <= w.now && w.idle == IDLE
    case Frozen(_, _) | Left => true
  }

  /** What is left of a lease at an instant. */
  function Remaining(s: Terms, at: Time): nat {
    if at <= s.expiresAt then s.expiresAt - at else 0
  }

  predicate MaxOk(w: World, s: Terms) {
    match w.main
    case NewIdle | ReadClock => w.max == IDLE
    case NewMax(after) => w.max == IDLE && w.readAt <= w.now && after == Remaining(s, w.readAt)
    case Frozen(_, _) | Left => true
    case _ =>
      && w.readAt <= w.setAt <= w.now
      && w.maxDue - w.setAt == Remaining(s, w.readAt)
      && w.max == SetFor(w.maxDue, w.now)
  }

  predicate FrozenOk(w: World, s: Terms) {
    w.main.Frozen? ==>
      && w.main.at <= w.now
      && (w.main.outcome == IdleTimeout ==> w.since + s.idleTimeout <= w.main.at)
      && (w.main.outcome == MaxDuration ==> s.expiresAt <= w.main.at)
  }

  lemma {:induction false} ApplyKeeps(w: World, a: Action, s: Terms)
    requires IdleOk(w, s) && MaxOk(w, s) && FrozenOk(w, s)
    ensures IdleOk(Apply(w, a, s), s) && MaxOk(Apply(w, a, s), s) && FrozenOk(Apply(w, a, s), s)
  {
  }

  lemma {:induction false} RunKeeps(actions: seq<Action>, n: nat, start: Time, s: Terms)
    requires n <= |actions|
    ensures var w := WorldAt(actions, n, start, s);
            IdleOk(w, s) && MaxOk(w, s) && FrozenOk(w, s)
  {
    hide Apply, IdleOk, MaxOk, FrozenOk;
    if n == 0 {
      StartKeeps(start, s);
    } else {
      RunKeeps(actions, n - 1, start, s);
      ApplyKeeps(WorldAt(actions, n - 1, start, s), actions[n - 1], s);
    }
  }

  lemma {:induction false} StartKeeps(start: Time, s: Terms)
    ensures IdleOk(Start(start), s) && MaxOk(Start(start), s) && FrozenOk(Start(start), s)
  {
  }

  /** In every run an idle timeout comes a full IdleTimeout after the start or the last token
      taken, and a maximum duration no sooner than the lease's end; and whenever the loop
      waits, each timer is ready exactly from the instant it was last set for. */
  lemma {:induction false} TimeoutsAreDue(actions: seq<Action>, n: nat, start: Time, s: Terms)
    requires n <= |actions|
    ensures var w := WorldAt(actions, n, start, s);
            && (w.main.Frozen? && w.main.outcome == IdleTimeout ==> w.since + s.idleTimeout <= w.main.at)
            && (w.main.Frozen? && w.main.outcome == MaxDuration ==> s.expiresAt <= w.main.at)
            && (w.main.Selecting? ==>
                  && (w.idle.slot <==> w.armed + s.idleTimeout <= w.now) && w.since <= w.armed
                  && (w.max.slot <==> w.maxDue <= w.now) && s.expiresAt <= w.maxDue)
  {
    RunKeeps(actions, n, start, s);
    hide WorldAt;
  }

  /** Whenever the loop waits, the maximum-duration timer was set for what was left of the lease when
      the clock was read: it is ready from the lease's end on, or from the reading if that was
      later, put off by just the time that passed between reading the clock and setting it. */
  lemma {:induction false} MaxDurationIsPrompt(actions: seq<Action>, n: nat, start: Time, s: Terms)
    requires n <= |actions| && WorldAt(actions, n, start, s).main.Selecting?
    ensures var w := WorldAt(actions, n, start, s);
            var end := if w.readAt <= s.expiresAt then s.expiresAt else w.readAt;
            && w.readAt <= w.setAt <= w.now
            && w.maxDue == end + (w.setAt - w.readAt)
            && (w.max.slot <==> end + (w.setAt - w.readAt) <= w.now)
            && (w.setAt == w.readAt ==> (w.max.slot <==> s.expiresAt <= w.now))
  {
    RunKeeps(actions, n, start, s);
    hide WorldAt;
  }

  /** An idle timer reset by a token is ready exactly IdleTimeout after that resetting, however often it
      was reset before, and no later than the token was taken plus IdleTimeout plus the time the resetting took. */
  lemma {:induction false} IdleTimeoutIsPrompt(actions: seq<Action>, n: nat, start: Time, s: Terms)
    requires n <= |actions| && WorldAt(actions, n, start, s).main.Selecting?
    ensures var w := WorldAt(actions, n, start, s);
            && w.since <= w.armed <= w.now
            && (w.armed == w.since ==> (w.idle.slot <==> w.since + s.idleTimeout <= w.now))
  {
    RunKeeps(actions, n, start, s);
    hide WorldAt;
  }

  lemma {:induction false} RunExtends(ticks: seq<Action>, more: seq<Action>, n: nat, start: Time,
                                        s: Terms)
    requires n <= |ticks|
    ensures WorldAt(ticks + more, n, start, s) == WorldAt(ticks, n, start, s)
  {
    hide Apply;
    if n > 0 {
      RunExtends(ticks, more, n - 1, start, s);
    }
  }

  lemma {:induction false} Moves(w: World, t: Action, s: Terms)
    ensures var w' := Apply(w, t, s);
            w.now <= w'.now && (w'.since == w.since || w'.since == w.now)
  {
  }

  lemma {:induction false} NotBeforeStart(ticks: seq<Action>, n: nat, start: Time, s: Terms)
    requires n <= |ticks|
    ensures var w := WorldAt(ticks, n, start, s);
            start <= w.since && start <= w.now
  {
    hide Apply;
    if n > 0 {
      NotBeforeStart(ticks, n - 1, start, s);
      Moves(WorldAt(ticks, n - 1, start, s), ticks[n - 1], s);
    }
  }
}
