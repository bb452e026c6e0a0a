/** What the end of a served session says: which outcome comes of what, and what is reported of it. */
module Endings {
  import opened Sessions
  import opened Manager
  import opened Frames
  import opened Lifecycle
  import ExecStream
  import ExecOutcomes
  import ByteStream
  import ByteOutcomes
  import TimedExec
  import TimedBytes

  /** A socket, both IDs, a known mode with its subprotocol, and for exec a container to run in. */
  predicate Startable(a: Admitted) {
    && a.access.sessionID != "" && a.access.leaseID != ""
    && (|| (a.access.mode == "exec" && a.socket == Some("ani.terminal.v1") && a.access.exec != None)
        || (a.access.mode == "serial" && a.socket == Some("ani.terminal.v1"))
        || (a.access.mode == "vnc" && a.socket == Some("ani.vnc.v1")))
  }

  lemma {:induction false} StartsAreStartable(a: Admitted)
    ensures ValidStart(a) <==> Startable(a)
  {
  }

  /** What a stream chose is none of the outcomes of a start that failed, and fits the mode. */
  lemma {:induction false} StreamOutcomes(c: Carried, access: ClaimedAccess)
    requires Carries(c, access)
    ensures Selected(c, access) !in {InvalidStart, TargetChanged, RuntimeUnavailable}
    ensures Selected(c, access) == InvalidVNCFrame ==> access.mode == "vnc"
    ensures Selected(c, access) == InvalidTerminalFrame ==> access.mode != "vnc"
  {
    hide ExecStream.WorldAt, ByteStream.WorldAt, TimedExec.JointAt, TimedBytes.JointAt;
    if c.ExecRun? {
      var acts := ExecJoint(c, access, c.chosen).acts;
      TimedExec.BothSidesRun(c.execActions, c.chosen, c.start, ExecTerms(c, access));
      ExecOutcomes.OutcomesOfRuns(acts, |acts|, access.exec.value.tty, c.execPolicy);
    } else {
      var acts := ByteJoint(c, access, c.chosen).acts;
      TimedBytes.BothSidesRun(c.byteActions, c.chosen, c.start, ByteTerms(c, access));
      ByteOutcomes.OutcomesOfRuns(acts, |acts|, c.bytePolicy);
    }
  }

  /** Each outcome of a start that fails comes of exactly one cause, and every other is what the stream's main loop chose. */
  lemma {:induction false} OutcomeTells(a: Admitted, outside: Outside)
    requires Sound(a, outside)
    ensures var outcome, ran := OutcomeOf(a, outside), Startable(a) && outside.open == Opened;
            && (outcome == InvalidStart <==> !Startable(a))
            && (outcome == TargetChanged <==> Startable(a) && outside.open == TargetGone && a.access.mode != "exec")
            && (outcome == RuntimeUnavailable
                <==> Startable(a) && (outside.open == OpenFailed || (outside.open == TargetGone && a.access.mode == "exec")))
            && (ran && a.access.mode == "exec" ==>
                  ExecWorld(outside.carried, a.access, outside.carried.chosen).ctl.main == ExecStream.Frozen(outcome))
            && (ran && a.access.mode != "exec" ==>
                  ByteWorld(outside.carried, a.access, outside.carried.chosen).main == ByteStream.Frozen(outcome))
            && (outcome == InvalidVNCFrame ==> a.access.mode == "vnc")
            && (outcome == InvalidTerminalFrame ==> a.access.mode != "vnc")
  {
    hide ExecWorld, ByteWorld, Startable;
    StartsAreStartable(a);
    if Connects(a, outside) {
      StreamOutcomes(outside.carried, a.access);
    }
    hide ValidStart;
  }

  /** The reason kept with a session that ended by an outcome. */
  const REASONS: map<Outcome, string> := map[
    Normal := "normal",
    ClientClosed := "client_closed",
    IdleTimeout := "idle_timeout",
    MaxDuration := "max_duration",
    MessageTooBig := "message_too_big",
    InvalidTerminalFrame := "invalid_terminal_frame",
    InvalidVNCFrame := "invalid_vnc_frame",
    Backpressure := "backpressure",
    RuntimeUnavailable := "runtime_unavailable",
    TargetChanged := "target_changed",
    RuntimeFailed := "runtime_failed",
    TransportFailed := "transport_failed",
    Shutdown := "shutdown",
    InvalidStart := "invalid_start"]

  lemma {:induction false} EveryOutcomeHasItsReason(outcome: Outcome)
    ensures outcome in REASONS && REASONS[outcome] == OutcomeText(outcome)
  {
  }

  lemma {:induction false} EventsTell(a: Admitted, outside: Outside)
    requires Sound(a, outside)
    ensures var t, outcome, ran := Trace(a, outside), OutcomeOf(a, outside), Connects(a, outside);
            && (forall e :: e in t && e.FinalClose? ==>
                  e.outcome == outcome && (e.sent <==> a.socket != None && outcome != ClientClosed))
            && (ran <==> RuntimeOpened in t) && (ran <==> RuntimeClosed in t)
            && (ran <==> Connected(outside.connectedAt) in t)
  {
    hide ValidStart, OutcomeText, OutcomeOf, Sound, BytesIn, BytesOut;
    var t, outcome := Trace(a, outside), OutcomeOf(a, outside);
    if Connects(a, outside) {
      assert 7 <= |t| <= 8 && t[1] == RuntimeOpened && t[2] == Connected(outside.connectedAt) && t[4] == RuntimeClosed;
    } else {
      assert |t| == 4 && t[1] == Closing(a, outcome) && t[2].LeaseReleased? && t[3].Finished?;
    }
  }

  /** What is reported of a run: the last two events are the release of its lease, for its outcome, and the finish, with
      the time from connecting to finishing, unless the clock read zero at connecting, and the stream's
      counters; and every close of the socket is decided with that outcome, and sent unless the client closed or there is no socket. */
  lemma {:induction false} TraceTells(a: Admitted, outside: Outside)
    requires Sound(a, outside)
    ensures var t, outcome, ran := Trace(a, outside), OutcomeOf(a, outside), Startable(a) && outside.open == Opened;
            && 4 <= |t| && t[0] == Observed
            && outcome in REASONS
            && t[|t| - 2] == LeaseReleased(a.access.sessionID, a.access.leaseID, REASONS[outcome])
            && t[|t| - 1].Finished? && t[|t| - 1].finish.outcome == outcome
            && t[|t| - 1].finish.connected == (ran && outside.connectedAt != 0)
            && t[|t| - 1].finish.duration
               == (if ran && outside.connectedAt != 0 then outside.finishedAt - outside.connectedAt else 0)
            && (!ran ==> t[|t| - 1].finish.bytesIn == 0 && t[|t| - 1].finish.bytesOut == 0)
            && (ran && a.access.mode == "exec" ==>
                  var w := ExecWorld(outside.carried, a.access, outside.carried.left);
                  t[|t| - 1].finish.bytesIn == w.inp.bytesIn && t[|t| - 1].finish.bytesOut == w.out.bytesOut)
            && (ran && a.access.mode != "exec" ==>
                  var w := ByteWorld(outside.carried, a.access, outside.carried.left);
                  t[|t| - 1].finish.bytesIn == w.inp.bytesIn && t[|t| - 1].finish.bytesOut == w.out.bytesOut)
            && (forall e :: e in t && e.FinalClose? ==>
                  e.outcome == outcome && (e.sent <==> a.socket != None && outcome != ClientClosed))
            && (ran <==> RuntimeOpened in t) && (ran <==> RuntimeClosed in t)
            && (ran <==> Connected(outside.connectedAt) in t)
  {
    StartsAreStartable(a);
    EveryOutcomeHasItsReason(OutcomeOf(a, outside));
    EventsTell(a, outside);
    hide ExecWorld, ByteWorld, Startable, ValidStart, OutcomeText, OutcomeOf, Closing, REASONS;
  }

  /** A run that is reported to have used up its maximum duration did not end before its lease's end, and one reported as
      idle not before IdleTimeout after its start; the instant is that of the loop's own clock. */
  lemma {:induction false} TimeoutsAreReal(a: Admitted, outside: Outside) returns (k: nat, now: Time)
    requires Sound(a, outside) && OutcomeOf(a, outside) in {IdleTimeout, MaxDuration}
    ensures Startable(a) && outside.open == Opened && k < outside.carried.chosen
    ensures if a.access.mode == "exec" then now == ExecJoint(outside.carried, a.access, k).timers.now
            else now == ByteJoint(outside.carried, a.access, k).timers.now
    ensures if OutcomeOf(a, outside) == MaxDuration then a.access.expiresAt <= now
            else outside.carried.start + outside.carried.idleTimeout <= now
  {
    StartsAreStartable(a);
    hide Startable, ValidStart, TimedExec.JointAt, TimedBytes.JointAt;
    var c := outside.carried;
    if c.ExecRun? {
      k := TimedExec.TimeoutsAreEarned(c.execActions, c.chosen, c.start, ExecTerms(c, a.access));
      now := ExecJoint(c, a.access, k).timers.now;
    } else {
      k := TimedBytes.TimeoutsAreEarned(c.byteActions, c.chosen, c.start, ByteTerms(c, a.access));
      now := ByteJoint(c, a.access, k).timers.now;
    }
  }

  /** What is done for a claim that succeeded, seen from the request: no run without the mode's own subprotocol
      among those offered and an upgrade that succeeds, and then the reason of the one release. */
  lemma {:induction false} ServedTells(u: Upgrade, access: ClaimedAccess, outside: Outside)
    requires Sound(Upgraded(access), outside)
    ensures Asks(u) <==>
            u.originAllowed && u.ticket != "" && ("ani.terminal.v1" in u.offered || "ani.vnc.v1" in u.offered)
    ensures var t, offered := Served(u, access, outside),
                              if access.mode == "vnc" then "ani.vnc.v1" in u.offered else "ani.terminal.v1" in u.offered;
            && (!offered ==> t == [LeaseReleased(access.sessionID, access.leaseID, "subprotocol_rejected")])
            && (offered && !u.upgrades ==> t == [LeaseReleased(access.sessionID, access.leaseID, "upgrade_failed")])
            && (offered && u.upgrades ==>
                  t == Trace(
                         Admitted(access, Some(if access.mode == "vnc" then "ani.vnc.v1" else "ani.terminal.v1")), outside))
  {
    hide Trace, Sound;
  }
}
