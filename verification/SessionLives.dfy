/**
 What becomes of a session, told from the calls and answers of a run alone.

 Each law below spells out every field it speaks of, so it stands beside the functions the
 stores are built from and not on them.
 */
module SessionLives {
  import opened Sessions
  import opened Ledger
  import opened LedgerRuns
  import Memory = MemoryRuns
  import Redis = RedisRuns
  import RedisStore

  /** Call i issued a session. */
  ghost predicate Issues(calls: seq<Call>, i: nat, limits: ClaimLimits)
    requires i < |calls|
  {
    calls[i].op.Create? && ReplyAt(calls, i, limits) == Created(calls[i].op.candidate, false)
  }

  /** Call j closed a session by its own lease ID. */
  ghost predicate OwnClose(calls: seq<Call>, j: nat, id: string, limits: ClaimLimits)
    requires j < |calls|
  {
    && calls[j].op.Close? && calls[j].op.id == id && calls[j].op.leaseID == id + ":lease"
    && ReplyAt(calls, j, limits) == Done
  }

  /** Call j is the first close of a session by its own lease ID since call m. */
  ghost predicate FirstClose(calls: seq<Call>, m: nat, j: nat, id: string, limits: ClaimLimits)
    requires j < |calls|
  {
    m < j && OwnClose(calls, j, id, limits) && forall k: nat :: m < k < j ==> !OwnClose(calls, k, id, limits)
  }

  ghost predicate NoClose(calls: seq<Call>, m: nat, n: nat, id: string, limits: ClaimLimits)
    requires n <= |calls|
  {
    forall k: nat :: m < k < n ==> !OwnClose(calls, k, id, limits)
  }

  /** Call k asked for the session issued by call i, by its ID or its key, and was told that its ticket is no good. */
  ghost predicate FindsSpent(calls: seq<Call>, i: nat, k: nat, limits: ClaimLimits)
    requires i < |calls| && k < |calls| && calls[i].op.Create?
  {
    && ReplyAt(calls, k, limits) == Refused(FailedPrecondition)
    && ((calls[k].op.Claim? && calls[k].op.id == calls[i].op.candidate.intent.id)
        || (calls[k].op.Create? && calls[k].op.key == calls[i].op.key
            && calls[k].at < calls[i].op.candidate.tombstoneExpiresAt))
  }

  ghost predicate FirstSpent(calls: seq<Call>, i: nat, k: nat, limits: ClaimLimits)
    requires i < |calls| && k < |calls| && calls[i].op.Create?
  {
    i < k && FindsSpent(calls, i, k, limits) && forall l: nat :: i < l < k ==> !FindsSpent(calls, i, l, limits)
  }

  ghost predicate NeverSpent(calls: seq<Call>, i: nat, n: nat, limits: ClaimLimits)
    requires i < |calls| && n <= |calls| && calls[i].op.Create?
  {
    forall k: nat :: i < k < n ==> !FindsSpent(calls, i, k, limits)
  }

  // ------------------------------------------------- what a record says of the calls

  lemma {:induction false} HeldStep(h: History, call: Call, cfg: Config, id: string)
    requires Admissible(h, call, cfg) && id in h && h[id].phase.Held?
    ensures var reply := Expected(h, call, cfg.limits);
            var h' := Observe(h, call, reply, cfg.limits);
            && id in h'
            && h'[id].phase == if call.op.Close? && call.op.id == id && call.op.leaseID == id + ":lease" && reply == Done
                               then Released(h[id].phase.since, call.at, call.op.reason)
                               else h[id].phase
  {
    hide ActiveIDs, ActiveFor, ExpectedFromHolder, ProperCandidate;
  }

  /** A session once claimed stays held from that claim's instant until it is closed by its own lease ID. */
  lemma {:induction false} HeldUntilClosed(calls: seq<Call>, m: nat, n: nat, cfg: Config, id: string)
    requires ValidRun(calls, cfg) && m < n <= |calls| && ClaimWon(calls, m, id, cfg.limits)
    requires NoClose(calls, m, n, id, cfg.limits)
    ensures id in LedgerAt(calls, n, cfg.limits) && LedgerAt(calls, n, cfg.limits)[id].phase == Held(calls[m].at)
  {
    hide LedgerAt, ClaimWon, Inv, Expected, Observe, AllHaveOrigins, Admissible, OwnClose, ValidRun;
    if n == m + 1 {
      WinnerIsHeld(calls, m, cfg.limits, id);
    } else {
      HeldUntilClosed(calls, m, n - 1, cfg, id);
      assert !OwnClose(calls, n - 1, id, cfg.limits);
      HeldOneMore(calls, n - 1, cfg, id);
    }
  }

  lemma {:induction false} HeldOneMore(calls: seq<Call>, n: nat, cfg: Config, id: string)
    requires ValidRun(calls, cfg) && n < |calls|
    requires id in LedgerAt(calls, n, cfg.limits) && LedgerAt(calls, n, cfg.limits)[id].phase.Held?
    ensures var h, h' := LedgerAt(calls, n, cfg.limits), LedgerAt(calls, n + 1, cfg.limits);
            && id in h'
            && h'[id].phase == if OwnClose(calls, n, id, cfg.limits)
                               then Released(h[id].phase.since, calls[n].at, calls[n].op.reason)
                               else h[id].phase
  {
    hide LedgerAt, Inv, Expected, Observe, AllHaveOrigins, Admissible, ValidRun;
    RunIsAdmissible(calls, n, cfg);
    LedgerGrows(calls, n, cfg.limits);
    HeldStep(LedgerAt(calls, n, cfg.limits), calls[n], cfg, id);
  }

  /** The first close by its own lease ID is what a session keeps. */
  lemma {:induction false} ClosedFromThen(calls: seq<Call>, m: nat, j: nat, n: nat, cfg: Config, id: string)
    requires ValidRun(calls, cfg) && m < j < n <= |calls| && ClaimWon(calls, m, id, cfg.limits)
    requires FirstClose(calls, m, j, id, cfg.limits)
    ensures id in LedgerAt(calls, n, cfg.limits)
    ensures LedgerAt(calls, n, cfg.limits)[id].phase == Released(calls[m].at, calls[j].at, calls[j].op.reason)
  {
    hide LedgerAt, ClaimWon, OwnClose, ValidRun;
    HeldUntilClosed(calls, m, j, cfg, id);
    HeldOneMore(calls, j, cfg, id);
    RunMovesForward(calls, j + 1, n, cfg, id);
  }

  lemma {:induction false} SpendStep(h: History, call: Call, cfg: Config, id: string)
    requires Admissible(h, call, cfg) && Inv(h, call.at, cfg) && id in h
    requires h[id].phase.Waiting? || h[id].phase.Spent?
    ensures var reply := Expected(h, call, cfg.limits);
            var h' := Observe(h, call, reply, cfg.limits);
            var finds := reply == Refused(FailedPrecondition)
                         && ((call.op.Claim? && call.op.id == id)
                             || (call.op.Create? && call.op.key == h[id].issued.intent.idempotencyKey
                                 && call.at < h[id].issued.tombstoneExpiresAt));
            && id in h'
            && (!(call.op.Claim? && call.op.id == id && reply.Leased?) ==>
                  h'[id].phase == if finds && h[id].phase.Waiting? then Spent(call.at) else h[id].phase)
  {
    hide ActiveIDs, ActiveFor, ExpectedFromHolder, WithinCapacity, OneHolderPerKey;
  }

  lemma {:induction false} SpendOneMore(calls: seq<Call>, i: nat, n: nat, cfg: Config)
    requires ValidRun(calls, cfg) && i < n < |calls| && Issues(calls, i, cfg.limits)
    requires var id, h := calls[i].op.candidate.intent.id, LedgerAt(calls, n, cfg.limits);
             id in h && (h[id].phase.Waiting? || h[id].phase.Spent?) && !ClaimWon(calls, n, id, cfg.limits)
    ensures var id := calls[i].op.candidate.intent.id;
            var h, h' := LedgerAt(calls, n, cfg.limits), LedgerAt(calls, n + 1, cfg.limits);
            && id in h'
            && h'[id].phase == if FindsSpent(calls, i, n, cfg.limits) && h[id].phase.Waiting? then Spent(calls[n].at)
                               else h[id].phase
  {
    var id := calls[i].op.candidate.intent.id;
    StandingOf(calls, i, n, cfg);
    assert ProperCall(calls[i], cfg);
    hide LedgerAt, Inv, Expected, Observe, AllHaveOrigins, Admissible, ValidRun, WonBetween;
    RunIsAdmissible(calls, n, cfg);
    LedgerGrows(calls, n, cfg.limits);
    SpendStep(LedgerAt(calls, n, cfg.limits), calls[n], cfg, id);
  }

  /** An unclaimed session is as issued until a call finds its ticket spent. */
  lemma {:induction false} WaitingUntilSpent(calls: seq<Call>, i: nat, n: nat, cfg: Config)
    requires ValidRun(calls, cfg) && i < n <= |calls| && Issues(calls, i, cfg.limits)
    requires !WonBetween(calls, i, n, calls[i].op.candidate.intent.id, cfg.limits) && NeverSpent(calls, i, n, cfg.limits)
    ensures var id, h := calls[i].op.candidate.intent.id, LedgerAt(calls, n, cfg.limits);
            id in h && h[id] == Record(calls[i].op.candidate, Waiting)
    decreases n
  {
    hide LedgerAt, ClaimWon, ValidRun, FindsSpent, ReplyAt;
    if n == i + 1 {
      StandingAtFirst(calls, i, cfg.limits);
    } else {
      WonBetweenStep(calls, i, n - 1, calls[i].op.candidate.intent.id, cfg.limits);
      hide WonBetween;
      WaitingUntilSpent(calls, i, n - 1, cfg);
      assert !FindsSpent(calls, i, n - 1, cfg.limits);
      SpendOneMore(calls, i, n - 1, cfg);
      StandingOf(calls, i, n, cfg);
    }
  }

  /** The first call that finds the ticket spent closes the session for good. */
  lemma {:induction false} SpentFromThen(calls: seq<Call>, i: nat, k: nat, n: nat, cfg: Config)
    requires ValidRun(calls, cfg) && i < k < n <= |calls| && Issues(calls, i, cfg.limits)
    requires !WonBetween(calls, i, n, calls[i].op.candidate.intent.id, cfg.limits) && FirstSpent(calls, i, k, cfg.limits)
    ensures var id, h := calls[i].op.candidate.intent.id, LedgerAt(calls, n, cfg.limits);
            id in h && h[id] == Record(calls[i].op.candidate, Spent(calls[k].at))
  {
    var id := calls[i].op.candidate.intent.id;
    NotWonBefore(calls, i, k, n, id, cfg.limits);
    hide LedgerAt, ClaimWon, ValidRun, FindsSpent, ReplyAt, WonBetween;
    WaitingUntilSpent(calls, i, k, cfg);
    SpendOneMore(calls, i, k, cfg);
    StandingOf(calls, i, k + 1, cfg);
    RunMovesForward(calls, k + 1, n, cfg, id);
  }

  lemma {:induction false} NotWonBefore(calls: seq<Call>, i: nat, k: nat, n: nat, id: string, limits: ClaimLimits)
    requires i < k < n <= |calls| && !WonBetween(calls, i, n, id, limits)
    ensures !WonBetween(calls, i, k, id, limits) && !WonBetween(calls, i, k + 1, id, limits) && !ClaimWon(calls, k, id, limits)
  {
    hide ClaimWon;
  }

  /** If any call finds the ticket spent, one is the first. */
  lemma {:induction false} SomeFirstSpent(calls: seq<Call>, i: nat, n: nat, limits: ClaimLimits) returns (k: nat)
    requires i < n <= |calls| && calls[i].op.Create? && !NeverSpent(calls, i, n, limits)
    ensures k < n && FirstSpent(calls, i, k, limits)
  {
    hide FindsSpent;
    k := i + 1;
    while !FindsSpent(calls, i, k, limits)
      invariant i < k < n && NeverSpent(calls, i, k, limits)
      decreases n - k
    {
      k := k + 1;
    }
  }

  /** If any call closes the session by its own lease ID, one is the first. */
  lemma {:induction false} SomeFirstClose(calls: seq<Call>, m: nat, n: nat, id: string, limits: ClaimLimits)
    returns (j: nat)
    requires m < n <= |calls| && !NoClose(calls, m, n, id, limits)
    ensures j < n && FirstClose(calls, m, j, id, limits)
  {
    hide OwnClose;
    j := m + 1;
    while !OwnClose(calls, j, id, limits)
      invariant m < j < n && NoClose(calls, m, j, id, limits)
      decreases n - j
    {
      j := j + 1;
    }
  }

  // ------------------------------------------------- what both stores keep of it

  /** What a claim at an instant leaves in a session, whatever becomes of it. */
  predicate AsClaimed(s: Session, intent: Intent, at: Time, limits: ClaimLimits) {
    && s.intent == intent
    && s.ciphertext == ""
    && s.claimedAt == at
    && s.expiresAt == at + limits.sessionMaxDuration
    && s.tombstoneExpiresAt == at + limits.sessionMaxDuration + limits.idempotencyTTL
    && s.leaseID == intent.id + ":lease"
  }

  predicate AsClosed(s: Session, at: Time, reason: string) {
    s.state.Closed? && s.closedAt == at && s.closeReason == reason
  }

  predicate AsOpen(s: Session) {
    s.state.Claimed? && s.closedAt == ZERO_TIME && s.closeReason == ""
  }

  /** What is left of a session whose ticket was found spent. */
  predicate AsSpent(s: Session, intent: Intent, at: Time, cfg: Config) {
    && s.intent == intent
    && s.ciphertext == ""
    && AsClosed(s, at, "ticket_expired")
    && s.claimedAt == ZERO_TIME && s.expiresAt == ZERO_TIME && s.leaseID == ""
    && s.tombstoneExpiresAt == intent.createdAt + cfg.ticketTTL + cfg.limits.idempotencyTTL
  }

  lemma {:induction false} HeldReads(r: Record, now: Time, limits: ClaimLimits)
    requires r.phase.Held? && r.issued.closedAt == ZERO_TIME && r.issued.closeReason == ""
    ensures var since, end := r.phase.since, r.phase.since + limits.sessionMaxDuration;
            var mem, red := Memory.SessionOf(r, now, limits), Redis.HashOf(r, limits);
            && AsClaimed(mem, r.issued.intent, since, limits) && AsClaimed(red, r.issued.intent, since, limits)
            && AsOpen(red)
            && (if end <= now then AsClosed(mem, end, "max_duration") else AsOpen(mem))
  {
  }

  lemma {:induction false} ReleasedReads(r: Record, now: Time, limits: ClaimLimits)
    requires r.phase.Released?
    ensures var since, end := r.phase.since, r.phase.since + limits.sessionMaxDuration;
            var mem, red := Memory.SessionOf(r, now, limits), Redis.HashOf(r, limits);
            && AsClaimed(mem, r.issued.intent, since, limits) && AsClaimed(red, r.issued.intent, since, limits)
            && AsClosed(red, r.phase.at, r.phase.reason)
            && (if end <= r.phase.at then AsClosed(mem, end, "max_duration") else AsClosed(mem, r.phase.at, r.phase.reason))
  {
  }

  lemma {:induction false} SpentReads(id: string, r: Record, now: Time, clock: Time, cfg: Config)
    requires r.phase.Spent? && RecordOk(id, r, clock, cfg)
    ensures AsSpent(Memory.SessionOf(r, now, cfg.limits), r.issued.intent, r.phase.at, cfg)
    ensures AsSpent(Redis.HashOf(r, cfg.limits), r.issued.intent, r.phase.at, cfg)
  {
  }

  /** Both stores hold of a session just what the ledger's record of it says. */
  lemma {:induction false} StoresHold(calls: seq<Call>, n: nat, id: string, name: string -> string, cfg: Config)
    requires ValidRun(calls, cfg) && n <= |calls| && Redis.Injective(name) && id in LedgerAt(calls, n, cfg.limits)
    ensures var h, clock := LedgerAt(calls, n, cfg.limits), ClockAt(calls, n);
            var mem, red := Memory.StateAt(calls, n, cfg.limits), Redis.StateAt(calls, n, name, cfg.limits);
            && RecordOk(id, h[id], clock, cfg)
            && (id in mem.sessions <==> clock < Tombstone(h[id], cfg.limits))
            && (id in mem.sessions ==> mem.sessions[id] == Memory.SessionOf(h[id], clock, cfg.limits))
            && id in red.hashes
            && red.hashes[id] == RedisStore.Keyed(Redis.HashOf(h[id], cfg.limits), Tombstone(h[id], cfg.limits))
  {
    var h, clock := LedgerAt(calls, n, cfg.limits), ClockAt(calls, n);
    var mem, red := Memory.StateAt(calls, n, cfg.limits), Redis.StateAt(calls, n, name, cfg.limits);
    hide LedgerAt, Memory.StateAt, Redis.StateAt, Memory.Matches, Redis.Injective, AllHaveOrigins, ValidRun, RecordOk, Tombstone,
         Memory.SessionOf, Redis.HashOf, OneHolderPerKey, WithinCapacity;
    Memory.RunMatches(calls, n, clock, cfg);
    Redis.RunMatches(calls, n, clock, name, cfg);
    RunKeepsInv(calls, n, clock, cfg);
    Memory.MatchedSession(mem, h, id, clock, cfg.limits);
    HashesMatch(red, name, h, clock, cfg.limits, id);
  }

  lemma {:induction false} HashesMatch(red: RedisStore.RedisState, name: string -> string, h: History, clock: Time,
                                       limits: ClaimLimits, id: string)
    requires Redis.Matches(red, name, h, clock, limits) && id in h
    ensures id in red.hashes
    ensures red.hashes[id] == RedisStore.Keyed(Redis.HashOf(h[id], limits), Tombstone(h[id], limits))
  {
    hide Tombstone, Redis.HashOf;
  }

  /** What both stores hold of a session that call m claimed: the claim's own instant, the end it set, and its lease,
      always; and how it ended, from the first close by its own lease ID or the end of its lease. */
  lemma {:induction false} ClaimedSessionTells(calls: seq<Call>, m: nat, n: nat, id: string, intent: Intent,
                                               name: string -> string, cfg: Config)
    requires ValidRun(calls, cfg) && m < n <= |calls| && Redis.Injective(name) && ClaimWon(calls, m, id, cfg.limits)
    requires ReplyAt(calls, m, cfg.limits).lease.session.intent == intent
    ensures var mem, red := Memory.StateAt(calls, n, cfg.limits).sessions, Redis.StateAt(calls, n, name, cfg.limits).hashes;
            var end := calls[m].at + cfg.limits.sessionMaxDuration;
            && id in red && AsClaimed(red[id].value, intent, calls[m].at, cfg.limits)
            && red[id].expireAt == end + cfg.limits.idempotencyTTL
            && (NoClose(calls, m, n, id, cfg.limits) ==> AsOpen(red[id].value))
            && (forall j: nat :: j < n && FirstClose(calls, m, j, id, cfg.limits)
                  ==> AsClosed(red[id].value, calls[j].at, calls[j].op.reason))
            && (id in mem <==> ClockAt(calls, n) < end + cfg.limits.idempotencyTTL)
            && (id in mem ==>
                  && AsClaimed(mem[id], intent, calls[m].at, cfg.limits)
                  && (NoClose(calls, m, n, id, cfg.limits) ==>
                        if end <= ClockAt(calls, n) then AsClosed(mem[id], end, "max_duration") else AsOpen(mem[id]))
                  && (forall j: nat :: j < n && FirstClose(calls, m, j, id, cfg.limits) ==>
                        if end <= calls[j].at then AsClosed(mem[id], end, "max_duration")
                        else AsClosed(mem[id], calls[j].at, calls[j].op.reason)))
  {
    var h := LedgerAt(calls, n, cfg.limits);
    hide LedgerAt, ReplyAt, ValidRun, Redis.Injective, OwnClose, AsClaimed, AsClosed, AsOpen, Memory.StateAt, Redis.StateAt,
         Memory.SessionOf, Redis.HashOf;
    ClaimedRecord(calls, m, n, id, intent, cfg);
    StoresHold(calls, n, id, name, cfg);
    IssuedPlain(id, h[id], ClockAt(calls, n), cfg);
    hide RecordOk, ClaimWon;
    if NoClose(calls, m, n, id, cfg.limits) {
      HeldUntilClosed(calls, m, n, cfg, id);
      HeldReads(h[id], ClockAt(calls, n), cfg.limits);
    } else {
      var j := SomeFirstClose(calls, m, n, id, cfg.limits);
      OneFirstClose(calls, m, n, j, id, cfg.limits);
      ClosedFromThen(calls, m, j, n, cfg, id);
      ReleasedReads(h[id], ClockAt(calls, n), cfg.limits);
    }
  }

  lemma {:induction false} IssuedPlain(id: string, r: Record, now: Time, cfg: Config)
    requires RecordOk(id, r, now, cfg)
    ensures r.issued.closedAt == ZERO_TIME && r.issued.closeReason == "" && r.issued.intent.id == id
  {
  }

  lemma {:induction false} OneFirstClose(calls: seq<Call>, m: nat, n: nat, j: nat, id: string, limits: ClaimLimits)
    requires j < n <= |calls| && FirstClose(calls, m, j, id, limits)
    ensures forall k: nat :: k < n && FirstClose(calls, m, k, id, limits) ==> k == j
  {
    hide OwnClose;
  }

  /** The record of a session that call m claimed: what the claim was answered with, and a phase since then. */
  lemma {:induction false} ClaimedRecord(calls: seq<Call>, m: nat, n: nat, id: string, intent: Intent, cfg: Config)
    requires ValidRun(calls, cfg) && m < n <= |calls| && ClaimWon(calls, m, id, cfg.limits)
    requires ReplyAt(calls, m, cfg.limits).lease.session.intent == intent
    ensures var h := LedgerAt(calls, n, cfg.limits);
            && id in h && h[id].issued.intent == intent
            && Tombstone(h[id], cfg.limits) == calls[m].at + cfg.limits.sessionMaxDuration + cfg.limits.idempotencyTTL
  {
    hide LedgerAt, ValidRun, Expected;
    LeasedMeans(LedgerAt(calls, m, cfg.limits), calls[m], cfg.limits);
    assert ClaimedSession(LedgerAt(calls, m, cfg.limits)[id].issued, calls[m].at, cfg.limits).intent
        == LedgerAt(calls, m, cfg.limits)[id].issued.intent;
    hide ClaimedSession;
    RunMovesForward(calls, m, n, cfg, id);
    WinnerSetsTombstone(calls, m, n, cfg, id);
  }

  /** What both stores hold of a session that nobody claimed: the very session issued, until a call
      finds its ticket spent and from the first such call on the mark of it. */
  lemma {:induction false} UnclaimedSessionTells(calls: seq<Call>, i: nat, n: nat, name: string -> string, cfg: Config)
    requires ValidRun(calls, cfg) && i < n <= |calls| && Redis.Injective(name) && Issues(calls, i, cfg.limits)
    requires !WonBetween(calls, i, n, calls[i].op.candidate.intent.id, cfg.limits)
    ensures var id, issued := calls[i].op.candidate.intent.id, calls[i].op.candidate;
            var mem, red := Memory.StateAt(calls, n, cfg.limits).sessions, Redis.StateAt(calls, n, name, cfg.limits).hashes;
            && id in red && red[id].expireAt == calls[i].at + cfg.ticketTTL + cfg.limits.idempotencyTTL
            && (id in mem <==> ClockAt(calls, n) < calls[i].at + cfg.ticketTTL + cfg.limits.idempotencyTTL)
            && (NeverSpent(calls, i, n, cfg.limits) ==> red[id].value == issued && (id in mem ==> mem[id] == issued))
            && (forall k: nat :: k < n && FirstSpent(calls, i, k, cfg.limits) ==>
                  && AsSpent(red[id].value, issued.intent, calls[k].at, cfg)
                  && (id in mem ==> AsSpent(mem[id], issued.intent, calls[k].at, cfg)))
  {
    var id, h := calls[i].op.candidate.intent.id, LedgerAt(calls, n, cfg.limits);
    assert ProperCall(calls[i], cfg);
    hide LedgerAt, ReplyAt, ValidRun, Redis.Injective, FindsSpent, AsSpent, WonBetween, Memory.StateAt, Redis.StateAt;
    if NeverSpent(calls, i, n, cfg.limits) {
      WaitingUntilSpent(calls, i, n, cfg);
      StoresHold(calls, n, id, name, cfg);
    } else {
      var k := SomeFirstSpent(calls, i, n, cfg.limits);
      OneFirstSpent(calls, i, n, k, cfg.limits);
      SpentFromThen(calls, i, k, n, cfg);
      StoresHold(calls, n, id, name, cfg);
      SpentReads(id, h[id], ClockAt(calls, n), ClockAt(calls, n), cfg);
      hide Memory.SessionOf, Redis.HashOf;
    }
    hide RecordOk;
  }

  lemma {:induction false} OneFirstSpent(calls: seq<Call>, i: nat, n: nat, k: nat, limits: ClaimLimits)
    requires k < n <= |calls| && i < |calls| && calls[i].op.Create? && FirstSpent(calls, i, k, limits)
    ensures forall l: nat :: l < n && FirstSpent(calls, i, l, limits) ==> l == k
  {
    hide FindsSpent;
  }

  /** A close that gives a lease back while it is out is the first close of its session, and comes before the lease's end. */
  lemma {:induction false} ReleaseIsFirstClose(calls: seq<Call>, m: nat, j: nat, cfg: Config, id: string)
    requires ValidRun(calls, cfg) && m < j < |calls| && ClaimWon(calls, m, id, cfg.limits)
    requires IsRelease(calls, j, id, cfg.limits)
    ensures FirstClose(calls, m, j, id, cfg.limits) && calls[j].at < calls[m].at + cfg.limits.sessionMaxDuration
  {
    WinnerSetsLeaseEnd(calls, m, j, cfg, id);
    assert cfg.Positive();
    ActiveIsHeld(LedgerAt(calls, j, cfg.limits), calls[j], cfg, id);
    hide LedgerAt, ValidRun, ClaimWon, Expected, OwnClose;
    if !NoClose(calls, m, j, id, cfg.limits) {
      var k := SomeFirstClose(calls, m, j, id, cfg.limits);
      ClosedFromThen(calls, m, k, j, cfg, id);
      assert false;
    }
    assert OwnClose(calls, j, id, cfg.limits) by {
      OwnCloseOf(calls, j, id, cfg.limits);
    }
  }

  lemma {:induction false} ActiveIsHeld(h: History, call: Call, cfg: Config, id: string)
    requires call.op.Close? && call.op.id == id && call.op.leaseID == LeaseIDFor(id) && cfg.Positive()
    requires id in ActiveIDs(h, call.at, cfg.limits)
    ensures id in h && h[id].phase.Held? && call.at < LeaseEnd(h[id], cfg.limits) && Expected(h, call, cfg.limits) == Done
  {
  }

  lemma {:induction false} OwnCloseOf(calls: seq<Call>, j: nat, id: string, limits: ClaimLimits)
    requires j < |calls| && calls[j].op.Close? && calls[j].op.id == id && calls[j].op.leaseID == LeaseIDFor(id)
    requires ReplyAt(calls, j, limits) == Done
    ensures OwnClose(calls, j, id, limits)
  {
  }

  // ------------------------------------------------------------ leases, counted

  /** Call m of n claimed a lease that is out at an instant: it has not run out and no call gave it back. */
  ghost predicate StillOut(calls: seq<Call>, m: nat, n: nat, now: Time, limits: ClaimLimits)
    requires m < n <= |calls|
  {
    && calls[m].op.Claim? && ReplyAt(calls, m, limits).Leased?
    && now < calls[m].at + limits.sessionMaxDuration
    && !ReleasedBy(calls, n, calls[m].op.id, limits)
  }

  /** How many of the first k calls, of n in all, claimed a lease that is out. */
  ghost function LeasesOut(calls: seq<Call>, k: nat, n: nat, now: Time, limits: ClaimLimits): nat
    requires k <= n <= |calls|
  {
    if k == 0 then 0
    else LeasesOut(calls, k - 1, n, now, limits) + if StillOut(calls, k - 1, n, now, limits) then 1 else 0
  }

  /** The same for one subject. */
  ghost function LeasesOutFor(calls: seq<Call>, k: nat, n: nat, now: Time, subject: string, limits: ClaimLimits): nat
    requires k <= n <= |calls|
  {
    if k == 0 then 0
    else LeasesOutFor(calls, k - 1, n, now, subject, limits)
         + if StillOut(calls, k - 1, n, now, limits)
              && ReplyAt(calls, k - 1, limits).lease.session.intent.subjectID == subject then 1 else 0
  }

  lemma {:induction false} OutIsActive(calls: seq<Call>, m: nat, n: nat, now: Time, cfg: Config)
    requires ValidRun(calls, cfg) && m < n <= |calls| && ClockAt(calls, n) <= now
    requires calls[m].op.Claim? && ReplyAt(calls, m, cfg.limits).Leased?
    ensures var h, id := LedgerAt(calls, n, cfg.limits), calls[m].op.id;
            && (StillOut(calls, m, n, now, cfg.limits) <==> id in ActiveIDs(h, now, cfg.limits))
            && id in h && h[id].issued.intent == ReplyAt(calls, m, cfg.limits).lease.session.intent
  {
    var h, id := LedgerAt(calls, n, cfg.limits), calls[m].op.id;
    WinnerSetsLeaseEnd(calls, m, n, cfg, id);
    ClaimedRecord(calls, m, n, id, ReplyAt(calls, m, cfg.limits).lease.session.intent, cfg);
    ReleasesAreReturnedIDs(calls, n, cfg);
    RunKeepsInv(calls, n, now, cfg);
    assert RecordOk(id, h[id], now, cfg);
    hide LedgerAt, ReplyAt, ValidRun, ReleasedBy, Inv, AllHaveOrigins, Expected;
  }

  /** The leases that are out, counted over the claims, are the active ones. */
  lemma {:induction false} LeasesOutAreActive(calls: seq<Call>, k: nat, n: nat, now: Time, cfg: Config)
    requires ValidRun(calls, cfg) && k <= n <= |calls| && ClockAt(calls, n) <= now
    ensures LeasesOut(calls, k, n, now, cfg.limits)
         == |ActiveIDs(LedgerAt(calls, n, cfg.limits), now, cfg.limits) * ClaimedIDs(LedgerAt(calls, k, cfg.limits))|
    decreases k
  {
    hide LedgerAt, ActiveIDs, ActiveFor, ClaimedIDs, StillOut, ValidRun, ReplyAt;
    if k == 0 {
      NothingClaimedAtFirst(calls, cfg.limits);
      assert ActiveIDs(LedgerAt(calls, n, cfg.limits), now, cfg.limits) * {} == {};
    } else {
      LeasesOutAreActive(calls, k - 1, n, now, cfg);
      StepOut(calls, k - 1, n, now, "", cfg);
    }
  }

  lemma {:induction false} SubjectLeasesAreActive(calls: seq<Call>, k: nat, n: nat, now: Time, subject: string,
                                                  cfg: Config)
    requires ValidRun(calls, cfg) && k <= n <= |calls| && ClockAt(calls, n) <= now
    ensures LeasesOutFor(calls, k, n, now, subject, cfg.limits)
         == |ActiveFor(LedgerAt(calls, n, cfg.limits), subject, now, cfg.limits) * ClaimedIDs(LedgerAt(calls, k, cfg.limits))|
    decreases k
  {
    hide LedgerAt, ActiveIDs, ActiveFor, ClaimedIDs, ValidRun, ReplyAt, ReleasedBy;
    if k == 0 {
      NothingClaimedAtFirst(calls, cfg.limits);
      assert ActiveFor(LedgerAt(calls, n, cfg.limits), subject, now, cfg.limits) * {} == {};
    } else {
      SubjectLeasesAreActive(calls, k - 1, n, now, subject, cfg);
      StepOut(calls, k - 1, n, now, subject, cfg);
    }
  }

  lemma {:induction false} StepOut(calls: seq<Call>, k: nat, n: nat, now: Time, subject: string, cfg: Config)
    requires ValidRun(calls, cfg) && k < n <= |calls| && ClockAt(calls, n) <= now
    ensures var h := LedgerAt(calls, n, cfg.limits);
            var before, after := ClaimedIDs(LedgerAt(calls, k, cfg.limits)), ClaimedIDs(LedgerAt(calls, k + 1, cfg.limits));
            && |ActiveIDs(h, now, cfg.limits) * after| == |ActiveIDs(h, now, cfg.limits) * before|
               + (if StillOut(calls, k, n, now, cfg.limits) then 1 else 0)
            && |ActiveFor(h, subject, now, cfg.limits) * after| == |ActiveFor(h, subject, now, cfg.limits) * before|
               + if StillOut(calls, k, n, now, cfg.limits)
                    && ReplyAt(calls, k, cfg.limits).lease.session.intent.subjectID == subject then 1 else 0
  {
    var h := LedgerAt(calls, n, cfg.limits);
    hide LedgerAt, ClaimedIDs, ValidRun, ReplyAt, ReleasedBy;
    StepClaims(calls, k, cfg);
    if calls[k].op.Claim? && ReplyAt(calls, k, cfg.limits).Leased? {
      var id, before := calls[k].op.id, ClaimedIDs(LedgerAt(calls, k, cfg.limits));
      OutIsActive(calls, k, n, now, cfg);
      Intersect(ActiveIDs(h, now, cfg.limits), before, id);
      Intersect(ActiveFor(h, subject, now, cfg.limits), before, id);
      assert id in ActiveFor(h, subject, now, cfg.limits)
        <==> id in ActiveIDs(h, now, cfg.limits) && h[id].issued.intent.subjectID == subject;
    }
    hide ActiveIDs, ActiveFor;
  }

  lemma {:induction false} ActiveWereClaimed(h: History, now: Time, subject: string, limits: ClaimLimits)
    ensures ActiveIDs(h, now, limits) * ClaimedIDs(h) == ActiveIDs(h, now, limits)
    ensures ActiveFor(h, subject, now, limits) * ClaimedIDs(h) == ActiveFor(h, subject, now, limits)
  {
  }

  lemma {:induction false} CountedLeases(calls: seq<Call>, n: nat, now: Time, subject: string, cfg: Config)
    requires ValidRun(calls, cfg) && n <= |calls| && ClockAt(calls, n) <= now
    ensures var h := LedgerAt(calls, n, cfg.limits);
            && |ActiveIDs(h, now, cfg.limits)| == LeasesOut(calls, n, n, now, cfg.limits)
            && |ActiveFor(h, subject, now, cfg.limits)| == LeasesOutFor(calls, n, n, now, subject, cfg.limits)
  {
    hide LedgerAt, ActiveIDs, ActiveFor, ClaimedIDs, ValidRun, LeasesOut, LeasesOutFor;
    LeasesOutAreActive(calls, n, n, now, cfg);
    SubjectLeasesAreActive(calls, n, n, now, subject, cfg);
    ActiveWereClaimed(LedgerAt(calls, n, cfg.limits), now, subject, cfg.limits);
  }

  // ------------------------------------------------------------ the laws of the calls

  /** Until a key is forgotten: as long after its claim as a session and then its key may last, and
      unclaimed as long after its creation as a ticket and then its key may last. */
  lemma {:induction false} KeyEndTells(calls: seq<Call>, i: nat, j: nat, cfg: Config)
    requires ValidRun(calls, cfg) && i < j <= |calls| && Issues(calls, i, cfg.limits)
    ensures !WonBetween(calls, i, j, calls[i].op.candidate.intent.id, cfg.limits) ==>
              KeyEnd(calls, i, j, cfg.limits) == calls[i].at + cfg.ticketTTL + cfg.limits.idempotencyTTL
    ensures forall m: nat :: i < m < j && ClaimWon(calls, m, calls[i].op.candidate.intent.id, cfg.limits) ==>
              KeyEnd(calls, i, j, cfg.limits)
              == calls[m].at + cfg.limits.sessionMaxDuration + cfg.limits.idempotencyTTL
  {
    var id := calls[i].op.candidate.intent.id;
    assert ProperCall(calls[i], cfg);
    KeyEndIsTombstone(calls, i, j, cfg);
    hide LedgerAt, ReplyAt, ClaimWon, ValidRun;
    forall m: nat | i < m < j && ClaimWon(calls, m, id, cfg.limits)
      ensures KeyEnd(calls, i, j, cfg.limits) == calls[m].at + cfg.limits.sessionMaxDuration + cfg.limits.idempotencyTTL
    {
      WinnerSetsTombstone(calls, m, j, cfg, id);
    }
  }

  /** Whoever the ledger knows was issued by an earlier call. */
  lemma {:induction false} KnownIsIssued(calls: seq<Call>, j: nat, id: string, cfg: Config) returns (i: nat)
    requires ValidRun(calls, cfg) && j < |calls| && id in LedgerAt(calls, j, cfg.limits)
    ensures i < j && Issues(calls, i, cfg.limits) && calls[i].op.candidate.intent.id == id
    ensures calls[i].op.candidate.intent.idempotencyKey == calls[i].op.key
    ensures Tombstone(LedgerAt(calls, j, cfg.limits)[id], cfg.limits) == KeyEnd(calls, i, j, cfg.limits)
    ensures LedgerAt(calls, j, cfg.limits)[id].issued == calls[i].op.candidate
  {
    RunIsAdmissible(calls, j, cfg);
    hide LedgerAt, ValidRun, Inv, Admissible, KeyEnd;
    OriginOf(calls, j, id, cfg.limits);
    i :| i < j && IssuedBy(calls, i, id, LedgerAt(calls, j, cfg.limits)[id].issued, cfg.limits);
    KeyEndIsTombstone(calls, i, j, cfg);
    KeyOf(calls, i, cfg);
  }

  /** A create whose key no session holds any more, or ever held, issues its own candidate. */
  lemma {:induction false} FreshKeyIssues(calls: seq<Call>, j: nat, cfg: Config)
    requires ValidRun(calls, cfg) && j < |calls| && calls[j].op.Create?
    requires forall i: nat :: i < j && Issues(calls, i, cfg.limits) && calls[i].op.key == calls[j].op.key
               ==> KeyEnd(calls, i, j, cfg.limits) <= calls[j].at
    ensures ReplyAt(calls, j, cfg.limits) == Created(calls[j].op.candidate, false)
  {
    var h, key, now, limits := LedgerAt(calls, j, cfg.limits), calls[j].op.key, calls[j].at, cfg.limits;
    hide LedgerAt, ValidRun, KeyEnd, Expected, Tombstone;
    forall id | id in h ensures !Holds(h[id], key, now, limits) {
      var i := KnownIsIssued(calls, j, id, cfg);
    }
    NobodyHolds(h, calls[j], limits);
  }

  lemma {:induction false} KeyOf(calls: seq<Call>, i: nat, cfg: Config)
    requires ValidRun(calls, cfg) && i < |calls| && calls[i].op.Create?
    ensures calls[i].op.candidate.intent.idempotencyKey == calls[i].op.key
  {
    assert ProperCall(calls[i], cfg);
  }

  lemma {:induction false} NobodyHolds(h: History, call: Call, limits: ClaimLimits)
    requires call.op.Create? && forall id :: id in h ==> !Holds(h[id], call.op.key, call.at, limits)
    ensures Expected(h, call, limits) == Created(call.op.candidate, false)
  {
    assert Holders(h, call.op.key, call.at, limits) == {};
  }

  /** What a claim is answered with, told from the calls before it: when it is refused and why, and
      what it grants otherwise. */
  lemma {:induction false} ClaimLaw(calls: seq<Call>, i: nat, j: nat, cfg: Config)
    requires ValidRun(calls, cfg) && i < j < |calls| && Issues(calls, i, cfg.limits)
    requires calls[j].op.Claim? && calls[j].op.id == calls[i].op.candidate.intent.id
    ensures var now, id, issued, limits := calls[j].at, calls[j].op.id, calls[i].op.candidate, cfg.limits;
            ReplyAt(calls, j, limits) ==
            if KeyEnd(calls, i, j, limits) <= now then
              Refused(NotFound)
            else if WonBetween(calls, i, j, id, limits) || calls[i].at + cfg.ticketTTL <= now then
              Refused(FailedPrecondition)
            else if calls[j].op.digest != issued.intent.ticketDigest then
              Refused(InvalidTicket)
            else if limits.maxActive <= LeasesOut(calls, j, j, now, limits)
                    || limits.maxActivePerSubject <= LeasesOutFor(calls, j, j, now, issued.intent.subjectID, limits) then
              Refused(Capacity)
            else
              Leased(SessionLease(
                id + ":lease",
                Session(issued.intent, "", Claimed, now + limits.sessionMaxDuration,
                        now + limits.sessionMaxDuration + limits.idempotencyTTL, now, ZERO_TIME, "", id + ":lease"),
                now + limits.sessionMaxDuration))
  {
    var h, id, issued := LedgerAt(calls, j, cfg.limits), calls[j].op.id, calls[i].op.candidate;
    assert ProperCall(calls[i], cfg) && ProperCall(calls[j], cfg);
    ClockRuns(calls, j, cfg);
    StandingOf(calls, i, j, cfg);
    KeyEndIsTombstone(calls, i, j, cfg);
    CountedLeases(calls, j, calls[j].at, issued.intent.subjectID, cfg);
    hide LedgerAt, ValidRun, WonBetween, KeyEnd, LeasesOut, LeasesOutFor, ActiveIDs, ActiveFor;
    ExpectedClaimTells(h, calls[j], issued, cfg);
    hide Expected, Tombstone;
  }

  lemma {:induction false} ClockRuns(calls: seq<Call>, j: nat, cfg: Config)
    requires ValidRun(calls, cfg) && j < |calls|
    ensures ClockAt(calls, j) <= calls[j].at
  {
    assert ProperCall(calls[j], cfg);
  }

  /** The ledger's answer to a claim, spelled out for a record of an issued candidate. */
  lemma {:induction false} ExpectedClaimTells(h: History, call: Call, issued: Session, cfg: Config)
    requires call.op.Claim? && call.op.id in h && h[call.op.id].issued == issued && issued.intent.id == call.op.id
    requires ProperCandidate(issued.intent.idempotencyKey, issued, issued.intent.createdAt, cfg)
    requires h[call.op.id].phase.Spent? ==> issued.intent.ticketExpiresAt <= call.at
    ensures var now, id, limits := call.at, call.op.id, cfg.limits;
            Expected(h, call, limits) ==
            if Tombstone(h[id], limits) <= now then
              Refused(NotFound)
            else if WasClaimed(h[id]) || issued.intent.ticketExpiresAt <= now then
              Refused(FailedPrecondition)
            else if call.op.digest != issued.intent.ticketDigest then
              Refused(InvalidTicket)
            else if limits.maxActive <= |ActiveIDs(h, now, limits)|
                    || limits.maxActivePerSubject <= |ActiveFor(h, issued.intent.subjectID, now, limits)| then
              Refused(Capacity)
            else
              Leased(SessionLease(
                id + ":lease",
                Session(issued.intent, "", Claimed, now + limits.sessionMaxDuration,
                        now + limits.sessionMaxDuration + limits.idempotencyTTL, now, ZERO_TIME, "", id + ":lease"),
                now + limits.sessionMaxDuration))
  {
    hide ActiveIDs, ActiveFor;
  }

  /** A claim or close of an ID that no create ever issued finds nothing. */
  lemma {:induction false} UnknownIsNotFound(calls: seq<Call>, j: nat, cfg: Config)
    requires ValidRun(calls, cfg) && j < |calls| && (calls[j].op.Claim? || calls[j].op.Close?)
    requires forall i: nat :: i < j && Issues(calls, i, cfg.limits) ==> calls[i].op.candidate.intent.id != calls[j].op.id
    ensures ReplyAt(calls, j, cfg.limits) == Refused(NotFound)
  {
    if calls[j].op.id in LedgerAt(calls, j, cfg.limits) {
      var i := KnownIsIssued(calls, j, calls[j].op.id, cfg);
    }
    hide LedgerAt, ValidRun, Issues;
  }

  /** What a close is answered with, told from the calls before it. */
  lemma {:induction false} CloseLaw(calls: seq<Call>, i: nat, j: nat, cfg: Config)
    requires ValidRun(calls, cfg) && i < j < |calls| && Issues(calls, i, cfg.limits)
    requires calls[j].op.Close? && calls[j].op.id == calls[i].op.candidate.intent.id
    ensures var now, id, limits := calls[j].at, calls[j].op.id, cfg.limits;
            ReplyAt(calls, j, limits) ==
            if KeyEnd(calls, i, j, limits) <= now then
              Refused(NotFound)
            else if !WonBetween(calls, i, j, id, limits) then
              if NeverSpent(calls, i, j, limits) then Refused(FailedPrecondition) else Done
            else if calls[j].op.leaseID != id + ":lease"
                    && exists m: nat :: i < m < j && ClaimWon(calls, m, id, limits) && StillOut(calls, m, j, now, limits) then
              Refused(FailedPrecondition)
            else
              Done
  {
    var h, id, now, limits := LedgerAt(calls, j, cfg.limits), calls[j].op.id, calls[j].at, cfg.limits;
    ClockRuns(calls, j, cfg);
    StandingOf(calls, i, j, cfg);
    KeyEndIsTombstone(calls, i, j, cfg);
    hide LedgerAt, ValidRun, KeyEnd, FindsSpent, ClaimWon, StillOut;
    if WonBetween(calls, i, j, id, limits) {
      forall m: nat | i < m < j && ClaimWon(calls, m, id, limits)
        ensures StillOut(calls, m, j, now, limits) <==> Active(h[id], now, limits)
      {
        WonIsOut(calls, m, j, now, cfg, id);
      }
      var m: nat :| i < m < j && ClaimWon(calls, m, id, limits);
    } else if NeverSpent(calls, i, j, limits) {
      WaitingUntilSpent(calls, i, j, cfg);
    } else {
      var k := SomeFirstSpent(calls, i, j, limits);
      SpentFromThen(calls, i, k, j, cfg);
    }
    ExpectedCloseTells(h, calls[j], limits);
    hide Expected, Active, Tombstone, WonBetween, NeverSpent;
  }

  lemma {:induction false} WonIsOut(calls: seq<Call>, m: nat, n: nat, now: Time, cfg: Config, id: string)
    requires ValidRun(calls, cfg) && m < n <= |calls| && ClockAt(calls, n) <= now && ClaimWon(calls, m, id, cfg.limits)
    ensures var h := LedgerAt(calls, n, cfg.limits);
            id in h && (StillOut(calls, m, n, now, cfg.limits) <==> Active(h[id], now, cfg.limits))
  {
    OutIsActive(calls, m, n, now, cfg);
    hide LedgerAt, ReplyAt, ValidRun, StillOut;
  }

  lemma {:induction false} ExpectedCloseTells(h: History, call: Call, limits: ClaimLimits)
    requires call.op.Close? && call.op.id in h
    ensures var r := h[call.op.id];
            Expected(h, call, limits) ==
            if Tombstone(r, limits) <= call.at then Refused(NotFound)
            else if r.phase.Waiting? then Refused(FailedPrecondition)
            else if call.op.leaseID != call.op.id + ":lease" && Active(r, call.at, limits) then Refused(FailedPrecondition)
            else Done
  {
  }
}
