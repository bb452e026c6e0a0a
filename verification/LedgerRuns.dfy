/** What holds of every run of the ledger: safety, conservation and idempotency. */
module LedgerRuns {
  import opened Sessions
  import opened Ledger

  /** Call i issued the session that the ledger remembers under `id`. */
  ghost predicate IssuedBy(calls: seq<Call>, i: nat, id: string, issued: Session, limits: ClaimLimits)
    requires i < |calls|
  {
    && calls[i].op.Create?
    && calls[i].op.candidate == issued
    && issued.intent.id == id
    && ReplyAt(calls, i, limits) == Created(issued, false)
  }

  ghost predicate HasOrigin(calls: seq<Call>, n: nat, id: string, issued: Session, limits: ClaimLimits)
    requires n <= |calls|
  {
    exists i: nat :: i < n && IssuedBy(calls, i, id, issued, limits)
  }

  ghost predicate AllHaveOrigins(calls: seq<Call>, n: nat, limits: ClaimLimits)
    requires n <= |calls|
  {
    forall id :: id in LedgerAt(calls, n, limits)
      ==> HasOrigin(calls, n, id, LedgerAt(calls, n, limits)[id].issued, limits)
  }

  /** The ledger grows by one entry per call. */
  lemma {:induction false} LedgerGrows(calls: seq<Call>, n: nat, limits: ClaimLimits)
    requires n < |calls|
    ensures LedgerAt(calls, n + 1, limits)
         == Observe(LedgerAt(calls, n, limits), calls[n], Expected(LedgerAt(calls, n, limits), calls[n], limits), limits)
  {
    hide Observe, Expected;
  }

  lemma {:induction false} EmptyLedgerOk(cfg: Config)
    requires cfg.Positive()
    ensures Inv(map[], ZERO_TIME, cfg)
  {
    assert ActiveIDs(map[], ZERO_TIME, cfg.limits) == {};
    forall subject ensures |ActiveFor(map[], subject, ZERO_TIME, cfg.limits)| <= cfg.limits.maxActivePerSubject {
      assert ActiveFor(map[], subject, ZERO_TIME, cfg.limits) == {};
    }
  }

  /** An ID in use has an origin among the earlier calls, so a later candidate cannot carry it. */
  lemma {:induction false} CandidateIsNew(calls: seq<Call>, n: nat, cfg: Config)
    requires ValidRun(calls, cfg) && n < |calls| && calls[n].op.Create?
    requires AllHaveOrigins(calls, n, cfg.limits)
    ensures calls[n].op.candidate.intent.id !in LedgerAt(calls, n, cfg.limits)
  {
    var h, id := LedgerAt(calls, n, cfg.limits), calls[n].op.candidate.intent.id;
    assert id in h ==> HasOrigin(calls, n, id, h[id].issued, cfg.limits);
  }

  lemma {:induction false} StepKeepsOrigins(calls: seq<Call>, n: nat, cfg: Config)
    requires ValidRun(calls, cfg) && n < |calls| && AllHaveOrigins(calls, n, cfg.limits)
    requires Inv(LedgerAt(calls, n, cfg.limits), calls[n].at, cfg)
    requires Admissible(LedgerAt(calls, n, cfg.limits), calls[n], cfg)
    ensures AllHaveOrigins(calls, n + 1, cfg.limits)
  {
    var limits := cfg.limits;
    var h, h' := LedgerAt(calls, n, limits), LedgerAt(calls, n + 1, limits);
    hide Inv, Admissible, Expected, Observe;
    LedgerGrows(calls, n, limits);
    forall id | id in h' ensures HasOrigin(calls, n + 1, id, h'[id].issued, limits) {
      if id in h {
        StepMovesForward(h, calls[n], cfg, id);
        OriginLasts(calls, n, id, h[id].issued, limits);
      } else {
        OnlyCreateAdds(h, calls[n], limits, id);
        assert IssuedBy(calls, n, id, h'[id].issued, limits);
      }
    }
  }

  lemma {:induction false} OriginLasts(calls: seq<Call>, n: nat, id: string, issued: Session, limits: ClaimLimits)
    requires n < |calls| && HasOrigin(calls, n, id, issued, limits)
    ensures HasOrigin(calls, n + 1, id, issued, limits)
  {
    hide Expected, Observe;
    var i: nat :| i < n && IssuedBy(calls, i, id, issued, limits);
    assert i < n + 1;
  }

  lemma {:induction false} OnlyCreateAdds(h: History, call: Call, limits: ClaimLimits, id: string)
    requires id !in h && id in Observe(h, call, Expected(h, call, limits), limits)
    ensures call.op.Create? && id == call.op.candidate.intent.id
    ensures Expected(h, call, limits) == Created(call.op.candidate, false)
    ensures Observe(h, call, Expected(h, call, limits), limits)[id].issued == call.op.candidate
  {
  }

  /** After any number of calls, and at any later instant, the records are in order,
      every key has at most one holder, both limits are kept, and every record comes
      from one earlier create. */
  lemma {:induction false} RunKeepsInv(calls: seq<Call>, n: nat, now: Time, cfg: Config)
    requires ValidRun(calls, cfg) && n <= |calls| && ClockAt(calls, n) <= now
    ensures Inv(LedgerAt(calls, n, cfg.limits), now, cfg)
    ensures AllHaveOrigins(calls, n, cfg.limits)
    decreases n, 0
  {
    hide Inv, Admissible, Expected, Observe;
    if n == 0 {
      EmptyLedgerOk(cfg);
      assert LedgerAt(calls, 0, cfg.limits) == map[];
    } else {
      LedgerGrows(calls, n - 1, cfg.limits);
      RunIsAdmissible(calls, n - 1, cfg);
      StepKeepsInv(LedgerAt(calls, n - 1, cfg.limits), calls[n - 1], cfg);
      StepKeepsOrigins(calls, n - 1, cfg);
    }
    LaterIsSmaller(LedgerAt(calls, n, cfg.limits), ClockAt(calls, n), now, cfg);
  }

  /** Each call of a valid run finds the ledger in order at its own instant, and its ID new. */
  lemma {:induction false} RunIsAdmissible(calls: seq<Call>, n: nat, cfg: Config)
    requires ValidRun(calls, cfg) && n < |calls|
    ensures Inv(LedgerAt(calls, n, cfg.limits), calls[n].at, cfg)
    ensures AllHaveOrigins(calls, n, cfg.limits)
    ensures Admissible(LedgerAt(calls, n, cfg.limits), calls[n], cfg)
    decreases n, 1
  {
    assert ProperCall(calls[n], cfg);
    RunKeepsInv(calls, n, calls[n].at, cfg);
    if calls[n].op.Create? {
      CandidateIsNew(calls, n, cfg);
    }
  }

  // ------------------------------------------------------------ one-time use

  /** Phases only move waiting -> held -> released or waiting -> spent. */
  predicate Follows(later: Phase, earlier: Phase) {
    || later == earlier
    || earlier.Waiting?
    || (earlier.Held? && later.Released? && later.since == earlier.since)
  }

  lemma {:induction false} StepMovesForward(h: History, call: Call, cfg: Config, id: string)
    requires Admissible(h, call, cfg) && Inv(h, call.at, cfg) && id in h
    ensures id in Observe(h, call, Expected(h, call, cfg.limits), cfg.limits)
    ensures var r' := Observe(h, call, Expected(h, call, cfg.limits), cfg.limits)[id];
            r'.issued == h[id].issued && Follows(r'.phase, h[id].phase)
  {
  }

  lemma {:induction false} RunMovesForward(calls: seq<Call>, i: nat, j: nat, cfg: Config, id: string)
    requires ValidRun(calls, cfg) && i <= j <= |calls| && id in LedgerAt(calls, i, cfg.limits)
    ensures id in LedgerAt(calls, j, cfg.limits)
    ensures LedgerAt(calls, j, cfg.limits)[id].issued == LedgerAt(calls, i, cfg.limits)[id].issued
    ensures Follows(LedgerAt(calls, j, cfg.limits)[id].phase, LedgerAt(calls, i, cfg.limits)[id].phase)
    decreases j
  {
    hide Inv, Admissible, Expected, Observe, LedgerAt, ValidRun;
    if i < j {
      LedgerGrows(calls, j - 1, cfg.limits);
      RunMovesForward(calls, i, j - 1, cfg, id);
      RunIsAdmissible(calls, j - 1, cfg);
      StepMovesForward(LedgerAt(calls, j - 1, cfg.limits), calls[j - 1], cfg, id);
    }
  }

  ghost predicate ClaimWon(calls: seq<Call>, m: nat, id: string, limits: ClaimLimits)
    requires m < |calls|
  {
    calls[m].op.Claim? && calls[m].op.id == id && ReplyAt(calls, m, limits).Leased?
  }

  /** A session ID is claimed with success at most once in a run. */
  lemma {:induction false} ClaimedOnce(calls: seq<Call>, i: nat, j: nat, cfg: Config, id: string)
    requires ValidRun(calls, cfg) && i < j < |calls|
    requires ClaimWon(calls, i, id, cfg.limits)
    ensures !ClaimWon(calls, j, id, cfg.limits)
  {
    assert WasClaimed(LedgerAt(calls, i + 1, cfg.limits)[id]);
    RunMovesForward(calls, i + 1, j, cfg, id);
  }

  lemma {:induction false} LeasedMeans(h: History, call: Call, limits: ClaimLimits)
    requires call.op.Claim? && Expected(h, call, limits).Leased?
    ensures var id := call.op.id;
            && id in h && call.op.digest == h[id].issued.intent.ticketDigest && call.at < h[id].issued.intent.ticketExpiresAt
            && Expected(h, call, limits) == Leased(SessionLease(
                 id + ":lease", ClaimedSession(h[id].issued, call.at, limits), call.at + limits.sessionMaxDuration))
  {
    hide ActiveIDs, ActiveFor, ClaimedSession;
  }

  lemma {:induction false} OriginOf(calls: seq<Call>, n: nat, id: string, limits: ClaimLimits)
    requires n <= |calls| && AllHaveOrigins(calls, n, limits) && id in LedgerAt(calls, n, limits)
    ensures HasOrigin(calls, n, id, LedgerAt(calls, n, limits)[id].issued, limits)
  {
    hide LedgerAt, HasOrigin;
  }

  /** A proper candidate once claimed, field by field. */
  lemma {:induction false} ClaimedReads(c: Session, at: Time, cfg: Config)
    requires ProperCandidate(c.intent.idempotencyKey, c, c.intent.createdAt, cfg)
    ensures ClaimedSession(c, at, cfg.limits) == Session(
              c.intent, "", Claimed, at + cfg.limits.sessionMaxDuration,
              at + cfg.limits.sessionMaxDuration + cfg.limits.idempotencyTTL, at, ZERO_TIME, "", c.intent.id + ":lease")
  {
  }

  /** A granted claim returns what one earlier create stored, claimed now, within its ticket's life. */
  lemma {:induction false} ClaimReturnsWhatWasIssued(calls: seq<Call>, j: nat, cfg: Config, id: string) returns (i: nat)
    requires ValidRun(calls, cfg) && j < |calls| && ClaimWon(calls, j, id, cfg.limits)
    ensures i < j && calls[i].op.Create? && calls[i].op.candidate.intent.id == id
    ensures ReplyAt(calls, i, cfg.limits) == Created(calls[i].op.candidate, false)
    ensures ReplyAt(calls, j, cfg.limits) == Leased(SessionLease(
              id + ":lease",
              ClaimedSession(calls[i].op.candidate, calls[j].at, cfg.limits),
              calls[j].at + cfg.limits.sessionMaxDuration))
    ensures ReplyAt(calls, j, cfg.limits).lease.session == Session(
              calls[i].op.candidate.intent, "", Claimed, calls[j].at + cfg.limits.sessionMaxDuration,
              calls[j].at + cfg.limits.sessionMaxDuration + cfg.limits.idempotencyTTL, calls[j].at, ZERO_TIME, "", id + ":lease")
    ensures calls[j].op.digest == calls[i].op.candidate.intent.ticketDigest
    ensures calls[i].at <= calls[j].at < calls[i].at + cfg.ticketTTL
  {
    hide LedgerAt, Expected, Inv, AllHaveOrigins, Admissible, ClaimedSession;
    RunIsAdmissible(calls, j, cfg);
    var h := LedgerAt(calls, j, cfg.limits);
    LeasedMeans(h, calls[j], cfg.limits);
    assert HasOrigin(calls, j, id, h[id].issued, cfg.limits) by {
      OriginOf(calls, j, id, cfg.limits);
    }
    i :| i < j && IssuedBy(calls, i, id, h[id].issued, cfg.limits);
    assert ProperCall(calls[i], cfg);
    ClaimedReads(calls[i].op.candidate, calls[j].at, cfg);
  }

  // ------------------------------------------------------------ conservation

  /** How many of the first n calls were claims that succeeded. */
  ghost function Wins(calls: seq<Call>, n: nat, limits: ClaimLimits): nat
    requires n <= |calls|
  {
    if n == 0 then 0
    else Wins(calls, n - 1, limits)
         + if calls[n - 1].op.Claim? && ReplyAt(calls, n - 1, limits).Leased? then 1 else 0
  }

  function ClaimedIDs(h: History): set<string> {
    set id | id in h && WasClaimed(h[id])
  }

  /** Leases given back before they ran out. */
  function ReturnedIDs(h: History, limits: ClaimLimits): set<string> {
    set id | id in h && h[id].phase.Released? && h[id].phase.at < LeaseEnd(h[id], limits)
  }

  /** Leases that ran out before anyone gave them back. */
  function LapsedIDs(h: History, now: Time, limits: ClaimLimits): set<string> {
    set id | id in h && WasClaimed(h[id]) && id !in ReturnedIDs(h, limits) && LeaseEnd(h[id], limits) <= now
  }

  lemma {:induction false} ObservedClaims(h: History, call: Call, reply: Reply, limits: ClaimLimits)
    requires call.op.Create? ==> call.op.candidate.intent.id !in h
    requires call.op.Claim? && reply.Leased? ==> call.op.id in h
    ensures ClaimedIDs(Observe(h, call, reply, limits))
         == ClaimedIDs(h) + (if call.op.Claim? && reply.Leased? then {call.op.id} else {})
  {
  }

  lemma {:induction false} WinnerWasUnclaimed(h: History, call: Call, limits: ClaimLimits)
    requires call.op.Claim? && Expected(h, call, limits).Leased?
    ensures call.op.id in h && call.op.id !in ClaimedIDs(h)
  {
  }

  lemma {:induction false} NothingClaimedAtFirst(calls: seq<Call>, limits: ClaimLimits)
    ensures ClaimedIDs(LedgerAt(calls, 0, limits)) == {}
  {
  }

  /** The IDs claimed by the first k calls grow by those that call k claims. */
  lemma {:induction false} StepClaims(calls: seq<Call>, k: nat, cfg: Config)
    requires ValidRun(calls, cfg) && k < |calls|
    ensures var before, after := ClaimedIDs(LedgerAt(calls, k, cfg.limits)), ClaimedIDs(LedgerAt(calls, k + 1, cfg.limits));
            if calls[k].op.Claim? && ReplyAt(calls, k, cfg.limits).Leased?
            then after == before + {calls[k].op.id} && calls[k].op.id !in before
            else after == before
  {
    var h, call, limits := LedgerAt(calls, k, cfg.limits), calls[k], cfg.limits;
    RunIsAdmissible(calls, k, cfg);
    LedgerGrows(calls, k, limits);
    assert ReplyAt(calls, k, limits) == Expected(h, call, limits);
    hide LedgerAt, ReplyAt, Inv, Observe, ClaimedIDs, ValidRun, AllHaveOrigins, ProperCall;
    if call.op.Claim? && Expected(h, call, limits).Leased? {
      WinnerWasUnclaimed(h, call, limits);
    }
    hide Expected;
    ObservedClaims(h, call, Expected(h, call, limits), limits);
  }

  lemma {:induction false} WinsAreClaimedIDs(calls: seq<Call>, n: nat, cfg: Config)
    requires ValidRun(calls, cfg) && n <= |calls|
    ensures Wins(calls, n, cfg.limits) == |ClaimedIDs(LedgerAt(calls, n, cfg.limits))|
  {
    hide LedgerAt, ReplyAt, Inv, Expected, Observe, ClaimedIDs, ValidRun;
    var limits := cfg.limits;
    if n == 0 {
      NothingClaimedAtFirst(calls, limits);
    } else {
      WinsAreClaimedIDs(calls, n - 1, cfg);
      StepClaims(calls, n - 1, cfg);
    }
  }

  /** A granted lease is out, given back, or run out, and never two of these. */
  lemma {:induction false} LeaseFates(h: History, now: Time, limits: ClaimLimits)
    requires forall id :: id in h && h[id].phase.Released? ==> h[id].phase.at <= now
    ensures |ClaimedIDs(h)| == |ActiveIDs(h, now, limits)| + |ReturnedIDs(h, limits)| + |LapsedIDs(h, now, limits)|
  {
    var a, b, c := ActiveIDs(h, now, limits), ReturnedIDs(h, limits), LapsedIDs(h, now, limits);
    assert ClaimedIDs(h) == a + b + c;
    assert a !! b && (a + b) !! c;
    assert |a + b + c| == |a + b| + |c| == |a| + |b| + |c|;
  }

  /** A close frees the lease it names, if that is still out, and no other. */
  lemma {:induction false} CloseFreesItsLease(calls: seq<Call>, j: nat, cfg: Config)
    requires ValidRun(calls, cfg) && j < |calls| && calls[j].op.Close?
    ensures ActiveIDs(LedgerAt(calls, j + 1, cfg.limits), calls[j].at, cfg.limits)
         == ActiveIDs(LedgerAt(calls, j, cfg.limits), calls[j].at, cfg.limits)
            - if calls[j].op.leaseID == LeaseIDFor(calls[j].op.id) then {calls[j].op.id} else {}
  {
    LedgerGrows(calls, j, cfg.limits);
    hide LedgerAt, ValidRun;
  }

  lemma {:induction false} WinnerIsHeld(calls: seq<Call>, m: nat, limits: ClaimLimits, id: string)
    requires m < |calls| && ClaimWon(calls, m, id, limits)
    ensures var h := LedgerAt(calls, m + 1, limits);
            id in h && h[id].phase == Held(calls[m].at)
  {
    LedgerGrows(calls, m, limits);
    LeasedMeans(LedgerAt(calls, m, limits), calls[m], limits);
    hide LedgerAt, Expected;
  }

  lemma {:induction false} ClockMoves(calls: seq<Call>, j: nat, n: nat, cfg: Config)
    requires ValidRun(calls, cfg) && j < n <= |calls|
    ensures calls[j].at <= ClockAt(calls, n)
  {
  }

  lemma {:induction false} NotActiveAgain(h1: History, h2: History, h3: History, id: string, at: Time, now: Time,
                                          limits: ClaimLimits)
    requires id in h1 && id in h2 && id in h3 && WasClaimed(h1[id]) && at <= now
    requires Follows(h2[id].phase, h1[id].phase) && Follows(h3[id].phase, h2[id].phase)
    requires id !in ActiveIDs(h2, at, limits)
    ensures id !in ActiveIDs(h3, now, limits)
  {
    assert !Active(h2[id], at, limits);
  }

  /** Once a claimed session has been closed with its own lease ID it never counts as active again. */
  lemma {:induction false} ReleasedForGood(calls: seq<Call>, m: nat, j: nat, n: nat, now: Time, cfg: Config, id: string)
    requires ValidRun(calls, cfg) && m < j < n <= |calls| && ClockAt(calls, n) <= now
    requires ClaimWon(calls, m, id, cfg.limits)
    requires calls[j].op.Close? && calls[j].op.id == id && calls[j].op.leaseID == LeaseIDFor(id)
    ensures id !in ActiveIDs(LedgerAt(calls, n, cfg.limits), now, cfg.limits)
  {
    hide LedgerAt, ValidRun, Follows, ActiveIDs, ClaimWon;
    WinnerIsHeld(calls, m, cfg.limits, id);
    assert calls[j].at <= now by {
      ClockMoves(calls, j, n, cfg);
    }
    RunMovesForward(calls, m + 1, j + 1, cfg, id);
    RunMovesForward(calls, j + 1, n, cfg, id);
    CloseFreesItsLease(calls, j, cfg);
    NotActiveAgain(LedgerAt(calls, m + 1, cfg.limits), LedgerAt(calls, j + 1, cfg.limits), LedgerAt(calls, n, cfg.limits),
                   id, calls[j].at, now, cfg.limits);
  }

  // Releases and expiries, told from the calls alone.

  /** Call j gives back a lease that is still out. */
  ghost predicate IsRelease(calls: seq<Call>, j: nat, id: string, limits: ClaimLimits)
    requires j < |calls|
  {
    && calls[j].op.Close? && calls[j].op.id == id && calls[j].op.leaseID == LeaseIDFor(id)
    && id in ActiveIDs(LedgerAt(calls, j, limits), calls[j].at, limits)
  }

  /** How many of the first n calls gave back a lease that was still out. */
  ghost function Releases(calls: seq<Call>, n: nat, limits: ClaimLimits): nat
    requires n <= |calls|
  {
    if n == 0 then 0
    else Releases(calls, n - 1, limits)
         + if calls[n - 1].op.Close? && IsRelease(calls, n - 1, calls[n - 1].op.id, limits) then 1 else 0
  }

  ghost predicate ReleasedBy(calls: seq<Call>, n: nat, id: string, limits: ClaimLimits)
    requires n <= |calls|
  {
    exists j: nat :: j < n && IsRelease(calls, j, id, limits)
  }

  /** Call m claimed a session whose lease has run out by now without any of the first n calls giving it back. */
  ghost predicate RanOut(calls: seq<Call>, m: nat, n: nat, now: Time, limits: ClaimLimits)
    requires m < n <= |calls|
  {
    && calls[m].op.Claim? && ReplyAt(calls, m, limits).Leased?
    && calls[m].at + limits.sessionMaxDuration <= now
    && !ReleasedBy(calls, n, calls[m].op.id, limits)
  }

  /** How many of the first k calls, of n in all, claimed a lease that has run out by now. */
  ghost function Expiries(calls: seq<Call>, k: nat, n: nat, now: Time, limits: ClaimLimits): nat
    requires k <= n <= |calls|
  {
    if k == 0 then 0
    else Expiries(calls, k - 1, n, now, limits) + if RanOut(calls, k - 1, n, now, limits) then 1 else 0
  }

  lemma {:induction false} ObservedReturns(h: History, call: Call, cfg: Config)
    requires Admissible(h, call, cfg) && cfg.Positive()
    ensures var own := call.op.Close? && call.op.leaseID == LeaseIDFor(call.op.id)
                       && call.op.id in ActiveIDs(h, call.at, cfg.limits);
            && ReturnedIDs(Observe(h, call, Expected(h, call, cfg.limits), cfg.limits), cfg.limits)
               == ReturnedIDs(h, cfg.limits) + (if own then {call.op.id} else {})
            && (own ==> call.op.id !in ReturnedIDs(h, cfg.limits))
  {
  }

  lemma {:induction false} StepReturns(calls: seq<Call>, n: nat, cfg: Config)
    requires ValidRun(calls, cfg) && n < |calls|
    ensures var before, after := ReturnedIDs(LedgerAt(calls, n, cfg.limits), cfg.limits),
                                 ReturnedIDs(LedgerAt(calls, n + 1, cfg.limits), cfg.limits);
            if calls[n].op.Close? && IsRelease(calls, n, calls[n].op.id, cfg.limits)
            then after == before + {calls[n].op.id} && calls[n].op.id !in before
            else after == before
  {
    assert cfg.Positive();
    hide LedgerAt, Inv, Observe, Expected, ReturnedIDs, ValidRun, AllHaveOrigins, ActiveIDs, Admissible;
    RunIsAdmissible(calls, n, cfg);
    LedgerGrows(calls, n, cfg.limits);
    ObservedReturns(LedgerAt(calls, n, cfg.limits), calls[n], cfg);
  }

  lemma {:induction false} NothingReturnedAtFirst(calls: seq<Call>, limits: ClaimLimits)
    ensures ReturnedIDs(LedgerAt(calls, 0, limits), limits) == {}
  {
  }

  /** The closes that gave a lease back in time number the leases so returned, each returned once. */
  lemma {:induction false} ReleasesAreReturnedIDs(calls: seq<Call>, n: nat, cfg: Config)
    requires ValidRun(calls, cfg) && n <= |calls|
    ensures Releases(calls, n, cfg.limits) == |ReturnedIDs(LedgerAt(calls, n, cfg.limits), cfg.limits)|
    ensures forall id :: id in ReturnedIDs(LedgerAt(calls, n, cfg.limits), cfg.limits)
              <==> ReleasedBy(calls, n, id, cfg.limits)
  {
    hide LedgerAt, ReturnedIDs, ValidRun, IsRelease;
    if n == 0 {
      NothingReturnedAtFirst(calls, cfg.limits);
    } else {
      ReleasesAreReturnedIDs(calls, n - 1, cfg);
      StepReturns(calls, n - 1, cfg);
      forall id
        ensures ReleasedBy(calls, n, id, cfg.limits)
           <==> ReleasedBy(calls, n - 1, id, cfg.limits) || IsRelease(calls, n - 1, id, cfg.limits)
      {
        ReleasedByStep(calls, n - 1, id, cfg.limits);
      }
      ReleaseNamesOne(calls, n - 1, cfg.limits);
      hide ReleasedBy;
    }
  }

  lemma {:induction false} ReleasedByStep(calls: seq<Call>, n: nat, id: string, limits: ClaimLimits)
    requires n < |calls|
    ensures ReleasedBy(calls, n + 1, id, limits) <==> ReleasedBy(calls, n, id, limits) || IsRelease(calls, n, id, limits)
  {
    hide IsRelease;
    if ReleasedBy(calls, n, id, limits) {
      var j: nat :| j < n && IsRelease(calls, j, id, limits);
      assert j < n + 1;
    }
  }

  lemma {:induction false} ReleaseNamesOne(calls: seq<Call>, n: nat, limits: ClaimLimits)
    requires n < |calls|
    ensures forall id :: IsRelease(calls, n, id, limits) ==> calls[n].op.Close? && id == calls[n].op.id
  {
    hide LedgerAt;
  }

  /** A claim that succeeded starts a lease whose end every later ledger knows. */
  lemma {:induction false} WinnerSetsLeaseEnd(calls: seq<Call>, m: nat, n: nat, cfg: Config, id: string)
    requires ValidRun(calls, cfg) && m < n <= |calls| && ClaimWon(calls, m, id, cfg.limits)
    ensures var h := LedgerAt(calls, n, cfg.limits);
            id in h && WasClaimed(h[id]) && LeaseEnd(h[id], cfg.limits) == calls[m].at + cfg.limits.sessionMaxDuration
  {
    WinnerIsHeld(calls, m, cfg.limits, id);
    RunMovesForward(calls, m + 1, n, cfg, id);
    hide LedgerAt;
  }

  lemma {:induction false} WinRanOut(calls: seq<Call>, m: nat, n: nat, now: Time, cfg: Config, id: string)
    requires ValidRun(calls, cfg) && m < n <= |calls| && ClaimWon(calls, m, id, cfg.limits)
    ensures RanOut(calls, m, n, now, cfg.limits) <==> id in LapsedIDs(LedgerAt(calls, n, cfg.limits), now, cfg.limits)
  {
    WinnerSetsLeaseEnd(calls, m, n, cfg, id);
    ReleasesAreReturnedIDs(calls, n, cfg);
    hide LedgerAt, ReturnedIDs, ReleasedBy, ValidRun, LeaseEnd;
  }

  lemma {:induction false} Intersect<T>(a: set<T>, b: set<T>, x: T)
    requires x !in b
    ensures |a * (b + {x})| == |a * b| + if x in a then 1 else 0
  {
    assert a * (b + {x}) == if x in a then a * b + {x} else a * b;
  }

  lemma {:induction false} StepExpires(calls: seq<Call>, k: nat, n: nat, now: Time, cfg: Config)
    requires ValidRun(calls, cfg) && k < n <= |calls|
    ensures var lapsed := LapsedIDs(LedgerAt(calls, n, cfg.limits), now, cfg.limits);
            |lapsed * ClaimedIDs(LedgerAt(calls, k + 1, cfg.limits))|
            == |lapsed * ClaimedIDs(LedgerAt(calls, k, cfg.limits))| + if RanOut(calls, k, n, now, cfg.limits) then 1 else 0
  {
    hide LedgerAt, ReplyAt, LapsedIDs, ClaimedIDs, ReleasedBy, ValidRun;
    StepClaims(calls, k, cfg);
    if calls[k].op.Claim? && ReplyAt(calls, k, cfg.limits).Leased? {
      WinRanOut(calls, k, n, now, cfg, calls[k].op.id);
      Intersect(LapsedIDs(LedgerAt(calls, n, cfg.limits), now, cfg.limits), ClaimedIDs(LedgerAt(calls, k, cfg.limits)),
                calls[k].op.id);
    }
  }

  /** The claims whose lease ran out number the lapsed leases among the sessions they claimed. */
  lemma {:induction false} ExpiriesAreLapsedIDs(calls: seq<Call>, k: nat, n: nat, now: Time, cfg: Config)
    requires ValidRun(calls, cfg) && k <= n <= |calls|
    ensures Expiries(calls, k, n, now, cfg.limits)
         == |LapsedIDs(LedgerAt(calls, n, cfg.limits), now, cfg.limits) * ClaimedIDs(LedgerAt(calls, k, cfg.limits))|
    decreases k
  {
    var limits := cfg.limits;
    hide LedgerAt, LapsedIDs, ClaimedIDs, RanOut, ValidRun;
    if k == 0 {
      NothingClaimedAtFirst(calls, limits);
      assert LapsedIDs(LedgerAt(calls, n, limits), now, limits) * {} == {};
    } else {
      ExpiriesAreLapsedIDs(calls, k - 1, n, now, cfg);
      StepExpires(calls, k - 1, n, now, cfg);
    }
  }

  lemma {:induction false} LapsedWereClaimed(h: History, now: Time, limits: ClaimLimits)
    ensures LapsedIDs(h, now, limits) * ClaimedIDs(h) == LapsedIDs(h, now, limits)
  {
  }

  /** Leases are conserved: at any instant the leases that are out number the claims that
      succeeded, less the closes that gave a lease back in time, less the claims whose lease
      ran out. */
  lemma {:induction false} LeasesAreConserved(calls: seq<Call>, n: nat, now: Time, cfg: Config)
    requires ValidRun(calls, cfg) && n <= |calls| && ClockAt(calls, n) <= now
    ensures |ActiveIDs(LedgerAt(calls, n, cfg.limits), now, cfg.limits)|
         == Wins(calls, n, cfg.limits) - Releases(calls, n, cfg.limits) - Expiries(calls, n, n, now, cfg.limits)
  {
    var h := LedgerAt(calls, n, cfg.limits);
    hide LedgerAt, Wins, Releases, Expiries, ValidRun, ActiveIDs, ReturnedIDs, LapsedIDs, ClaimedIDs, AllHaveOrigins, ReleasedBy;
    WinsAreClaimedIDs(calls, n, cfg);
    ReleasesAreReturnedIDs(calls, n, cfg);
    ExpiriesAreLapsedIDs(calls, n, n, now, cfg);
    LapsedWereClaimed(h, now, cfg.limits);
    RunKeepsInv(calls, n, now, cfg);
    LeaseFates(h, now, cfg.limits);
  }

  // ------------------------------------------------------------ idempotency

  ghost predicate WonBetween(calls: seq<Call>, i: nat, j: nat, id: string, limits: ClaimLimits)
    requires j <= |calls|
  {
    exists m: nat :: i < m < j && ClaimWon(calls, m, id, limits)
  }

  lemma {:induction false} StepOnRecord(h: History, call: Call, cfg: Config, id: string)
    requires Admissible(h, call, cfg) && Inv(h, call.at, cfg) && id in h
    ensures var reply := Expected(h, call, cfg.limits);
            var h' := Observe(h, call, reply, cfg.limits);
            && id in h'
            && h'[id].issued == h[id].issued
            && (WasClaimed(h'[id]) <==> WasClaimed(h[id]) || (call.op.Claim? && call.op.id == id && reply.Leased?))
            && (h'[id].phase.Spent? ==> h[id].phase.Spent? || h[id].issued.intent.ticketExpiresAt <= call.at)
  {
    if call.op.Create? && Holds(h[id], call.op.key, call.at, cfg.limits) {
      CreateAnsweredByHolder(h, call, id, cfg.limits);
    }
  }

  lemma {:induction false} WonBetweenStep(calls: seq<Call>, i: nat, n: nat, id: string, limits: ClaimLimits)
    requires i < n < |calls|
    ensures WonBetween(calls, i, n + 1, id, limits) <==> WonBetween(calls, i, n, id, limits) || ClaimWon(calls, n, id, limits)
  {
    if WonBetween(calls, i, n, id, limits) {
      var m: nat :| i < m < n && ClaimWon(calls, m, id, limits);
      assert i < m < n + 1;
    }
  }

  lemma {:induction false} StandingAtFirst(calls: seq<Call>, i: nat, limits: ClaimLimits)
    requires i < |calls| && calls[i].op.Create? && ReplyAt(calls, i, limits) == Created(calls[i].op.candidate, false)
    ensures var id, h := calls[i].op.candidate.intent.id, LedgerAt(calls, i + 1, limits);
            id in h && h[id] == Record(calls[i].op.candidate, Waiting) && !WonBetween(calls, i, i + 1, id, limits)
  {
    LedgerGrows(calls, i, limits);
    hide LedgerAt, Expected, ClaimWon;
  }

  lemma {:induction false} StandingStep(calls: seq<Call>, i: nat, n: nat, id: string, limits: ClaimLimits)
    requires i < n < |calls|
    ensures WonBetween(calls, i, n + 1, id, limits)
       <==> WonBetween(calls, i, n, id, limits)
            || (calls[n].op.Claim? && calls[n].op.id == id && Expected(LedgerAt(calls, n, limits), calls[n], limits).Leased?)
  {
    WonBetweenStep(calls, i, n, id, limits);
    hide LedgerAt, Expected, WonBetween;
  }

  /** Where the session created by call i stands after n calls. */
  ghost predicate Stands(calls: seq<Call>, i: nat, n: nat, limits: ClaimLimits)
    requires i < n <= |calls| && calls[i].op.Create?
  {
    var id, h := calls[i].op.candidate.intent.id, LedgerAt(calls, n, limits);
    && id in h
    && h[id].issued == calls[i].op.candidate
    && (WonBetween(calls, i, n, id, limits) <==> WasClaimed(h[id]))
    && (h[id].phase.Spent? ==> calls[i].op.candidate.intent.ticketExpiresAt <= ClockAt(calls, n))
  }

  lemma {:induction false} StandsOn(calls: seq<Call>, i: nat, n: nat, cfg: Config)
    requires ValidRun(calls, cfg) && i < n < |calls| && calls[i].op.Create? && Stands(calls, i, n, cfg.limits)
    ensures Stands(calls, i, n + 1, cfg.limits)
  {
    var id, h := calls[i].op.candidate.intent.id, LedgerAt(calls, n, cfg.limits);
    hide Inv, Admissible, Expected, Observe, LedgerAt, WonBetween, ClaimWon, AllHaveOrigins;
    assert ClockAt(calls, n) <= calls[n].at;
    RunIsAdmissible(calls, n, cfg);
    hide ValidRun;
    LedgerGrows(calls, n, cfg.limits);
    StepOnRecord(h, calls[n], cfg, id);
    StandingStep(calls, i, n, id, cfg.limits);
    hide WasClaimed;
  }

  lemma {:induction false} StandingOf(calls: seq<Call>, i: nat, n: nat, cfg: Config)
    requires ValidRun(calls, cfg) && i < n <= |calls|
    requires calls[i].op.Create? && ReplyAt(calls, i, cfg.limits) == Created(calls[i].op.candidate, false)
    ensures Stands(calls, i, n, cfg.limits)
    decreases n
  {
    if i + 1 == n {
      StandingAtFirst(calls, i, cfg.limits);
      hide LedgerAt, ReplyAt, WonBetween, ValidRun;
    } else {
      hide Stands, LedgerAt, ReplyAt, ValidRun;
      StandingOf(calls, i, n - 1, cfg);
      StandsOn(calls, i, n - 1, cfg);
    }
  }

  /** The instant at which the key of the session created by call i is forgotten, as known before
      call j: a claim in between moves it. */
  ghost function KeyEnd(calls: seq<Call>, i: nat, j: nat, limits: ClaimLimits): Time
    requires i < j <= |calls| && calls[i].op.Create?
  {
    var first := calls[i].op.candidate;
    if WonBetween(calls, i, j, first.intent.id, limits) then
      var m: nat :| i < m < j && ClaimWon(calls, m, first.intent.id, limits);
      calls[m].at + limits.sessionMaxDuration + limits.idempotencyTTL
    else
      first.tombstoneExpiresAt
  }

  lemma {:induction false} WinnerSetsTombstone(calls: seq<Call>, m: nat, j: nat, cfg: Config, id: string)
    requires ValidRun(calls, cfg) && m < j <= |calls| && ClaimWon(calls, m, id, cfg.limits)
    ensures var h := LedgerAt(calls, j, cfg.limits);
            && id in h
            && Tombstone(h[id], cfg.limits) == calls[m].at + cfg.limits.sessionMaxDuration + cfg.limits.idempotencyTTL
  {
    WinnerIsHeld(calls, m, cfg.limits, id);
    RunMovesForward(calls, m + 1, j, cfg, id);
    hide LedgerAt;
  }

  lemma {:induction false} KeyEndIsTombstone(calls: seq<Call>, i: nat, j: nat, cfg: Config)
    requires ValidRun(calls, cfg) && i < j <= |calls|
    requires calls[i].op.Create? && ReplyAt(calls, i, cfg.limits) == Created(calls[i].op.candidate, false)
    ensures var id := calls[i].op.candidate.intent.id;
            var h := LedgerAt(calls, j, cfg.limits);
            id in h && Tombstone(h[id], cfg.limits) == KeyEnd(calls, i, j, cfg.limits)
  {
    var id := calls[i].op.candidate.intent.id;
    StandingOf(calls, i, j, cfg);
    hide LedgerAt, ClaimWon, ValidRun;
    if WonBetween(calls, i, j, id, cfg.limits) {
      var m: nat :| i < m < j && ClaimWon(calls, m, id, cfg.limits)
        && KeyEnd(calls, i, j, cfg.limits) == calls[m].at + cfg.limits.sessionMaxDuration + cfg.limits.idempotencyTTL;
      WinnerSetsTombstone(calls, m, j, cfg, id);
    }
  }

  /** From its creation until it is forgotten a key answers for the first session alone: a
      different request conflicts, an unclaimed unexpired ticket is replayed as stored, and
      anything else is refused. */
  lemma {:induction false} KeyIsIdempotent(calls: seq<Call>, i: nat, j: nat, cfg: Config)
    requires ValidRun(calls, cfg) && i < j < |calls|
    requires calls[i].op.Create? && ReplyAt(calls, i, cfg.limits) == Created(calls[i].op.candidate, false)
    requires calls[j].op.Create? && calls[j].op.key == calls[i].op.key
    requires calls[j].at < KeyEnd(calls, i, j, cfg.limits)
    ensures var first, again := calls[i].op.candidate, calls[j].op.candidate;
            ReplyAt(calls, j, cfg.limits) ==
            if first.intent.fingerprint != again.intent.fingerprint then
              Refused(Conflict)
            else if calls[j].at < first.intent.ticketExpiresAt
                    && !WonBetween(calls, i, j, first.intent.id, cfg.limits) then
              Created(first, true)
            else
              Refused(FailedPrecondition)
  {
    var id := calls[i].op.candidate.intent.id;
    StandingOf(calls, i, j, cfg);
    KeyEndIsTombstone(calls, i, j, cfg);
    RunIsAdmissible(calls, j, cfg);
    assert ProperCall(calls[i], cfg);
    hide KeyEnd, LedgerAt;
    CreateAnsweredByHolder(LedgerAt(calls, j, cfg.limits), calls[j], id, cfg.limits);
  }

  /** Where tickets do not outlive sessions, the key is kept at least to its first tombstone. */
  lemma {:induction false} KeyIsKeptToItsTombstone(calls: seq<Call>, i: nat, j: nat, cfg: Config)
    requires ValidRun(calls, cfg) && i < j <= |calls| && calls[i].op.Create?
    requires cfg.ticketTTL <= cfg.limits.sessionMaxDuration
    ensures calls[i].op.candidate.tombstoneExpiresAt <= KeyEnd(calls, i, j, cfg.limits)
  {
    assert ProperCall(calls[i], cfg);
    hide ClaimWon;
  }

  /** Claims never bring a tombstone forward exactly when tickets do not outlive sessions. */
  lemma {:induction false} TombstoneNeverEarlier(key: string, s: Session, at: Time, cfg: Config)
    requires cfg.Positive() && ProperCandidate(key, s, at, cfg)
    ensures (forall now :: at <= now < s.intent.ticketExpiresAt
               ==> s.tombstoneExpiresAt <= ClaimedSession(s, now, cfg.limits).tombstoneExpiresAt)
            <==> cfg.ticketTTL <= cfg.limits.sessionMaxDuration
  {
    if cfg.limits.sessionMaxDuration < cfg.ticketTTL {
      assert ClaimedSession(s, at, cfg.limits).tombstoneExpiresAt < s.tombstoneExpiresAt;
    }
  }
}
