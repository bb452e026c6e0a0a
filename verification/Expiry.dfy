/** Lazy expiry equals eager expiry, and what every reachable memory store looks like. */
module Expiry {
  import opened Sessions
  import opened Ledger
  import opened LedgerRuns
  import opened MemoryStore
  import opened MemoryRuns

  // ------------------------------------------------- sweeping twice is sweeping once

  /** Sessions determine the index. */
  lemma {:induction false} IndexIsUnique(a: StoreState, b: StoreState)
    requires Indexed(a) && Indexed(b) && a.sessions == b.sessions
    ensures a.byKey == b.byKey
  {
    forall key | key in a.byKey ensures key in b.byKey && b.byKey[key] == a.byKey[key] {
      assert a.byKey[key] in b.sessions;
    }
    forall key | key in b.byKey ensures key in a.byKey {
      assert b.byKey[key] in a.sessions;
    }
  }

  lemma {:induction false} EndedTwice(st: StoreState, t1: Time, t2: Time, id: string)
    requires Rep(st) && t1 <= t2 && id in Sweep(st, t1).sessions
    ensures id in st.sessions && Ended(Sweep(st, t1), id, t2) == Ended(st, id, t2)
  {
    assert SessionOk(st, id);
  }

  lemma {:induction false} TombstoneOutlivesSweep(st: StoreState, id: string, now: Time)
    requires id in st.sessions
    ensures Ended(st, id, now).tombstoneExpiresAt == st.sessions[id].tombstoneExpiresAt
  {
  }

  lemma {:induction false} SweptSessions(st: StoreState, now: Time)
    ensures Sweep(st, now).sessions
         == map id | id in st.sessions && now < st.sessions[id].tombstoneExpiresAt :: Ended(st, id, now)
  {
    forall id | id in st.sessions
      ensures Forgotten(EndLeases(st, now), id, now) <==> st.sessions[id].tombstoneExpiresAt <= now
    {
      TombstoneOutlivesSweep(st, id, now);
    }
    hide Forgotten, Ended;
  }

  lemma {:induction false} SweptLeases(st: StoreState, now: Time)
    requires Rep(st)
    ensures Sweep(st, now).leases == map id | id in st.leases && now < st.leases[id].expiresAt :: st.leases[id]
  {
    forall id | id in st.leases && now < st.leases[id].expiresAt
      ensures !Forgotten(EndLeases(st, now), id, now)
    {
      assert SessionOk(st, id);
      TombstoneOutlivesSweep(st, id, now);
    }
    hide Forgotten, Ended, SessionOk;
  }

  lemma {:induction false} KeptTwice(st: StoreState, t1: Time, t2: Time, id: string)
    requires Rep(st) && t1 <= t2 && id in Sweep(st, t1).sessions
    ensures id in st.sessions && Ended(Sweep(st, t1), id, t2) == Ended(st, id, t2)
    ensures Sweep(st, t1).sessions[id].tombstoneExpiresAt == st.sessions[id].tombstoneExpiresAt
  {
    EndedTwice(st, t1, t2, id);
    TombstoneOutlivesSweep(st, id, t1);
    SweptSessions(st, t1);
    hide Sweep, Rep, Ended;
  }

  lemma {:induction false} SweepTwiceSessions(st: StoreState, t1: Time, t2: Time)
    requires Rep(st) && t1 <= t2
    ensures Sweep(Sweep(st, t1), t2).sessions == Sweep(st, t2).sessions
  {
    hide Sweep, Ended, Rep;
    var once := Sweep(st, t1);
    SweptSessions(st, t1);
    SweptSessions(st, t2);
    SweptSessions(once, t2);
    forall id | id in once.sessions
      ensures id in st.sessions && Ended(once, id, t2) == Ended(st, id, t2)
      ensures once.sessions[id].tombstoneExpiresAt == st.sessions[id].tombstoneExpiresAt
    {
      KeptTwice(st, t1, t2, id);
    }
  }

  /** Sweeping at one instant and again later equals sweeping at the later instant alone. */
  lemma {:induction false} SweepTwice(st: StoreState, t1: Time, t2: Time)
    requires Rep(st) && t1 <= t2
    ensures Sweep(Sweep(st, t1), t2) == Sweep(st, t2)
  {
    SweepTwiceSessions(st, t1, t2);
    SweepKeepsRep(st, t1);
    SweepKeepsRep(st, t2);
    SweepKeepsRep(Sweep(st, t1), t2);
    IndexIsUnique(Sweep(Sweep(st, t1), t2), Sweep(st, t2));
    SweptLeases(st, t1);
    SweptLeases(st, t2);
    SweptLeases(Sweep(st, t1), t2);
    hide Sweep, SessionOk;
    assert Sweep(Sweep(st, t1), t2).leases == Sweep(st, t2).leases;
  }

  // ------------------------------------------------------------ the eager store

  /** An eager store sweeps at every single instant. */
  function Advance(st: StoreState, start: Time, end: Time): StoreState
    decreases end - start
  {
    if end <= start then st else Sweep(Advance(st, start, end - 1), end)
  }

  function EagerAt(calls: seq<Call>, n: nat, limits: ClaimLimits): StoreState
    requires n <= |calls|
  {
    if n == 0 then EMPTY
    else Act(Advance(EagerAt(calls, n - 1, limits), ClockAt(calls, n - 1), calls[n - 1].at), calls[n - 1], limits).0
  }

  /** The eager store acts with no sweep of its own: by then everything due is gone. */
  function EagerAnswerAt(calls: seq<Call>, n: nat, limits: ClaimLimits): Reply
    requires n < |calls|
  {
    Act(Advance(EagerAt(calls, n, limits), ClockAt(calls, n), calls[n].at), calls[n], limits).1
  }

  lemma {:induction false} AdvanceMatches(st: StoreState, h: History, start: Time, end: Time, cfg: Config)
    requires Matches(st, h, start, cfg.limits) && RecordsOk(h, start, cfg) && cfg.Positive() && start <= end
    ensures Matches(Advance(st, start, end), h, end, cfg.limits)
    decreases end - start
  {
    hide Matches, Sweep, RecordsOk;
    if start < end {
      AdvanceMatches(st, h, start, end - 1, cfg);
      RecordsStayOk(h, start, end - 1, cfg);
      SweepMatches(Advance(st, start, end - 1), h, end - 1, end, cfg);
    }
  }

  lemma {:induction false} RecordsStayOk(h: History, t1: Time, t2: Time, cfg: Config)
    requires RecordsOk(h, t1, cfg) && t1 <= t2
    ensures RecordsOk(h, t2, cfg)
  {
  }

  /** A ledger and an instant determine the store completely. */
  lemma {:induction false} MatchIsUnique(a: StoreState, b: StoreState, h: History, now: Time, limits: ClaimLimits)
    requires Matches(a, h, now, limits) && Matches(b, h, now, limits)
    ensures a == b
  {
    hide SessionOf, LeaseEnd, Indexed;
    assert a.sessions == b.sessions;
    assert a.leases == b.leases;
    IndexIsUnique(a, b);
  }

  lemma {:induction false} EagerMatches(calls: seq<Call>, n: nat, cfg: Config)
    requires ValidRun(calls, cfg) && n <= |calls|
    ensures Matches(EagerAt(calls, n, cfg.limits), LedgerAt(calls, n, cfg.limits), ClockAt(calls, n), cfg.limits)
  {
    hide Matches, LedgerAt, EagerAt;
    if n == 0 {
      EagerStartMatches(calls, cfg.limits);
    } else {
      EagerMatches(calls, n - 1, cfg);
      EagerStep(calls, n - 1, cfg);
    }
  }

  lemma {:induction false} EagerStartMatches(calls: seq<Call>, limits: ClaimLimits)
    ensures Matches(EagerAt(calls, 0, limits), LedgerAt(calls, 0, limits), ZERO_TIME, limits)
  {
    assert LedgerAt(calls, 0, limits) == map[];
  }

  lemma {:induction false} EagerStep(calls: seq<Call>, n: nat, cfg: Config)
    requires ValidRun(calls, cfg) && n < |calls|
    requires Matches(EagerAt(calls, n, cfg.limits), LedgerAt(calls, n, cfg.limits), ClockAt(calls, n), cfg.limits)
    ensures EagerAnswerAt(calls, n, cfg.limits) == ReplyAt(calls, n, cfg.limits)
    ensures Matches(EagerAt(calls, n + 1, cfg.limits), LedgerAt(calls, n + 1, cfg.limits), calls[n].at, cfg.limits)
  {
    var limits := cfg.limits;
    var h, eager := LedgerAt(calls, n, limits), EagerAt(calls, n, limits);
    assert ProperCall(calls[n], cfg);
    RunKeepsInv(calls, n, ClockAt(calls, n), cfg);
    hide Matches, RecordsOk, OneHolderPerKey, WithinCapacity, Admissible, Expected, Observe, LedgerAt, Act, Advance,
         AllHaveOrigins;
    RunIsAdmissible(calls, n, cfg);
    LedgerGrows(calls, n, limits);
    AdvanceMatches(eager, h, ClockAt(calls, n), calls[n].at, cfg);
    ActMatches(Advance(eager, ClockAt(calls, n), calls[n].at), h, calls[n], cfg);
  }

  /** The lazy store and the eager store are the same store after every call and give
      the same answers: create, claim and close answer as if each lease and tombstone
      had run out at its exact instant. */
  lemma {:induction false} LazyEqualsEager(calls: seq<Call>, n: nat, cfg: Config)
    requires ValidRun(calls, cfg) && n < |calls|
    ensures AnswerAt(calls, n, cfg.limits) == EagerAnswerAt(calls, n, cfg.limits)
    ensures StateAt(calls, n + 1, cfg.limits) == EagerAt(calls, n + 1, cfg.limits)
  {
    hide Matches, LedgerAt, EagerAt, StateAt, EagerAnswerAt, AnswerAt;
    EagerMatches(calls, n, cfg);
    EagerMatches(calls, n + 1, cfg);
    EagerStep(calls, n, cfg);
    MemoryAnswersFromLedger(calls, n, cfg);
    RunMatches(calls, n + 1, ClockAt(calls, n + 1), cfg);
    MatchIsUnique(StateAt(calls, n + 1, cfg.limits), EagerAt(calls, n + 1, cfg.limits),
                  LedgerAt(calls, n + 1, cfg.limits), ClockAt(calls, n + 1), cfg.limits);
  }

  // ----------------------------------------------- every reachable memory store

  /** Instants come in order along a session's life. */
  predicate InOrder(s: Session, now: Time) {
    && s.intent.createdAt <= now
    && s.intent.createdAt < s.intent.ticketExpiresAt
    && s.intent.createdAt < s.tombstoneExpiresAt
    && now < s.tombstoneExpiresAt
    && match s.state
       case Issued =>
         s.ciphertext != "" && s.claimedAt == s.closedAt == s.expiresAt == ZERO_TIME && s.leaseID == ""
       case Claimed =>
         && s.intent.createdAt <= s.claimedAt <= now < s.expiresAt < s.tombstoneExpiresAt
         && s.ciphertext == "" && s.leaseID == LeaseIDFor(s.intent.id)
       case Closed =>
         && s.ciphertext == ""
         && if s.leaseID == ""
            then s.closeReason == "ticket_expired" && s.intent.ticketExpiresAt <= s.closedAt <= now
            else && s.intent.createdAt <= s.claimedAt <= s.closedAt <= s.expiresAt < s.tombstoneExpiresAt
                 && s.closedAt <= now
  }

  lemma {:induction false} SessionInOrder(r: Record, now: Time, cfg: Config)
    requires cfg.Positive() && RecordOk(r.issued.intent.id, r, now, cfg) && Live(r, now, cfg.limits)
    ensures InOrder(SessionOf(r, now, cfg.limits), now)
  {
  }

  /** In every reachable store keys and sessions are in bijection, a session is claimed
      exactly when it has a lease, keeps its ciphertext exactly while it is issued, and
      its instants are in order. */
  lemma {:induction false} ReachableStoreOk(calls: seq<Call>, n: nat, cfg: Config)
    requires ValidRun(calls, cfg) && n <= |calls|
    ensures var st := StateAt(calls, n, cfg.limits);
            Rep(st) && forall id :: id in st.sessions ==> InOrder(st.sessions[id], ClockAt(calls, n))
  {
    var st, h, now := StateAt(calls, n, cfg.limits), LedgerAt(calls, n, cfg.limits), ClockAt(calls, n);
    hide LedgerAt, StateAt, AllHaveOrigins, Matches;
    RunMatches(calls, n, now, cfg);
    RunKeepsInv(calls, n, now, cfg);
    MatchingStoreOk(st, h, now, cfg);
  }

  lemma {:induction false} MatchingStoreOk(st: StoreState, h: History, now: Time, cfg: Config)
    requires Matches(st, h, now, cfg.limits) && RecordsOk(h, now, cfg) && cfg.Positive()
    ensures Rep(st) && forall id :: id in st.sessions ==> InOrder(st.sessions[id], now)
  {
    forall id | id in st.sessions ensures SessionOk(st, id) && InOrder(st.sessions[id], now) {
      MatchingSessionOk(st, h, now, cfg, id);
    }
    assert Indexed(st);
    hide MatchSessions, MatchLeases, Indexed, SessionOk, InOrder;
  }

  lemma {:induction false} MatchingSessionOk(st: StoreState, h: History, now: Time, cfg: Config, id: string)
    requires Matches(st, h, now, cfg.limits) && RecordsOk(h, now, cfg) && cfg.Positive() && id in st.sessions
    ensures SessionOk(st, id) && InOrder(st.sessions[id], now)
  {
    var r := h[id];
    assert RecordOk(id, r, now, cfg);
    SessionInOrder(r, now, cfg);
    SessionOfKeeps(r, now, cfg.limits);
    MatchedSession(st, h, id, now, cfg.limits);
    if id in st.leases {
      assert st.leases[id] == SessionLease(LeaseIDFor(id), st.sessions[id], LeaseEnd(r, cfg.limits));
      assert st.sessions[id].expiresAt == LeaseEnd(r, cfg.limits);
    }
    hide Matches, SessionOf, RecordsOk, RecordOk, LeaseEnd;
  }

  /** In every reachable store the leases keep both limits, and swept at any later instant they
      number the claims that succeeded, less the closes that gave a lease back in time, less
      the claims whose lease ran out. */
  lemma {:induction false} ReachableLeases(calls: seq<Call>, n: nat, now: Time, cfg: Config)
    requires ValidRun(calls, cfg) && n <= |calls| && ClockAt(calls, n) <= now
    ensures |StateAt(calls, n, cfg.limits).leases| <= cfg.limits.maxActive
    ensures forall subject :: |LeasesFor(StateAt(calls, n, cfg.limits).leases, subject)| <= cfg.limits.maxActivePerSubject
    ensures |Sweep(StateAt(calls, n, cfg.limits), now).leases|
         == Wins(calls, n, cfg.limits) - Releases(calls, n, cfg.limits) - Expiries(calls, n, n, now, cfg.limits)
  {
    var limits := cfg.limits;
    hide Matches, LedgerAt, StateAt, Sweep, Wins, Releases, Expiries, ActiveIDs, ActiveFor, LeasesFor, AllHaveOrigins;
    RunMatches(calls, n, now, cfg);
    RunKeepsInv(calls, n, ClockAt(calls, n), cfg);
    ActiveLeases(StateAt(calls, n, limits), LedgerAt(calls, n, limits), ClockAt(calls, n), limits);
    ActiveLeases(Sweep(StateAt(calls, n, limits), now), LedgerAt(calls, n, limits), now, limits);
    LeasesAreConserved(calls, n, now, cfg);
  }
}
