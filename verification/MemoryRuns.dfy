/** Every run of the memory store answers what the ledger expects. */
module MemoryRuns {
  import opened Sessions
  import opened Ledger
  import opened LedgerRuns
  import opened MemoryStore

  /** A session as it must stand at an instant, given what the ledger knows of it. */
  function SessionOf(r: Record, now: Time, limits: ClaimLimits): Session {
    match r.phase
    case Waiting => r.issued
    case Spent(at) => TicketExpired(r.issued, at)
    case Held(since) =>
      var claimed := ClaimedSession(r.issued, since, limits);
      if LeaseEnd(r, limits) <= now then LapsedSession(claimed, LeaseEnd(r, limits)) else claimed
    case Released(since, at, reason) =>
      var claimed := ClaimedSession(r.issued, since, limits);
      if LeaseEnd(r, limits) <= at then LapsedSession(claimed, LeaseEnd(r, limits))
      else ReleasedSession(claimed, at, reason)
  }

  ghost predicate MatchSessions(st: StoreState, h: History, now: Time, limits: ClaimLimits) {
    && (forall id :: id in st.sessions <==> id in h && Live(h[id], now, limits))
    && (forall id :: id in st.sessions ==> st.sessions[id] == SessionOf(h[id], now, limits))
  }

  ghost predicate MatchLeases(st: StoreState, h: History, now: Time, limits: ClaimLimits) {
    && (forall id :: id in st.leases <==> id in h && Active(h[id], now, limits))
    && (forall id :: id in st.leases
          ==> st.leases[id] == SessionLease(LeaseIDFor(id), SessionOf(h[id], now, limits), LeaseEnd(h[id], limits)))
  }

  /** The store is exactly what the ledger says it must be at this instant. */
  ghost predicate Matches(st: StoreState, h: History, now: Time, limits: ClaimLimits) {
    MatchSessions(st, h, now, limits) && MatchLeases(st, h, now, limits) && Indexed(st)
  }

  lemma {:induction false} SessionOfKeeps(r: Record, now: Time, limits: ClaimLimits)
    ensures SessionOf(r, now, limits).intent == r.issued.intent
    ensures SessionOf(r, now, limits).tombstoneExpiresAt == Tombstone(r, limits)
    ensures r.issued.state.Issued? ==>
              && (SessionOf(r, now, limits).state.Issued? <==> r.phase.Waiting?)
              && (SessionOf(r, now, limits).state.Claimed? <==> Active(r, now, limits))
  {
  }

  /** An ended lease closes its session just as the ledger has it. */
  lemma {:induction false} EndedMatches(st: StoreState, h: History, t1: Time, t2: Time, cfg: Config, id: string)
    requires Matches(st, h, t1, cfg.limits) && id in h && RecordOk(id, h[id], t1, cfg) && t1 <= t2
    requires id in st.sessions
    ensures Ended(st, id, t2) == SessionOf(h[id], t2, cfg.limits)
  {
    MatchedSession(st, h, id, t1, cfg.limits);
    assert id in st.leases ==> st.leases[id].expiresAt == LeaseEnd(h[id], cfg.limits);
    hide Matches;
  }

  lemma {:induction false} EndLeasesKeepsIndex(st: StoreState, now: Time)
    requires Indexed(st)
    ensures Indexed(EndLeases(st, now))
  {
    assert forall id :: id in st.sessions ==> Ended(st, id, now).intent == st.sessions[id].intent;
    hide Ended;
  }

  lemma {:induction false} EndLeasesMatchesLeases(st: StoreState, h: History, t1: Time, t2: Time, limits: ClaimLimits)
    requires MatchLeases(st, h, t1, limits) && t1 <= t2
    ensures MatchLeases(EndLeases(st, t2), h, t2, limits)
  {
    forall id | id in st.leases
      ensures Active(h[id], t2, limits) <==> t2 < st.leases[id].expiresAt
      ensures Active(h[id], t2, limits) ==> SessionOf(h[id], t2, limits) == SessionOf(h[id], t1, limits)
    {
    }
    assert forall id :: id in h && Active(h[id], t2, limits) ==> Active(h[id], t1, limits);
    hide Ended, SessionOf, Active;
  }

  lemma {:induction false} EndedSessions(st: StoreState, h: History, t1: Time, t2: Time, cfg: Config)
    requires Matches(st, h, t1, cfg.limits) && RecordsOk(h, t1, cfg) && t1 <= t2
    ensures forall id :: id in EndLeases(st, t2).sessions <==> id in h && Live(h[id], t1, cfg.limits)
    ensures forall id | id in EndLeases(st, t2).sessions ::
              EndLeases(st, t2).sessions[id] == SessionOf(h[id], t2, cfg.limits)
  {
    forall id | id in st.sessions
      ensures id in h && EndLeases(st, t2).sessions[id] == SessionOf(h[id], t2, cfg.limits)
    {
      EndedMatches(st, h, t1, t2, cfg, id);
    }
    hide SessionOf, RecordsOk, Ended, Live;
  }

  /** Sweeping late gives what sweeping at every instant in between would have given. */
  lemma {:induction false} SweepMatches(st: StoreState, h: History, t1: Time, t2: Time, cfg: Config)
    requires Matches(st, h, t1, cfg.limits) && RecordsOk(h, t1, cfg) && cfg.Positive() && t1 <= t2
    ensures Matches(Sweep(st, t2), h, t2, cfg.limits)
  {
    hide EndLeases, DropTombstones, RecordsOk, SessionOf, LeaseEnd, Active;
    var limits, ended := cfg.limits, EndLeases(st, t2);
    EndedSessions(st, h, t1, t2, cfg);
    EndLeasesMatchesLeases(st, h, t1, t2, limits);
    EndLeasesKeepsIndex(st, t2);
    hide MatchSessions, MatchLeases, Indexed;
    DropKeepsIndex(ended, t2);
    DropMatchesSessions(ended, h, t1, t2, limits);
    DropMatchesLeases(ended, h, t2, limits);
  }

  lemma {:induction false} DropMatchesSessions(ended: StoreState, h: History, t1: Time, t2: Time, limits: ClaimLimits)
    requires t1 <= t2
    requires forall id :: id in ended.sessions <==> id in h && Live(h[id], t1, limits)
    requires forall id :: id in ended.sessions ==> ended.sessions[id] == SessionOf(h[id], t2, limits)
    ensures MatchSessions(DropTombstones(ended, t2), h, t2, limits)
  {
    forall id | id in ended.sessions ensures Forgotten(ended, id, t2) <==> !Live(h[id], t2, limits) {
      SessionOfKeeps(h[id], t2, limits);
    }
    hide Forgotten, SessionOf;
  }

  /** A lease that is out keeps its session from being forgotten. */
  lemma {:induction false} DropMatchesLeases(ended: StoreState, h: History, t2: Time, limits: ClaimLimits)
    requires 0 < limits.idempotencyTTL && MatchLeases(ended, h, t2, limits)
    requires forall id :: id in ended.sessions ==> id in h && ended.sessions[id] == SessionOf(h[id], t2, limits)
    ensures MatchLeases(DropTombstones(ended, t2), h, t2, limits)
  {
    forall id | id in ended.leases ensures !Forgotten(ended, id, t2) {
      if id in ended.sessions {
        SessionOfKeeps(h[id], t2, limits);
      }
    }
    hide Forgotten, SessionOf, Active;
  }

  lemma {:induction false} DropKeepsIndex(st: StoreState, now: Time)
    requires Indexed(st)
    ensures Indexed(DropTombstones(st, now))
  {
    hide Forgotten;
  }

  /** One record moves on and its session and lease with it; the rest still match. */
  lemma {:induction false} ChangeMatches(st: StoreState, h: History, id: string, r: Record,
                                         leases: map<string, SessionLease>, now: Time, limits: ClaimLimits)
    requires Matches(st, h, now, limits) && id in st.sessions
    requires r.issued == h[id].issued && Live(r, now, limits)
    requires leases == if Active(r, now, limits)
                       then st.leases[id := SessionLease(LeaseIDFor(id), SessionOf(r, now, limits), LeaseEnd(r, limits))]
                       else st.leases - {id}
    ensures Matches(StoreState(st.sessions[id := SessionOf(r, now, limits)], st.byKey, leases), h[id := r], now, limits)
  {
    SessionOfKeeps(r, now, limits);
    SessionOfKeeps(h[id], now, limits);
    ChangeKeepsIndex(st, id, SessionOf(r, now, limits), leases);
    ChangeKeepsLeases(st, h, id, r, leases, now, limits);
    hide SessionOf, Indexed, LeaseEnd, Tombstone, MatchLeases, Active;
  }

  lemma {:induction false} ChangeKeepsLeases(st: StoreState, h: History, id: string, r: Record,
                                             leases: map<string, SessionLease>, now: Time, limits: ClaimLimits)
    requires MatchLeases(st, h, now, limits) && id in h
    requires leases == if Active(r, now, limits)
                       then st.leases[id := SessionLease(LeaseIDFor(id), SessionOf(r, now, limits), LeaseEnd(r, limits))]
                       else st.leases - {id}
    ensures MatchLeases(StoreState(st.sessions[id := SessionOf(r, now, limits)], st.byKey, leases), h[id := r], now, limits)
  {
    hide SessionOf, LeaseEnd;
  }

  lemma {:induction false} ChangeKeepsIndex(st: StoreState, id: string, s: Session, leases: map<string, SessionLease>)
    requires Indexed(st) && id in st.sessions && s.intent == st.sessions[id].intent
    requires leases.Keys <= st.leases.Keys + {id}
    ensures Indexed(StoreState(st.sessions[id := s], st.byKey, leases))
  {
  }

  lemma {:induction false} KeyHeldBy(st: StoreState, h: History, key: string, now: Time, limits: ClaimLimits)
    requires Matches(st, h, now, limits)
    ensures key in st.byKey ==> st.byKey[key] in h && Holds(h[st.byKey[key]], key, now, limits)
    ensures key !in st.byKey ==> Holders(h, key, now, limits) == {}
  {
    if key in st.byKey {
      SessionOfKeeps(h[st.byKey[key]], now, limits);
    } else {
      forall id | id in h && Holds(h[id], key, now, limits) ensures false {
        SessionOfKeeps(h[id], now, limits);
      }
    }
  }

  lemma {:induction false} CreateMatches(st: StoreState, h: History, call: Call, cfg: Config)
    requires Matches(st, h, call.at, cfg.limits) && Inv(h, call.at, cfg) && Admissible(h, call, cfg)
    requires cfg.Positive() && call.op.Create?
    ensures CreateAct(st, call.op.key, call.op.candidate).1 == Expected(h, call, cfg.limits)
    ensures Matches(CreateAct(st, call.op.key, call.op.candidate).0,
                    Observe(h, call, Expected(h, call, cfg.limits), cfg.limits), call.at, cfg.limits)
  {
    hide Matches, SessionOf, Inv, RecordsOk, ProperCandidate, Observe;
    KeyHeldBy(st, h, call.op.key, call.at, cfg.limits);
    if call.op.key in st.byKey {
      assert Inv(h, call.at, cfg);
      HeldKeyMatches(st, h, call, cfg);
    } else {
      FreeKeyMatches(st, h, call, cfg);
    }
  }

  lemma {:induction false} FreeKeyMatches(st: StoreState, h: History, call: Call, cfg: Config)
    requires Matches(st, h, call.at, cfg.limits) && Admissible(h, call, cfg)
    requires cfg.Positive() && call.op.Create? && call.op.key !in st.byKey
    requires Holders(h, call.op.key, call.at, cfg.limits) == {}
    ensures CreateAct(st, call.op.key, call.op.candidate).1 == Expected(h, call, cfg.limits)
    ensures Matches(CreateAct(st, call.op.key, call.op.candidate).0,
                    Observe(h, call, Expected(h, call, cfg.limits), cfg.limits), call.at, cfg.limits)
  {
    hide Matches, SessionOf;
    EnterMatches(st, h, call.op.candidate, call.at, cfg);
  }

  lemma {:induction false} HeldKeyMatches(st: StoreState, h: History, call: Call, cfg: Config)
    requires Matches(st, h, call.at, cfg.limits) && Inv(h, call.at, cfg) && Admissible(h, call, cfg)
    requires call.op.Create? && call.op.key in st.byKey
    requires st.byKey[call.op.key] in h && Holds(h[st.byKey[call.op.key]], call.op.key, call.at, cfg.limits)
    ensures CreateAct(st, call.op.key, call.op.candidate).1 == Expected(h, call, cfg.limits)
    ensures Matches(CreateAct(st, call.op.key, call.op.candidate).0,
                    Observe(h, call, Expected(h, call, cfg.limits), cfg.limits), call.at, cfg.limits)
  {
    var id, now, limits := st.byKey[call.op.key], call.at, cfg.limits;
    CreateAnsweredByHolder(h, call, id, limits);
    hide Matches, RecordsOk, WithinCapacity, Expected, Observe, CreateAct, Holds, SessionOf, TicketExpired, Spend;
    HeldKeyAct(st, h, call, cfg);
    MatchedSession(st, h, id, now, limits);
    if Expected(h, call, limits) == Refused(FailedPrecondition) {
      RefusalSpendsHolder(h, call, id, limits);
      if h[id].phase.Waiting? {
        SpendMatches(st, h, id, now, limits);
      }
    } else {
      NoEntry(h, call, Expected(h, call, limits), limits);
    }
  }

  lemma {:induction false} HeldKeyAct(st: StoreState, h: History, call: Call, cfg: Config)
    requires Matches(st, h, call.at, cfg.limits) && RecordsOk(h, call.at, cfg) && Admissible(h, call, cfg)
    requires call.op.Create? && call.op.key in st.byKey
    requires st.byKey[call.op.key] in h && Holds(h[st.byKey[call.op.key]], call.op.key, call.at, cfg.limits)
    ensures var id := st.byKey[call.op.key];
            var reply := ExpectedFromHolder(h[id], call.op.candidate, call.at);
            && id in st.sessions
            && CreateAct(st, call.op.key, call.op.candidate) ==
               (if reply == Refused(FailedPrecondition) && h[id].phase.Waiting?
                then st.(sessions := st.sessions[id := TicketExpired(st.sessions[id], call.at)])
                else st,
                reply)
  {
    var id := st.byKey[call.op.key];
    assert RecordOk(id, h[id], call.at, cfg);
    MatchedSession(st, h, id, call.at, cfg.limits);
    SessionOfKeeps(h[id], call.at, cfg.limits);
    assert h[id].phase.Waiting? ==> st.sessions[id] == h[id].issued;
    hide Matches, SessionOf, RecordsOk, TicketExpired;
  }

  lemma {:induction false} EnterMatches(st: StoreState, h: History, candidate: Session, now: Time, cfg: Config)
    requires Matches(st, h, now, cfg.limits) && cfg.Positive()
    requires ProperCandidate(candidate.intent.idempotencyKey, candidate, now, cfg)
    requires candidate.intent.id !in h && candidate.intent.idempotencyKey !in st.byKey
    ensures var id := candidate.intent.id;
            Matches(StoreState(st.sessions[id := candidate], st.byKey[candidate.intent.idempotencyKey := id], st.leases),
                    h[id := Record(candidate, Waiting)], now, cfg.limits)
  {
    var id, r := candidate.intent.id, Record(candidate, Waiting);
    var st' := StoreState(st.sessions[id := candidate], st.byKey[candidate.intent.idempotencyKey := id], st.leases);
    assert Live(r, now, cfg.limits) && !Active(r, now, cfg.limits);
    assert SessionOf(r, now, cfg.limits) == candidate;
    EnterSessions(st, st', h, id, r, now, cfg.limits);
    EnterLeases(st, st', h, id, r, now, cfg.limits);
    hide MatchSessions, MatchLeases, SessionOf;
    assert Indexed(st');
  }

  lemma {:induction false} EnterSessions(st: StoreState, st': StoreState, h: History, id: string, r: Record,
                                         now: Time, limits: ClaimLimits)
    requires MatchSessions(st, h, now, limits) && Live(r, now, limits)
    requires st'.sessions == st.sessions[id := SessionOf(r, now, limits)]
    ensures MatchSessions(st', h[id := r], now, limits)
  {
    hide SessionOf, Tombstone;
  }

  lemma {:induction false} EnterLeases(st: StoreState, st': StoreState, h: History, id: string, r: Record, now: Time,
                                       limits: ClaimLimits)
    requires MatchLeases(st, h, now, limits) && id !in h && !Active(r, now, limits)
    requires st'.leases == st.leases
    ensures MatchLeases(st', h[id := r], now, limits)
  {
    hide SessionOf, LeaseEnd;
  }

  lemma {:induction false} ActiveLeases(st: StoreState, h: History, now: Time, limits: ClaimLimits)
    requires Matches(st, h, now, limits)
    ensures |st.leases| == |ActiveIDs(h, now, limits)|
    ensures forall subject :: LeasesFor(st.leases, subject) == ActiveFor(h, subject, now, limits)
  {
    assert st.leases.Keys == ActiveIDs(h, now, limits);
    assert |st.leases| == |st.leases.Keys|;
    forall id | id in st.leases
      ensures st.leases[id].session.intent == h[id].issued.intent
    {
      SessionOfKeeps(h[id], now, limits);
    }
  }

  /** What matching says of one session. */
  lemma {:induction false} MatchedSession(st: StoreState, h: History, id: string, now: Time, limits: ClaimLimits)
    requires Matches(st, h, now, limits)
    ensures id in st.sessions <==> id in h && Live(h[id], now, limits)
    ensures id in st.leases <==> id in h && Active(h[id], now, limits)
    ensures id in st.sessions ==> st.sessions[id] == SessionOf(h[id], now, limits)
  {
  }

  lemma {:induction false} ClaimMatches(st: StoreState, h: History, call: Call, cfg: Config)
    requires Matches(st, h, call.at, cfg.limits) && RecordsOk(h, call.at, cfg)
    requires cfg.Positive() && call.op.Claim?
    ensures ClaimAct(st, call.op.id, call.op.digest, call.at, cfg.limits).1 == Expected(h, call, cfg.limits)
    ensures Matches(ClaimAct(st, call.op.id, call.op.digest, call.at, cfg.limits).0,
                    Observe(h, call, Expected(h, call, cfg.limits), cfg.limits), call.at, cfg.limits)
  {
    var id, now, limits := call.op.id, call.at, cfg.limits;
    MatchedSession(st, h, id, now, limits);
    if id in st.sessions {
      assert RecordOk(id, h[id], now, cfg);
      SessionOfKeeps(h[id], now, limits);
      if h[id].phase.Waiting? {
        ClaimWaitingMatches(st, h, call, cfg);
      } else {
        hide Matches, RecordsOk, RecordOk, SessionOf, ActiveIDs, ActiveFor, LeasesFor;
        assert h[id := h[id]] == h;
      }
    }
  }

  lemma {:induction false} WaitingSession(r: Record, now: Time, limits: ClaimLimits)
    requires r.phase.Waiting?
    ensures SessionOf(r, now, limits) == r.issued
  {
  }

  lemma {:induction false} ClaimWaitingMatches(st: StoreState, h: History, call: Call, cfg: Config)
    requires Matches(st, h, call.at, cfg.limits) && cfg.Positive() && call.op.Claim?
    requires call.op.id in st.sessions && call.op.id in h && RecordOk(call.op.id, h[call.op.id], call.at, cfg)
    requires h[call.op.id].phase.Waiting?
    ensures ClaimAct(st, call.op.id, call.op.digest, call.at, cfg.limits).1 == Expected(h, call, cfg.limits)
    ensures Matches(ClaimAct(st, call.op.id, call.op.digest, call.at, cfg.limits).0,
                    Observe(h, call, Expected(h, call, cfg.limits), cfg.limits), call.at, cfg.limits)
  {
    hide Matches, SessionOf, ActiveIDs, ActiveFor, LeasesFor, TicketExpired, ClaimedSession;
    var id, now, limits := call.op.id, call.at, cfg.limits;
    MatchedSession(st, h, id, now, limits);
    WaitingSession(h[id], now, limits);
    ClaimReplies(st, h, call, cfg);
    hide RecordOk;
    if h[id].issued.intent.ticketExpiresAt <= now {
      SpendMatches(st, h, id, now, limits);
    } else if Expected(h, call, limits).Leased? {
      GrantMatches(st, h, id, now, limits);
    }
  }

  lemma {:induction false} SpendMatches(st: StoreState, h: History, id: string, now: Time, limits: ClaimLimits)
    requires Matches(st, h, now, limits) && id in st.sessions && h[id].phase.Waiting?
    ensures Matches(st.(sessions := st.sessions[id := TicketExpired(st.sessions[id], now)]), h[id := Spend(h[id], now)],
                    now, limits)
  {
    var r := h[id];
    MatchedSession(st, h, id, now, limits);
    assert st.leases - {id} == st.leases;
    assert SessionOf(Spend(r, now), now, limits) == TicketExpired(st.sessions[id], now);
    hide Matches;
    ChangeMatches(st, h, id, Spend(r, now), st.leases, now, limits);
  }

  lemma {:induction false} GrantMatches(st: StoreState, h: History, id: string, now: Time, limits: ClaimLimits)
    requires Matches(st, h, now, limits) && id in st.sessions && h[id].phase.Waiting?
    requires 0 < limits.sessionMaxDuration && 0 < limits.idempotencyTTL
    ensures var claimed := ClaimedSession(st.sessions[id], now, limits);
            Matches(StoreState(st.sessions[id := claimed], st.byKey,
                               st.leases[id := SessionLease(LeaseIDFor(id), claimed, claimed.expiresAt)]),
                    h[id := h[id].(phase := Held(now))], now, limits)
  {
    var held := h[id].(phase := Held(now));
    MatchedSession(st, h, id, now, limits);
    var claimed := ClaimedSession(st.sessions[id], now, limits);
    assert SessionOf(held, now, limits) == claimed;
    hide Matches;
    ChangeMatches(st, h, id, held, st.leases[id := SessionLease(LeaseIDFor(id), claimed, claimed.expiresAt)], now, limits);
  }

  lemma {:induction false} ClaimReplies(st: StoreState, h: History, call: Call, cfg: Config)
    requires Matches(st, h, call.at, cfg.limits) && call.op.Claim?
    requires call.op.id in st.sessions && call.op.id in h && RecordOk(call.op.id, h[call.op.id], call.at, cfg)
    requires h[call.op.id].phase.Waiting?
    ensures ClaimAct(st, call.op.id, call.op.digest, call.at, cfg.limits).1 == Expected(h, call, cfg.limits)
  {
    hide Matches, SessionOf, ActiveIDs, ActiveFor, LeasesFor, TicketExpired;
    MatchedSession(st, h, call.op.id, call.at, cfg.limits);
    WaitingSession(h[call.op.id], call.at, cfg.limits);
    ActiveLeases(st, h, call.at, cfg.limits);
    assert LeasesFor(st.leases, h[call.op.id].issued.intent.subjectID)
        == ActiveFor(h, h[call.op.id].issued.intent.subjectID, call.at, cfg.limits);
  }

  lemma {:induction false} CloseMatches(st: StoreState, h: History, call: Call, cfg: Config)
    requires Matches(st, h, call.at, cfg.limits) && RecordsOk(h, call.at, cfg)
    requires cfg.Positive() && call.op.Close?
    ensures CloseAct(st, call.op.id, call.op.leaseID, call.op.reason, call.at).1 == Expected(h, call, cfg.limits)
    ensures Matches(CloseAct(st, call.op.id, call.op.leaseID, call.op.reason, call.at).0,
                    Observe(h, call, Expected(h, call, cfg.limits), cfg.limits), call.at, cfg.limits)
  {
    var id, now, limits := call.op.id, call.at, cfg.limits;
    MatchedSession(st, h, id, now, limits);
    if id in st.sessions {
      assert RecordOk(id, h[id], now, cfg);
      SessionOfKeeps(h[id], now, limits);
      if h[id].phase.Held? {
        CloseHeldMatches(st, h, call, cfg);
      } else {
        hide Matches, RecordsOk, RecordOk, SessionOf;
      }
    }
  }

  lemma {:induction false} CloseHeldMatches(st: StoreState, h: History, call: Call, cfg: Config)
    requires Matches(st, h, call.at, cfg.limits) && cfg.Positive() && call.op.Close?
    requires call.op.id in st.sessions && call.op.id in h && RecordOk(call.op.id, h[call.op.id], call.at, cfg)
    requires h[call.op.id].phase.Held?
    ensures CloseAct(st, call.op.id, call.op.leaseID, call.op.reason, call.at).1 == Expected(h, call, cfg.limits)
    ensures Matches(CloseAct(st, call.op.id, call.op.leaseID, call.op.reason, call.at).0,
                    Observe(h, call, Expected(h, call, cfg.limits), cfg.limits), call.at, cfg.limits)
  {
    var id, now, limits := call.op.id, call.at, cfg.limits;
    if Active(h[id], now, limits) {
      CloseActiveMatches(st, h, call, cfg);
    } else {
      MatchedSession(st, h, id, now, limits);
      SessionOfKeeps(h[id], now, limits);
      hide Matches, RecordOk, SessionOf, LeaseEnd, Tombstone;
      LateCloseMatches(st, h, id, now, call.op.reason, limits);
    }
    hide CloseAct, Observe, Expected;
  }

  lemma {:induction false} CloseActiveMatches(st: StoreState, h: History, call: Call, cfg: Config)
    requires Matches(st, h, call.at, cfg.limits) && cfg.Positive() && call.op.Close?
    requires call.op.id in st.sessions && call.op.id in h && RecordOk(call.op.id, h[call.op.id], call.at, cfg)
    requires h[call.op.id].phase.Held?
    requires Active(h[call.op.id], call.at, cfg.limits)
    ensures CloseAct(st, call.op.id, call.op.leaseID, call.op.reason, call.at).1 == Expected(h, call, cfg.limits)
    ensures Matches(CloseAct(st, call.op.id, call.op.leaseID, call.op.reason, call.at).0,
                    Observe(h, call, Expected(h, call, cfg.limits), cfg.limits), call.at, cfg.limits)
  {
    var id, now, limits := call.op.id, call.at, cfg.limits;
    MatchedSession(st, h, id, now, limits);
    SessionOfKeeps(h[id], now, limits);
    hide Matches, RecordOk, SessionOf, LeaseEnd, Tombstone, ReleasedSession;
    ReturnMatches(st, h, id, now, call.op.reason, limits);
    hide Active, Live;
    if call.op.leaseID == LeaseIDFor(id) {
      assert Expected(h, call, limits) == Done;
    } else {
      assert Expected(h, call, limits) == Refused(FailedPrecondition);
    }
  }

  lemma {:induction false} ReturnMatches(st: StoreState, h: History, id: string, now: Time, reason: string,
                                         limits: ClaimLimits)
    requires Matches(st, h, now, limits) && id in st.sessions && Active(h[id], now, limits)
    requires 0 < limits.idempotencyTTL
    ensures Matches(StoreState(st.sessions[id := ReleasedSession(st.sessions[id], now, reason)], st.byKey, st.leases - {id}),
                    h[id := h[id].(phase := Released(h[id].phase.since, now, reason))], now, limits)
    ensures st.sessions[id].leaseID == LeaseIDFor(st.sessions[id].intent.id)
  {
    var released := h[id].(phase := Released(h[id].phase.since, now, reason));
    MatchedSession(st, h, id, now, limits);
    assert SessionOf(released, now, limits) == ReleasedSession(st.sessions[id], now, reason);
    hide Matches, ReleasedSession;
    ChangeMatches(st, h, id, released, st.leases - {id}, now, limits);
  }

  /** A close after the lease ran out changes nothing of the session. */
  lemma {:induction false} LateCloseSession(r: Record, now: Time, reason: string, limits: ClaimLimits)
    requires r.phase.Held? && !Active(r, now, limits)
    ensures var released := r.(phase := Released(r.phase.since, now, reason));
            && SessionOf(released, now, limits) == SessionOf(r, now, limits)
            && !Active(released, now, limits) && (Live(r, now, limits) ==> Live(released, now, limits))
  {
  }

  lemma {:induction false} LateCloseMatches(st: StoreState, h: History, id: string, now: Time, reason: string,
                                            limits: ClaimLimits)
    requires Matches(st, h, now, limits) && id in st.sessions && h[id].phase.Held? && !Active(h[id], now, limits)
    ensures Matches(st, h[id := h[id].(phase := Released(h[id].phase.since, now, reason))], now, limits)
  {
    hide Matches, LapsedSession;
    MatchedSession(st, h, id, now, limits);
    var released := h[id].(phase := Released(h[id].phase.since, now, reason));
    LateCloseSession(h[id], now, reason, limits);
    hide SessionOf, Active, Live;
    assert st.sessions[id := st.sessions[id]] == st.sessions;
    assert st.leases - {id} == st.leases;
    ChangeMatches(st, h, id, released, st.leases - {id}, now, limits);
  }

  lemma {:induction false} ActMatches(st: StoreState, h: History, call: Call, cfg: Config)
    requires Matches(st, h, call.at, cfg.limits) && Inv(h, call.at, cfg) && Admissible(h, call, cfg)
    requires cfg.Positive()
    ensures Act(st, call, cfg.limits).1 == Expected(h, call, cfg.limits)
    ensures Matches(Act(st, call, cfg.limits).0,
                    Observe(h, call, Expected(h, call, cfg.limits), cfg.limits), call.at, cfg.limits)
  {
    assert RecordsOk(h, call.at, cfg);
    hide Matches, Inv, RecordsOk, Admissible, Expected, Observe, CreateAct, ClaimAct, CloseAct;
    match call.op
    case Create(_, _) => CreateMatches(st, h, call, cfg);
    case Claim(_, _) => ClaimMatches(st, h, call, cfg);
    case Close(_, _, _) => CloseMatches(st, h, call, cfg);
  }

  // ------------------------------------------------------------------ runs

  /** The memory store after the first n calls. */
  function StateAt(calls: seq<Call>, n: nat, limits: ClaimLimits): StoreState
    requires n <= |calls|
  {
    if n == 0 then EMPTY else Step(StateAt(calls, n - 1, limits), calls[n - 1], limits).0
  }

  function AnswerAt(calls: seq<Call>, n: nat, limits: ClaimLimits): Reply
    requires n < |calls|
  {
    Step(StateAt(calls, n, limits), calls[n], limits).1
  }

  lemma {:induction false} StepMatches(calls: seq<Call>, n: nat, cfg: Config)
    requires ValidRun(calls, cfg) && n < |calls|
    requires Matches(Sweep(StateAt(calls, n, cfg.limits), calls[n].at), LedgerAt(calls, n, cfg.limits), calls[n].at, cfg.limits)
    ensures AnswerAt(calls, n, cfg.limits) == ReplyAt(calls, n, cfg.limits)
    ensures Matches(StateAt(calls, n + 1, cfg.limits), LedgerAt(calls, n + 1, cfg.limits), calls[n].at, cfg.limits)
  {
    hide Matches, Inv, Admissible, Expected, Observe, LedgerAt, Act, Sweep, AllHaveOrigins;
    RunIsAdmissible(calls, n, cfg);
    LedgerGrows(calls, n, cfg.limits);
    ActMatches(Sweep(StateAt(calls, n, cfg.limits), calls[n].at), LedgerAt(calls, n, cfg.limits), calls[n], cfg);
  }

  /** After any run, at any later sweep, the store matches the ledger. */
  lemma {:induction false} RunMatches(calls: seq<Call>, n: nat, now: Time, cfg: Config)
    requires ValidRun(calls, cfg) && n <= |calls| && ClockAt(calls, n) <= now
    ensures Matches(StateAt(calls, n, cfg.limits), LedgerAt(calls, n, cfg.limits), ClockAt(calls, n), cfg.limits)
    ensures Matches(Sweep(StateAt(calls, n, cfg.limits), now), LedgerAt(calls, n, cfg.limits), now, cfg.limits)
    decreases n
  {
    hide Matches, LedgerAt, StateAt, Sweep;
    if n == 0 {
      StartMatches(calls, cfg.limits);
    } else {
      assert ProperCall(calls[n - 1], cfg);
      hide ProperCall;
      RunMatches(calls, n - 1, calls[n - 1].at, cfg);
      StepMatches(calls, n - 1, cfg);
    }
    LaterSweepMatches(calls, n, now, cfg);
  }

  lemma {:induction false} StartMatches(calls: seq<Call>, limits: ClaimLimits)
    ensures Matches(StateAt(calls, 0, limits), LedgerAt(calls, 0, limits), ZERO_TIME, limits)
  {
    assert LedgerAt(calls, 0, limits) == map[];
  }

  lemma {:induction false} LaterSweepMatches(calls: seq<Call>, n: nat, now: Time, cfg: Config)
    requires ValidRun(calls, cfg) && n <= |calls| && ClockAt(calls, n) <= now
    requires Matches(StateAt(calls, n, cfg.limits), LedgerAt(calls, n, cfg.limits), ClockAt(calls, n), cfg.limits)
    ensures Matches(Sweep(StateAt(calls, n, cfg.limits), now), LedgerAt(calls, n, cfg.limits), now, cfg.limits)
  {
    hide Matches, LedgerAt, StateAt, Sweep, RecordsOk, OneHolderPerKey, WithinCapacity, AllHaveOrigins;
    RunKeepsInv(calls, n, ClockAt(calls, n), cfg);
    SweepMatches(StateAt(calls, n, cfg.limits), LedgerAt(calls, n, cfg.limits), ClockAt(calls, n), now, cfg);
  }

  /** The memory store answers every call of every run as the ledger expects. */
  lemma {:induction false} MemoryAnswersFromLedger(calls: seq<Call>, n: nat, cfg: Config)
    requires ValidRun(calls, cfg) && n < |calls|
    ensures AnswerAt(calls, n, cfg.limits) == ReplyAt(calls, n, cfg.limits)
  {
    assert ClockAt(calls, n) <= calls[n].at by {
      assert ProperCall(calls[n], cfg);
    }
    RunMatches(calls, n, calls[n].at, cfg);
    StepMatches(calls, n, cfg);
  }
}
