/** Every run of the Redis store answers what the ledger expects, but for one kind of close. */
module RedisRuns {
  import opened Sessions
  import opened Ledger
  import opened LedgerRuns
  import opened RedisStore

  /** The digest that names keys and subjects is taken to be free of collisions. */
  ghost predicate Injective(name: string -> string) {
    forall a, b :: name(a) == name(b) ==> a == b
  }

  /** A hash as the ledger has it.  Redis never sweeps: a lapsed lease leaves its session claimed. */
  function HashOf(r: Record, limits: ClaimLimits): Session {
    match r.phase
    case Waiting => r.issued
    case Spent(at) => TicketExpired(r.issued, at)
    case Held(since) => ClaimedSession(r.issued, since, limits)
    case Released(since, at, reason) => ReleasedSession(ClaimedSession(r.issued, since, limits), at, reason)
  }

  ghost predicate MatchHashes(hashes: map<string, Keyed<Session>>, h: History, limits: ClaimLimits) {
    && (forall id :: id in hashes <==> id in h)
    && (forall id :: id in hashes ==> hashes[id] == Keyed(HashOf(h[id], limits), Tombstone(h[id], limits)))
  }

  ghost predicate MatchIdem(idem: map<string, Keyed<string>>, name: string -> string, h: History, now: Time,
                            limits: ClaimLimits)
  {
    && (forall id :: id in h && Live(h[id], now, limits) ==>
          var k := name(h[id].issued.intent.idempotencyKey);
          k in idem && idem[k] == Keyed(id, Tombstone(h[id], limits)))
    && (forall k :: k in idem && now < idem[k].expireAt ==>
          var id := idem[k].value;
          id in h && name(h[id].issued.intent.idempotencyKey) == k && idem[k].expireAt == Tombstone(h[id], limits))
  }

  /** The unexpired members of the global set are the active leases, scored by their end. */
  ghost predicate MatchGlobal(leases: LeaseSet, h: History, now: Time, limits: ClaimLimits) {
    && (forall id :: id in leases && now < leases[id] ==>
          id in h && Active(h[id], now, limits) && leases[id] == LeaseEnd(h[id], limits))
    && (forall id :: id in h && Active(h[id], now, limits) ==> id in leases && leases[id] == LeaseEnd(h[id], limits))
  }

  /** The unexpired members of a subject's set are the active leases of that subject. */
  ghost predicate MatchSubject(leases: LeaseSet, name: string -> string, subjectKey: string, h: History, now: Time,
                               limits: ClaimLimits)
  {
    && (forall id :: id in leases && now < leases[id] ==>
          id in h && Active(h[id], now, limits) && leases[id] == LeaseEnd(h[id], limits)
          && name(h[id].issued.intent.subjectID) == subjectKey)
    && (forall id :: id in h && Active(h[id], now, limits) && name(h[id].issued.intent.subjectID) == subjectKey ==>
          id in leases && leases[id] == LeaseEnd(h[id], limits))
  }

  ghost predicate MatchSubjects(subjects: map<string, LeaseSet>, name: string -> string, h: History, now: Time,
                                limits: ClaimLimits)
  {
    forall subjectKey :: MatchSubject(SubjectSet(subjects, subjectKey), name, subjectKey, h, now, limits)
  }

  ghost predicate Matches(st: RedisState, name: string -> string, h: History, now: Time, limits: ClaimLimits) {
    && MatchHashes(st.hashes, h, limits)
    && MatchIdem(st.idem, name, h, now, limits)
    && MatchGlobal(st.leases, h, now, limits)
    && MatchSubjects(st.subjects, name, h, now, limits)
  }

  /** Time alone keeps the match: nothing has to be swept. */
  lemma {:induction false} MatchesLater(st: RedisState, name: string -> string, h: History, t1: Time, t2: Time,
                                        limits: ClaimLimits)
    requires Matches(st, name, h, t1, limits) && t1 <= t2
    ensures Matches(st, name, h, t2, limits)
  {
    forall subjectKey ensures MatchSubject(SubjectSet(st.subjects, subjectKey), name, subjectKey, h, t2, limits) {
      assert MatchSubject(SubjectSet(st.subjects, subjectKey), name, subjectKey, h, t1, limits);
    }
  }

  lemma {:induction false} MatchedHash(st: RedisState, name: string -> string, h: History, id: string, now: Time,
                                       limits: ClaimLimits)
    requires Matches(st, name, h, now, limits)
    ensures Exists(st.hashes, id, now) <==> id in h && Live(h[id], now, limits)
    ensures id in st.hashes ==> id in h && st.hashes[id] == Keyed(HashOf(h[id], limits), Tombstone(h[id], limits))
  {
  }

  lemma {:induction false} HashOfKeeps(r: Record, limits: ClaimLimits)
    ensures HashOf(r, limits).intent == r.issued.intent
    ensures HashOf(r, limits).tombstoneExpiresAt == Tombstone(r, limits)
    ensures r.issued.state.Issued? ==>
              && (HashOf(r, limits).state.Issued? <==> r.phase.Waiting?)
              && (HashOf(r, limits).state.Claimed? <==> r.phase.Held?)
  {
  }

  // ----------------------------------------- one record moves, part by part

  lemma {:induction false} HashesFollow(hashes: map<string, Keyed<Session>>, h: History, id: string, r: Record,
                                        limits: ClaimLimits)
    requires MatchHashes(hashes, h, limits)
    ensures MatchHashes(hashes[id := Keyed(HashOf(r, limits), Tombstone(r, limits))], h[id := r], limits)
  {
    hide HashOf, Tombstone;
  }

  lemma {:induction false} IdemStays(idem: map<string, Keyed<string>>, name: string -> string, h: History, id: string,
                                     r: Record, now: Time, limits: ClaimLimits)
    requires MatchIdem(idem, name, h, now, limits) && id in h && r.issued == h[id].issued
    requires Tombstone(r, limits) == Tombstone(h[id], limits)
    ensures MatchIdem(idem, name, h[id := r], now, limits)
  {
    hide Tombstone;
  }

  lemma {:induction false} GlobalFollows(leases: LeaseSet, h: History, id: string, r: Record, now: Time,
                                         limits: ClaimLimits)
    requires MatchGlobal(leases, h, now, limits)
    ensures MatchGlobal(if Active(r, now, limits) then leases[id := LeaseEnd(r, limits)] else leases - {id},
                        h[id := r], now, limits)
  {
    hide LeaseEnd;
  }

  lemma {:induction false} SubjectsFollow(subjects: map<string, LeaseSet>, name: string -> string, h: History,
                                          id: string, r: Record, now: Time, limits: ClaimLimits)
    requires MatchSubjects(subjects, name, h, now, limits) && id in h && r.issued == h[id].issued
    ensures var sk := name(r.issued.intent.subjectID);
            var leases := SubjectSet(subjects, sk);
            MatchSubjects(
              subjects[sk := if Active(r, now, limits) then leases[id := LeaseEnd(r, limits)] else leases - {id}],
              name, h[id := r], now, limits)
  {
    var sk := name(r.issued.intent.subjectID);
    var leases := SubjectSet(subjects, sk);
    var leases' := if Active(r, now, limits) then leases[id := LeaseEnd(r, limits)] else leases - {id};
    var subjects' := subjects[sk := leases'];
    forall subjectKey
      ensures MatchSubject(SubjectSet(subjects', subjectKey), name, subjectKey, h[id := r], now, limits)
    {
      assert MatchSubject(SubjectSet(subjects, subjectKey), name, subjectKey, h, now, limits);
      OneSubjectFollows(SubjectSet(subjects, subjectKey), name, subjectKey, h, id, r, now, limits);
      hide MatchSubject;
    }
  }

  lemma {:induction false} OneSubjectFollows(leases: LeaseSet, name: string -> string, subjectKey: string, h: History,
                                             id: string, r: Record, now: Time, limits: ClaimLimits)
    requires MatchSubject(leases, name, subjectKey, h, now, limits) && id in h && r.issued == h[id].issued
    ensures var mine := name(r.issued.intent.subjectID) == subjectKey;
            MatchSubject(if !mine then leases
                         else if Active(r, now, limits) then leases[id := LeaseEnd(r, limits)]
                         else leases - {id},
                         name, subjectKey, h[id := r], now, limits)
  {
    hide LeaseEnd;
  }

  lemma {:induction false} SetsStay(st: RedisState, name: string -> string, h: History, id: string, r: Record,
                                    now: Time, limits: ClaimLimits)
    requires MatchGlobal(st.leases, h, now, limits) && MatchSubjects(st.subjects, name, h, now, limits)
    requires id in h ==> !Active(h[id], now, limits)
    requires !Active(r, now, limits)
    ensures MatchGlobal(st.leases, h[id := r], now, limits)
    ensures MatchSubjects(st.subjects, name, h[id := r], now, limits)
  {
    hide LeaseEnd;
    forall subjectKey
      ensures MatchSubject(SubjectSet(st.subjects, subjectKey), name, subjectKey, h[id := r], now, limits)
    {
      assert MatchSubject(SubjectSet(st.subjects, subjectKey), name, subjectKey, h, now, limits);
    }
  }

  /** A record that neither was nor becomes an active lease leaves the lease sets alone. */
  lemma {:induction false} QuietChangeMatches(st: RedisState, name: string -> string, h: History, id: string,
                                              r: Record, now: Time, limits: ClaimLimits)
    requires Matches(st, name, h, now, limits) && id in h && r.issued == h[id].issued
    requires Tombstone(r, limits) == Tombstone(h[id], limits)
    requires !Active(h[id], now, limits) && !Active(r, now, limits)
    ensures Matches(st.(hashes := st.hashes[id := Keyed(HashOf(r, limits), Tombstone(r, limits))]), name, h[id := r],
                    now, limits)
  {
    hide MatchHashes, MatchIdem, MatchGlobal, MatchSubjects;
    HashesFollow(st.hashes, h, id, r, limits);
    IdemStays(st.idem, name, h, id, r, now, limits);
    SetsStay(st, name, h, id, r, now, limits);
  }

  // ---------------------------------------------------------------- pruning

  /** Pruning at an instant keeps what is unexpired at it. */
  lemma {:induction false} PruneMatchesGlobal(leases: LeaseSet, h: History, now: Time, limits: ClaimLimits)
    requires MatchGlobal(leases, h, now, limits)
    ensures MatchGlobal(Pruned(leases, now), h, now, limits)
    ensures Pruned(leases, now).Keys == ActiveIDs(h, now, limits)
    ensures |Pruned(leases, now)| == |ActiveIDs(h, now, limits)|
  {
    hide LeaseEnd;
    assert Pruned(leases, now).Keys == ActiveIDs(h, now, limits);
    assert |Pruned(leases, now)| == |Pruned(leases, now).Keys|;
  }

  lemma {:induction false} PruneMatchesSubject(leases: LeaseSet, name: string -> string, subject: string, h: History,
                                               now: Time, limits: ClaimLimits)
    requires MatchSubject(leases, name, name(subject), h, now, limits) && Injective(name)
    ensures MatchSubject(Pruned(leases, now), name, name(subject), h, now, limits)
    ensures |Pruned(leases, now)| == |ActiveFor(h, subject, now, limits)|
  {
    hide LeaseEnd;
    assert Pruned(leases, now).Keys == ActiveFor(h, subject, now, limits);
    assert |Pruned(leases, now)| == |Pruned(leases, now).Keys|;
  }

  /** The state a claim script sees once it has pruned. */
  function PrunedState(st: RedisState, subjectKey: string, at: Time): RedisState {
    st.(leases := Pruned(st.leases, at), subjects := st.subjects[subjectKey := Pruned(SubjectSet(st.subjects, subjectKey), at)])
  }

  lemma {:induction false} PruneMatches(st: RedisState, name: string -> string, subject: string, h: History,
                                        now: Time, limits: ClaimLimits)
    requires Matches(st, name, h, now, limits) && Injective(name)
    ensures Matches(PrunedState(st, name(subject), now), name, h, now, limits)
    ensures |Pruned(st.leases, now)| == |ActiveIDs(h, now, limits)|
    ensures |Pruned(SubjectSet(st.subjects, name(subject)), now)| == |ActiveFor(h, subject, now, limits)|
  {
    var st' := PrunedState(st, name(subject), now);
    assert MatchSubject(SubjectSet(st.subjects, name(subject)), name, name(subject), h, now, limits);
    PruneMatchesGlobal(st.leases, h, now, limits);
    PruneMatchesSubject(SubjectSet(st.subjects, name(subject)), name, subject, h, now, limits);
    forall subjectKey ensures MatchSubject(SubjectSet(st'.subjects, subjectKey), name, subjectKey, h, now, limits) {
      assert MatchSubject(SubjectSet(st.subjects, subjectKey), name, subjectKey, h, now, limits);
      hide MatchSubject;
    }
    hide MatchSubject, MatchGlobal, SubjectSet, Pruned, ActiveIDs, ActiveFor;
  }

  // ------------------------------------------------------------- each entry

  lemma {:induction false} EnterKeepsIdem(idem: map<string, Keyed<string>>, name: string -> string, h: History,
                                          candidate: Session, now: Time, limits: ClaimLimits)
    requires MatchIdem(idem, name, h, now, limits) && Injective(name)
    requires candidate.intent.id !in h && Holders(h, candidate.intent.idempotencyKey, now, limits) == {}
    ensures MatchIdem(idem[name(candidate.intent.idempotencyKey) :=
                             Keyed(candidate.intent.id, candidate.tombstoneExpiresAt)],
                      name, h[candidate.intent.id := Record(candidate, Waiting)], now, limits)
  {
    forall other | other in h && Live(h[other], now, limits)
      ensures name(h[other].issued.intent.idempotencyKey) != name(candidate.intent.idempotencyKey)
    {
      assert other !in Holders(h, candidate.intent.idempotencyKey, now, limits);
    }
    assert Tombstone(Record(candidate, Waiting), limits) == candidate.tombstoneExpiresAt;
    hide Tombstone, Holders, Injective;
  }

  lemma {:induction false} EnterMatches(st: RedisState, name: string -> string, h: History, candidate: Session,
                                        now: Time, cfg: Config)
    requires Matches(st, name, h, now, cfg.limits) && Injective(name)
    requires candidate.intent.id !in h && Holders(h, candidate.intent.idempotencyKey, now, cfg.limits) == {}
    ensures var id, k, e := candidate.intent.id, name(candidate.intent.idempotencyKey), candidate.tombstoneExpiresAt;
            Matches(st.(hashes := st.hashes[id := Keyed(candidate, e)], idem := st.idem[k := Keyed(id, e)]), name,
                    h[id := Record(candidate, Waiting)], now, cfg.limits)
  {
    var id, r := candidate.intent.id, Record(candidate, Waiting);
    hide MatchHashes, MatchIdem, MatchGlobal, MatchSubjects, Injective, Holders;
    HashesFollow(st.hashes, h, id, r, cfg.limits);
    EnterKeepsIdem(st.idem, name, h, candidate, now, cfg.limits);
    SetsStay(st, name, h, id, r, now, cfg.limits);
  }

  lemma {:induction false} GrantKeepsIdem(idem: map<string, Keyed<string>>, name: string -> string, h: History,
                                          id: string, held: Record, now: Time, limits: ClaimLimits)
    requires MatchIdem(idem, name, h, now, limits) && OneHolderPerKey(h, now, limits) && Injective(name)
    requires id in h && Live(h[id], now, limits) && held.issued == h[id].issued
    ensures var k := name(h[id].issued.intent.idempotencyKey);
            && Exists(idem, k, now)
            && MatchIdem(idem[k := Keyed(idem[k].value, Tombstone(held, limits))], name, h[id := held], now, limits)
  {
    var key := h[id].issued.intent.idempotencyKey;
    forall other | other in h && Live(h[other], now, limits) && name(h[other].issued.intent.idempotencyKey) == name(key)
      ensures other == id
    {
      assert other in Holders(h, key, now, limits) && id in Holders(h, key, now, limits);
    }
    hide Tombstone, Holders, OneHolderPerKey, Injective;
  }

  lemma {:induction false} GrantMatches(st: RedisState, name: string -> string, h: History, id: string, now: Time,
                                        cfg: Config)
    requires Matches(st, name, h, now, cfg.limits) && OneHolderPerKey(h, now, cfg.limits) && Injective(name)
    requires cfg.Positive() && Exists(st.hashes, id, now) && id in h && h[id].phase.Waiting?
    ensures var claimed := ClaimedSession(st.hashes[id].value, now, cfg.limits);
            var k, sk := name(h[id].issued.intent.idempotencyKey), name(h[id].issued.intent.subjectID);
            && Exists(st.idem, k, now)
            && Matches(RedisState(st.hashes[id := Keyed(claimed, claimed.tombstoneExpiresAt)],
                                  st.idem[k := Keyed(st.idem[k].value, claimed.tombstoneExpiresAt)],
                                  st.leases[id := claimed.expiresAt],
                                  st.subjects[sk := SubjectSet(st.subjects, sk)[id := claimed.expiresAt]]),
                       name, h[id := h[id].(phase := Held(now))], now, cfg.limits)
  {
    var limits, held := cfg.limits, h[id].(phase := Held(now));
    MatchedHash(st, name, h, id, now, limits);
    var claimed := ClaimedSession(st.hashes[id].value, now, limits);
    assert HashOf(held, limits) == claimed && Tombstone(held, limits) == claimed.tombstoneExpiresAt;
    assert Active(held, now, limits) && LeaseEnd(held, limits) == claimed.expiresAt;
    hide HashOf, Tombstone, LeaseEnd, OneHolderPerKey, Injective, MatchHashes, MatchIdem, MatchGlobal, MatchSubjects,
         ClaimedSession;
    HashesFollow(st.hashes, h, id, held, limits);
    GrantKeepsIdem(st.idem, name, h, id, held, now, limits);
    GlobalFollows(st.leases, h, id, held, now, limits);
    SubjectsFollow(st.subjects, name, h, id, held, now, limits);
  }

  lemma {:induction false} ReturnMatches(st: RedisState, name: string -> string, h: History, id: string, now: Time,
                                         reason: string, limits: ClaimLimits)
    requires Matches(st, name, h, now, limits) && id in h && id in st.hashes && h[id].phase.Held?
    ensures var r := h[id].(phase := Released(h[id].phase.since, now, reason));
            var sk := name(h[id].issued.intent.subjectID);
            Matches(SetHash(st, id, ReleasedSession(st.hashes[id].value, now, reason))
                      .(leases := st.leases - {id},
                        subjects := st.subjects[sk := SubjectSet(st.subjects, sk) - {id}]),
                    name, h[id := r], now, limits)
  {
    var r := h[id].(phase := Released(h[id].phase.since, now, reason));
    MatchedHash(st, name, h, id, now, limits);
    assert HashOf(r, limits) == ReleasedSession(st.hashes[id].value, now, reason);
    assert Tombstone(r, limits) == Tombstone(h[id], limits) && !Active(r, now, limits);
    hide HashOf, Tombstone, LeaseEnd, ReleasedSession, MatchHashes, MatchIdem, MatchGlobal, MatchSubjects;
    HashesFollow(st.hashes, h, id, r, limits);
    IdemStays(st.idem, name, h, id, r, now, limits);
    GlobalFollows(st.leases, h, id, r, now, limits);
    SubjectsFollow(st.subjects, name, h, id, r, now, limits);
  }

  // -------------------------------------------------------------- each call

  /** A close that names a wrong lease for a session whose lease ran out unclosed. */
  ghost predicate WrongLateClose(h: History, call: Call, limits: ClaimLimits) {
    && call.op.Close?
    && call.op.id in h
    && Live(h[call.op.id], call.at, limits)
    && h[call.op.id].phase.Held?
    && LeaseEnd(h[call.op.id], limits) <= call.at
    && call.op.leaseID != LeaseIDFor(call.op.id)
  }

  /** What Redis answers: the expected reply, but it still wants the right lease from a late close. */
  ghost function RedisReply(h: History, call: Call, limits: ClaimLimits): Reply {
    if WrongLateClose(h, call, limits) then Refused(FailedPrecondition) else Expected(h, call, limits)
  }

  /** The one disagreement leaves no trace in the ledger. */
  lemma {:induction false} LateCloseLeavesNoTrace(h: History, call: Call, limits: ClaimLimits)
    requires WrongLateClose(h, call, limits)
    ensures Expected(h, call, limits) == Done
    ensures Observe(h, call, Refused(FailedPrecondition), limits) == h == Observe(h, call, Done, limits)
  {
  }

  lemma {:induction false} KeyHeldBy(st: RedisState, name: string -> string, h: History, key: string, now: Time,
                                     limits: ClaimLimits)
    requires Matches(st, name, h, now, limits) && Injective(name)
    ensures Exists(st.idem, name(key), now) ==>
              var id := st.idem[name(key)].value;
              id in h && Holds(h[id], key, now, limits) && Exists(st.hashes, id, now)
    ensures !Exists(st.idem, name(key), now) ==> Holders(h, key, now, limits) == {}
  {
    if Exists(st.idem, name(key), now) {
      MatchedHash(st, name, h, st.idem[name(key)].value, now, limits);
    } else {
      forall id | id in h && Holds(h[id], key, now, limits) ensures false {
      }
    }
  }

  lemma {:induction false} HeldKeyMatches(st: RedisState, name: string -> string, h: History, call: Call, cfg: Config)
    requires Matches(st, name, h, call.at, cfg.limits) && RecordsOk(h, call.at, cfg) && Admissible(h, call, cfg)
    requires OneHolderPerKey(h, call.at, cfg.limits) && Injective(name) && call.op.Create?
    requires Exists(st.idem, name(call.op.key), call.at)
    ensures var (st', reply) := CreateCall(st, name, call.op.key, call.op.candidate, call.at);
            && reply == Expected(h, call, cfg.limits)
            && Matches(st', name, Observe(h, call, reply, cfg.limits), call.at, cfg.limits)
  {
    var key, now, limits := call.op.key, call.at, cfg.limits;
    var id := st.idem[name(key)].value;
    KeyHeldBy(st, name, h, key, now, limits);
    MatchedHash(st, name, h, id, now, limits);
    assert RecordOk(id, h[id], now, cfg);
    HashOfKeeps(h[id], limits);
    CreateAnsweredByHolder(h, call, id, limits);
    assert h[id].phase.Waiting? ==> st.hashes[id].value == h[id].issued;
    var reply := Expected(h, call, limits);
    hide Matches, HashOf, RecordsOk, RecordOk, Expected, Observe, Holders, Injective, TicketExpired;
    if reply == Refused(FailedPrecondition) {
      RefusalSpendsHolder(h, call, id, limits);
      if h[id].phase.Waiting? {
        SpendMatches(st, name, h, id, now, limits);
      }
    } else {
      NoEntry(h, call, reply, limits);
    }
  }

  lemma {:induction false} SpendMatches(st: RedisState, name: string -> string, h: History, id: string, now: Time,
                                        limits: ClaimLimits)
    requires Matches(st, name, h, now, limits) && id in h && id in st.hashes && h[id].phase.Waiting?
    ensures Matches(SetHash(st, id, TicketExpired(st.hashes[id].value, now)), name, h[id := Spend(h[id], now)], now, limits)
  {
    MatchedHash(st, name, h, id, now, limits);
    assert HashOf(Spend(h[id], now), limits) == TicketExpired(st.hashes[id].value, now);
    assert Tombstone(Spend(h[id], now), limits) == Tombstone(h[id], limits);
    hide Matches;
    QuietChangeMatches(st, name, h, id, Spend(h[id], now), now, limits);
  }

  lemma {:induction false} FreeKeyMatches(st: RedisState, name: string -> string, h: History, call: Call, cfg: Config)
    requires Matches(st, name, h, call.at, cfg.limits) && Admissible(h, call, cfg) && cfg.Positive()
    requires Injective(name) && call.op.Create? && !Exists(st.idem, name(call.op.key), call.at)
    ensures var (st', reply) := CreateCall(st, name, call.op.key, call.op.candidate, call.at);
            && reply == Expected(h, call, cfg.limits)
            && Matches(st', name, Observe(h, call, reply, cfg.limits), call.at, cfg.limits)
  {
    hide Matches, Injective;
    KeyHeldBy(st, name, h, call.op.key, call.at, cfg.limits);
    EnterMatches(st, name, h, call.op.candidate, call.at, cfg);
  }

  lemma {:induction false} CreateMatches(st: RedisState, name: string -> string, h: History, call: Call, cfg: Config)
    requires Matches(st, name, h, call.at, cfg.limits) && Inv(h, call.at, cfg) && Admissible(h, call, cfg)
    requires cfg.Positive() && Injective(name) && call.op.Create?
    ensures var (st', reply) := CreateCall(st, name, call.op.key, call.op.candidate, call.at);
            && reply == Expected(h, call, cfg.limits)
            && Matches(st', name, Observe(h, call, reply, cfg.limits), call.at, cfg.limits)
  {
    hide Matches, Injective, RecordsOk, OneHolderPerKey, WithinCapacity, CreateCall, Expected, Observe, Admissible;
    if Exists(st.idem, name(call.op.key), call.at) {
      HeldKeyMatches(st, name, h, call, cfg);
    } else {
      FreeKeyMatches(st, name, h, call, cfg);
    }
  }

  /** A claim of a session that is no longer issued only prunes. */
  lemma {:induction false} ClaimSettledMatches(st: RedisState, name: string -> string, h: History, call: Call,
                                               cfg: Config)
    requires call.op.Claim? && call.op.id in h && Exists(st.hashes, call.op.id, call.at)
    requires st.hashes[call.op.id].value == HashOf(h[call.op.id], cfg.limits) && Live(h[call.op.id], call.at, cfg.limits)
    requires RecordOk(call.op.id, h[call.op.id], call.at, cfg) && !h[call.op.id].phase.Waiting?
    requires Matches(PrunedState(st, name(h[call.op.id].issued.intent.subjectID), call.at), name, h, call.at, cfg.limits)
    ensures var (st', reply) := ClaimCall(st, name, call.op.id, call.op.digest, call.at, cfg.limits);
            && reply == Expected(h, call, cfg.limits)
            && Matches(st', name, Observe(h, call, reply, cfg.limits), call.at, cfg.limits)
  {
    HashOfKeeps(h[call.op.id], cfg.limits);
    assert !st.hashes[call.op.id].value.state.Issued?;
    assert h[call.op.id := h[call.op.id]] == h;
    hide Matches, HashOf, RecordOk, Pruned, ActiveIDs, ActiveFor, TicketExpired, ClaimedSession;
  }

  lemma {:induction false} ClaimMatches(st: RedisState, name: string -> string, h: History, call: Call, cfg: Config)
    requires Matches(st, name, h, call.at, cfg.limits) && RecordsOk(h, call.at, cfg) && OneHolderPerKey(h, call.at, cfg.limits)
    requires cfg.Positive() && Injective(name) && call.op.Claim?
    ensures var (st', reply) := ClaimCall(st, name, call.op.id, call.op.digest, call.at, cfg.limits);
            && reply == Expected(h, call, cfg.limits)
            && Matches(st', name, Observe(h, call, reply, cfg.limits), call.at, cfg.limits)
  {
    var id, now, limits := call.op.id, call.at, cfg.limits;
    MatchedHash(st, name, h, id, now, limits);
    if Exists(st.hashes, id, now) {
      var r, subject := h[id], h[id].issued.intent.subjectID;
      hide Matches, OneHolderPerKey, Injective, Pruned, ActiveIDs, ActiveFor;
      assert RecordOk(id, r, now, cfg);
      hide RecordsOk;
      var pruned := PrunedState(st, name(subject), now);
      PruneMatches(st, name, subject, h, now, limits);
      if r.phase.Waiting? {
        hide RecordOk, ClaimCall, Observe, Expected;
        ClaimWaitingMatches(st, pruned, name, h, call, cfg);
      } else {
        ClaimSettledMatches(st, name, h, call, cfg);
        hide RecordOk, ClaimCall, Observe, Expected;
      }
    } else {
      hide Matches, RecordsOk;
    }
  }

  lemma {:induction false} ClaimWaitingMatches(st: RedisState, pruned: RedisState, name: string -> string, h: History,
                                               call: Call, cfg: Config)
    requires call.op.Claim? && call.op.id in h && Exists(st.hashes, call.op.id, call.at)
    requires pruned == PrunedState(st, name(h[call.op.id].issued.intent.subjectID), call.at)
    requires Matches(pruned, name, h, call.at, cfg.limits)
    requires OneHolderPerKey(h, call.at, cfg.limits) && Injective(name) && cfg.Positive()
    requires h[call.op.id].phase.Waiting? && Live(h[call.op.id], call.at, cfg.limits)
    requires st.hashes[call.op.id].value == h[call.op.id].issued
    requires RecordOk(call.op.id, h[call.op.id], call.at, cfg)
    requires |pruned.leases| == |ActiveIDs(h, call.at, cfg.limits)|
    requires var subject := h[call.op.id].issued.intent.subjectID;
             |pruned.subjects[name(subject)]| == |ActiveFor(h, subject, call.at, cfg.limits)|
    ensures var (st', reply) := ClaimCall(st, name, call.op.id, call.op.digest, call.at, cfg.limits);
            && reply == Expected(h, call, cfg.limits)
            && Matches(st', name, Observe(h, call, reply, cfg.limits), call.at, cfg.limits)
  {
    hide Matches, OneHolderPerKey, Injective, Pruned, ActiveIDs, ActiveFor, RecordOk, ClaimCall, Observe, Expected;
    if Expected(h, call, cfg.limits).Leased? {
      ClaimGrantedMatches(st, pruned, name, h, call, cfg);
    } else {
      ClaimRefusedMatches(st, pruned, name, h, call, cfg);
    }
  }

  lemma {:induction false} ClaimRefusedMatches(st: RedisState, pruned: RedisState, name: string -> string, h: History,
                                               call: Call, cfg: Config)
    requires call.op.Claim? && call.op.id in h && Exists(st.hashes, call.op.id, call.at)
    requires pruned == PrunedState(st, name(h[call.op.id].issued.intent.subjectID), call.at)
    requires Matches(pruned, name, h, call.at, cfg.limits)
    requires OneHolderPerKey(h, call.at, cfg.limits) && Injective(name) && cfg.Positive()
    requires h[call.op.id].phase.Waiting? && Live(h[call.op.id], call.at, cfg.limits)
    requires st.hashes[call.op.id].value == h[call.op.id].issued
    requires RecordOk(call.op.id, h[call.op.id], call.at, cfg)
    requires |pruned.leases| == |ActiveIDs(h, call.at, cfg.limits)|
    requires var subject := h[call.op.id].issued.intent.subjectID;
             |pruned.subjects[name(subject)]| == |ActiveFor(h, subject, call.at, cfg.limits)|
    requires !Expected(h, call, cfg.limits).Leased?
    ensures var (st', reply) := ClaimCall(st, name, call.op.id, call.op.digest, call.at, cfg.limits);
            && reply == Expected(h, call, cfg.limits)
            && Matches(st', name, Observe(h, call, reply, cfg.limits), call.at, cfg.limits)
  {
    var id, now, limits := call.op.id, call.at, cfg.limits;
    hide Matches, OneHolderPerKey, Injective, Pruned, ActiveIDs, ActiveFor, TicketExpired, RecordOk, SubjectSet;
    RefusedCall(st, pruned, name, h, call, limits);
    if Expected(h, call, limits) == Refused(FailedPrecondition) {
      SpendMatches(pruned, name, h, id, now, limits);
    }
    hide ClaimCall;
  }

  /** A claim of a waiting session that is refused writes at most that its ticket ran out. */
  lemma {:induction false} RefusedCall(st: RedisState, pruned: RedisState, name: string -> string, h: History,
                                       call: Call, limits: ClaimLimits)
    requires call.op.Claim? && call.op.id in h && Exists(st.hashes, call.op.id, call.at)
    requires pruned == PrunedState(st, name(h[call.op.id].issued.intent.subjectID), call.at)
    requires h[call.op.id].phase.Waiting? && Live(h[call.op.id], call.at, limits)
    requires st.hashes[call.op.id].value == h[call.op.id].issued && h[call.op.id].issued.state.Issued?
    requires |pruned.leases| == |ActiveIDs(h, call.at, limits)|
    requires var subject := h[call.op.id].issued.intent.subjectID;
             |pruned.subjects[name(subject)]| == |ActiveFor(h, subject, call.at, limits)|
    requires !Expected(h, call, limits).Leased?
    ensures ClaimCall(st, name, call.op.id, call.op.digest, call.at, limits) ==
            (if Expected(h, call, limits) == Refused(FailedPrecondition)
             then SetHash(pruned, call.op.id, TicketExpired(h[call.op.id].issued, call.at))
             else pruned,
             Expected(h, call, limits))
  {
    hide Pruned, ActiveIDs, ActiveFor, TicketExpired, SubjectSet;
  }

  lemma {:induction false} RecordIsIssued(id: string, r: Record, now: Time, cfg: Config)
    requires RecordOk(id, r, now, cfg)
    ensures r.issued.state.Issued? && r.issued.intent.id == id
  {
  }

  lemma {:induction false} ClaimGrantedMatches(st: RedisState, pruned: RedisState, name: string -> string, h: History,
                                               call: Call, cfg: Config)
    requires call.op.Claim? && call.op.id in h && Exists(st.hashes, call.op.id, call.at)
    requires pruned == PrunedState(st, name(h[call.op.id].issued.intent.subjectID), call.at)
    requires Matches(pruned, name, h, call.at, cfg.limits)
    requires OneHolderPerKey(h, call.at, cfg.limits) && Injective(name) && cfg.Positive()
    requires h[call.op.id].phase.Waiting? && Live(h[call.op.id], call.at, cfg.limits)
    requires st.hashes[call.op.id].value == h[call.op.id].issued
    requires RecordOk(call.op.id, h[call.op.id], call.at, cfg)
    requires |pruned.leases| == |ActiveIDs(h, call.at, cfg.limits)|
    requires var subject := h[call.op.id].issued.intent.subjectID;
             |pruned.subjects[name(subject)]| == |ActiveFor(h, subject, call.at, cfg.limits)|
    requires Expected(h, call, cfg.limits).Leased?
    ensures var (st', reply) := ClaimCall(st, name, call.op.id, call.op.digest, call.at, cfg.limits);
            && reply == Expected(h, call, cfg.limits)
            && Matches(st', name, Observe(h, call, reply, cfg.limits), call.at, cfg.limits)
  {
    hide Matches, OneHolderPerKey, Injective, Pruned, ActiveIDs, ActiveFor, RecordOk, ClaimCall, ClaimedSession, SubjectSet;
    assert h[call.op.id].issued.state.Issued? && h[call.op.id].issued.intent.id == call.op.id by {
      RecordIsIssued(call.op.id, h[call.op.id], call.at, cfg);
    }
    GrantMatches(pruned, name, h, call.op.id, call.at, cfg);
    GrantedCall(st, pruned, name, call, cfg.limits);
  }

  /** A claim script that passes every check writes the grant on top of the pruned sets. */
  lemma {:induction false} GrantedScript(st: RedisState, pruned: RedisState, s: Session, k: string, sk: string,
                                         id: string, digest: Digest, now: Time, limits: ClaimLimits)
    requires Exists(st.hashes, id, now) && st.hashes[id].value == s && pruned == PrunedState(st, sk, now)
    requires Exists(pruned.idem, k, now)
    requires s.state.Issued? && now < s.intent.ticketExpiresAt && s.intent.ticketDigest == digest
    requires |pruned.leases| < limits.maxActive && |pruned.subjects[sk]| < limits.maxActivePerSubject
    ensures var claimed := ClaimedSession(s, now, limits);
            ClaimScript(st, now, now, id, digest, limits, sk, k) ==
            (RedisState(pruned.hashes[id := Keyed(claimed, claimed.tombstoneExpiresAt)],
                        pruned.idem[k := Keyed(pruned.idem[k].value, claimed.tombstoneExpiresAt)],
                        pruned.leases[id := claimed.expiresAt],
                        pruned.subjects[sk := SubjectSet(pruned.subjects, sk)[id := claimed.expiresAt]]),
             0)
  {
    hide Pruned, ClaimedSession;
    var subject := pruned.subjects[sk][id := ClaimedSession(s, now, limits).expiresAt];
    assert pruned.subjects[sk := subject] == st.subjects[sk := subject];
  }

  /** A claim that passes every check writes the grant on top of the pruned sets. */
  lemma {:induction false} GrantedCall(st: RedisState, pruned: RedisState, name: string -> string, call: Call,
                                       limits: ClaimLimits)
    requires call.op.Claim? && Exists(st.hashes, call.op.id, call.at)
    requires var s := st.hashes[call.op.id].value;
             && pruned == PrunedState(st, name(s.intent.subjectID), call.at)
             && Exists(pruned.idem, name(s.intent.idempotencyKey), call.at)
             && s.state.Issued? && call.at < s.intent.ticketExpiresAt && s.intent.ticketDigest == call.op.digest
             && |pruned.leases| < limits.maxActive
             && |pruned.subjects[name(s.intent.subjectID)]| < limits.maxActivePerSubject
    requires 0 < limits.sessionMaxDuration && 0 < limits.idempotencyTTL
    ensures var s, id := st.hashes[call.op.id].value, call.op.id;
            var claimed, k, sk := ClaimedSession(s, call.at, limits), name(s.intent.idempotencyKey), name(s.intent.subjectID);
            ClaimCall(st, name, id, call.op.digest, call.at, limits) ==
            (RedisState(pruned.hashes[id := Keyed(claimed, claimed.tombstoneExpiresAt)],
                        pruned.idem[k := Keyed(pruned.idem[k].value, claimed.tombstoneExpiresAt)],
                        pruned.leases[id := claimed.expiresAt],
                        pruned.subjects[sk := SubjectSet(pruned.subjects, sk)[id := claimed.expiresAt]]),
             Leased(SessionLease(LeaseIDFor(id), claimed, call.at + limits.sessionMaxDuration)))
  {
    hide Pruned, SubjectSet, ClaimScript, PrunedState;
    var s, id := st.hashes[call.op.id].value, call.op.id;
    GrantedScript(st, pruned, s, name(s.intent.idempotencyKey), name(s.intent.subjectID), id, call.op.digest, call.at, limits);
    assert call.at < ClaimedSession(s, call.at, limits).tombstoneExpiresAt;
    hide ClaimedSession;
  }

  lemma {:induction false} CloseMatches(st: RedisState, name: string -> string, h: History, call: Call, cfg: Config)
    requires Matches(st, name, h, call.at, cfg.limits) && RecordsOk(h, call.at, cfg) && call.op.Close?
    ensures var (st', reply) := CloseCall(st, name, call.op.id, call.op.leaseID, call.op.reason, call.at);
            && reply == RedisReply(h, call, cfg.limits)
            && Matches(st', name, Observe(h, call, reply, cfg.limits), call.at, cfg.limits)
  {
    var id, now, limits := call.op.id, call.at, cfg.limits;
    MatchedHash(st, name, h, id, now, limits);
    if Exists(st.hashes, id, now) {
      assert RecordOk(id, h[id], now, cfg);
      HashOfKeeps(h[id], limits);
      hide Matches, RecordsOk;
      if h[id].phase.Held? {
        CloseHeldMatches(st, name, h, call, cfg);
        hide CloseCall, RedisReply, Observe;
      }
      hide HashOf, RecordOk, ReleasedSession, SubjectSet;
    }
  }

  lemma {:induction false} HeldHash(r: Record, limits: ClaimLimits)
    requires r.phase.Held?
    ensures HashOf(r, limits).state.Claimed? && HashOf(r, limits).leaseID == LeaseIDFor(r.issued.intent.id)
  {
  }

  lemma {:induction false} CloseHeldMatches(st: RedisState, name: string -> string, h: History, call: Call, cfg: Config)
    requires Matches(st, name, h, call.at, cfg.limits) && call.op.Close? && Exists(st.hashes, call.op.id, call.at)
    requires call.op.id in h && RecordOk(call.op.id, h[call.op.id], call.at, cfg) && h[call.op.id].phase.Held?
    ensures var (st', reply) := CloseCall(st, name, call.op.id, call.op.leaseID, call.op.reason, call.at);
            && reply == RedisReply(h, call, cfg.limits)
            && Matches(st', name, Observe(h, call, reply, cfg.limits), call.at, cfg.limits)
  {
    hide Matches, HashOf;
    var id, now, limits := call.op.id, call.at, cfg.limits;
    MatchedHash(st, name, h, id, now, limits);
    HashOfKeeps(h[id], limits);
    HeldHash(h[id], limits);
    ReturnMatches(st, name, h, id, now, call.op.reason, limits);
    hide RecordOk, ReleasedSession, SubjectSet;
  }

  /** One call of Redis answers as the ledger says Redis does, and keeps the match. */
  lemma {:induction false} StepMatches(st: RedisState, name: string -> string, h: History, call: Call, cfg: Config)
    requires Matches(st, name, h, call.at, cfg.limits) && Inv(h, call.at, cfg) && Admissible(h, call, cfg)
    requires cfg.Positive() && Injective(name)
    ensures var (st', reply) := Step(st, name, call, cfg.limits);
            && reply == RedisReply(h, call, cfg.limits)
            && Matches(st', name, Observe(h, call, Expected(h, call, cfg.limits), cfg.limits), call.at, cfg.limits)
  {
    hide Matches, Injective, RecordsOk, OneHolderPerKey, WithinCapacity, Observe, Expected, Admissible, CreateCall,
         ClaimCall, CloseCall;
    match call.op
    case Create(_, _) => CreateMatches(st, name, h, call, cfg);
    case Claim(_, _) => ClaimMatches(st, name, h, call, cfg);
    case Close(_, _, _) =>
      CloseMatches(st, name, h, call, cfg);
      if WrongLateClose(h, call, cfg.limits) {
        LateCloseLeavesNoTrace(h, call, cfg.limits);
      }
  }

  // ------------------------------------------------------------------ runs

  /** The Redis store after the first n calls, each run without interruption. */
  function StateAt(calls: seq<Call>, n: nat, name: string -> string, limits: ClaimLimits): RedisState
    requires n <= |calls|
  {
    if n == 0 then EMPTY else Step(StateAt(calls, n - 1, name, limits), name, calls[n - 1], limits).0
  }

  function AnswerAt(calls: seq<Call>, n: nat, name: string -> string, limits: ClaimLimits): Reply
    requires n < |calls|
  {
    Step(StateAt(calls, n, name, limits), name, calls[n], limits).1
  }

  lemma {:induction false} StartMatches(calls: seq<Call>, name: string -> string, limits: ClaimLimits)
    ensures Matches(StateAt(calls, 0, name, limits), name, LedgerAt(calls, 0, limits), ZERO_TIME, limits)
  {
    assert LedgerAt(calls, 0, limits) == map[];
    var st := StateAt(calls, 0, name, limits);
    forall subjectKey ensures MatchSubject(SubjectSet(st.subjects, subjectKey), name, subjectKey, map[], ZERO_TIME, limits) {
    }
  }

  /** After any run, at any later instant, Redis matches the ledger. */
  lemma {:induction false} RunMatches(calls: seq<Call>, n: nat, now: Time, name: string -> string, cfg: Config)
    requires ValidRun(calls, cfg) && n <= |calls| && ClockAt(calls, n) <= now && Injective(name)
    ensures Matches(StateAt(calls, n, name, cfg.limits), name, LedgerAt(calls, n, cfg.limits), now, cfg.limits)
    decreases n
  {
    hide Matches, LedgerAt, Injective, AllHaveOrigins, Inv, Admissible, Expected, Observe, Step;
    if n == 0 {
      StartMatches(calls, name, cfg.limits);
    } else {
      assert ProperCall(calls[n - 1], cfg);
      hide ProperCall;
      RunMatches(calls, n - 1, calls[n - 1].at, name, cfg);
      RunIsAdmissible(calls, n - 1, cfg);
      LedgerGrows(calls, n - 1, cfg.limits);
      StepMatches(StateAt(calls, n - 1, name, cfg.limits), name, LedgerAt(calls, n - 1, cfg.limits), calls[n - 1], cfg);
    }
    MatchesLater(StateAt(calls, n, name, cfg.limits), name, LedgerAt(calls, n, cfg.limits), ClockAt(calls, n), now, cfg.limits);
  }

  lemma {:induction false} RedisAnswersFromLedger(calls: seq<Call>, n: nat, name: string -> string, cfg: Config)
    requires ValidRun(calls, cfg) && n < |calls| && Injective(name)
    ensures AnswerAt(calls, n, name, cfg.limits) == RedisReply(LedgerAt(calls, n, cfg.limits), calls[n], cfg.limits)
  {
    hide Matches, LedgerAt, StateAt, Injective, AllHaveOrigins, Inv, Admissible, Expected, Observe, Step, RedisReply;
    assert ProperCall(calls[n], cfg);
    hide ProperCall;
    RunMatches(calls, n, calls[n].at, name, cfg);
    RunIsAdmissible(calls, n, cfg);
    StepMatches(StateAt(calls, n, name, cfg.limits), name, LedgerAt(calls, n, cfg.limits), calls[n], cfg);
  }
}
