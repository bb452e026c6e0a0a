/** The mutex-guarded in-memory session store.  Every method runs under the mutex, so each is one step. */
module MemoryStore {
  import opened Sessions
  import opened Ledger

  datatype StoreState = StoreState(
    sessions: map<string, Session>,
    byKey: map<string, string>,
    leases: map<string, SessionLease>)

  const EMPTY := StoreState(map[], map[], map[])

  // ------------------------------------------------------- specification

  /** The sweep of a store at an instant: ended leases close their sessions, then
      sessions past their tombstone vanish with their keys. */
  function Sweep(st: StoreState, now: Time): StoreState {
    DropTombstones(EndLeases(st, now), now)
  }

  function EndLeases(st: StoreState, now: Time): StoreState {
    StoreState(
      map id | id in st.sessions :: Ended(st, id, now),
      st.byKey,
      map id | id in st.leases && now < st.leases[id].expiresAt :: st.leases[id])
  }

  function Ended(st: StoreState, id: string, now: Time): Session
    requires id in st.sessions
  {
    if id in st.leases && st.leases[id].expiresAt <= now
    then LapsedSession(st.sessions[id], st.leases[id].expiresAt)
    else st.sessions[id]
  }

  predicate Forgotten(st: StoreState, id: string, now: Time) {
    id in st.sessions && st.sessions[id].tombstoneExpiresAt <= now
  }

  function DropTombstones(st: StoreState, now: Time): StoreState {
    StoreState(
      map id | id in st.sessions && !Forgotten(st, id, now) :: st.sessions[id],
      map key | key in st.byKey && !Forgotten(st, st.byKey[key], now) :: st.byKey[key],
      map id | id in st.leases && !Forgotten(st, id, now) :: st.leases[id])
  }

  function LeasesFor(leases: map<string, SessionLease>, subject: string): set<string> {
    set id | id in leases && leases[id].session.intent.subjectID == subject
  }

  /** What create does once the store is swept. */
  function CreateAct(st: StoreState, key: string, candidate: Session): (StoreState, Reply) {
    if key in st.byKey && st.byKey[key] in st.sessions then
      var id := st.byKey[key];
      var existing, now := st.sessions[id], candidate.intent.createdAt;
      if existing.intent.fingerprint != candidate.intent.fingerprint then
        (st, Refused(Conflict))
      else if !existing.state.Issued? then
        (st, Refused(FailedPrecondition))
      else if existing.intent.ticketExpiresAt <= now then
        (st.(sessions := st.sessions[id := TicketExpired(existing, now)]), Refused(FailedPrecondition))
      else
        (st, Created(existing, true))
    else
      (StoreState(st.sessions[candidate.intent.id := candidate], st.byKey[key := candidate.intent.id], st.leases),
       Created(candidate, false))
  }

  /** What claim does once the store is swept. */
  function ClaimAct(st: StoreState, id: string, digest: Digest, now: Time, limits: ClaimLimits): (StoreState, Reply) {
    if id !in st.sessions then
      (st, Refused(NotFound))
    else if !st.sessions[id].state.Issued? then
      (st, Refused(FailedPrecondition))
    else if st.sessions[id].intent.ticketExpiresAt <= now then
      (st.(sessions := st.sessions[id := TicketExpired(st.sessions[id], now)]), Refused(FailedPrecondition))
    else if st.sessions[id].intent.ticketDigest != digest then
      (st, Refused(InvalidTicket))
    else if limits.maxActive <= |st.leases| then
      (st, Refused(Capacity))
    else if limits.maxActivePerSubject <= |LeasesFor(st.leases, st.sessions[id].intent.subjectID)| then
      (st, Refused(Capacity))
    else
      var claimed := ClaimedSession(st.sessions[id], now, limits);
      var lease := SessionLease(LeaseIDFor(id), claimed, claimed.expiresAt);
      (StoreState(st.sessions[id := claimed], st.byKey, st.leases[id := lease]), Leased(lease))
  }

  /** What close does once the store is swept. */
  function CloseAct(st: StoreState, id: string, leaseID: string, reason: string, now: Time): (StoreState, Reply) {
    if id !in st.sessions then
      (st, Refused(NotFound))
    else if st.sessions[id].state.Closed? then
      (st, Done)
    else if !st.sessions[id].state.Claimed? || st.sessions[id].leaseID != leaseID then
      (st, Refused(FailedPrecondition))
    else
      (StoreState(
         st.sessions[id := ReleasedSession(st.sessions[id], now, reason)],
         st.byKey,
         st.leases - {id}),
       Done)
  }

  function Act(st: StoreState, call: Call, limits: ClaimLimits): (StoreState, Reply) {
    match call.op
    case Create(key, candidate) => CreateAct(st, key, candidate)
    case Claim(id, digest) => ClaimAct(st, id, digest, call.at, limits)
    case Close(id, leaseID, reason) => CloseAct(st, id, leaseID, reason, call.at)
  }

  /** One call: sweep at its instant, then act. */
  function Step(st: StoreState, call: Call, limits: ClaimLimits): (StoreState, Reply) {
    Act(Sweep(st, call.at), call, limits)
  }

  function FindByKey(st: StoreState, key: string): Option<Session> {
    if key in st.byKey && st.byKey[key] in st.sessions then Some(st.sessions[st.byKey[key]]) else None
  }

  // ------------------------------------------------ representation invariant

  /** Keys and sessions point at each other, and only known sessions have leases. */
  ghost predicate Indexed(st: StoreState) {
    && (forall key :: key in st.byKey ==>
          st.byKey[key] in st.sessions && st.sessions[st.byKey[key]].intent.idempotencyKey == key)
    && (forall id :: id in st.sessions ==>
          var key := st.sessions[id].intent.idempotencyKey;
          key in st.byKey && st.byKey[key] == id)
    && (forall id :: id in st.leases ==> id in st.sessions)
  }

  ghost predicate SessionOk(st: StoreState, id: string)
    requires id in st.sessions
  {
    var s := st.sessions[id];
    && s.intent.id == id
    && (s.state.Issued? <==> s.ciphertext != "")
    && (s.state.Claimed? <==> id in st.leases)
    && (s.state.Claimed? ==>
          s.expiresAt < s.tombstoneExpiresAt && st.leases[id] == SessionLease(LeaseIDFor(id), s, s.expiresAt))
  }

  ghost predicate Rep(st: StoreState) {
    Indexed(st) && forall id :: id in st.sessions ==> SessionOk(st, id)
  }

  /** A candidate that the index has room for. */
  ghost predicate Enters(st: StoreState, key: string, candidate: Session) {
    && candidate.intent.idempotencyKey == key
    && candidate.intent.id !in st.sessions
    && candidate.state.Issued?
    && candidate.ciphertext != ""
  }

  lemma {:induction false} EndLeasesKeepsRep(st: StoreState, now: Time)
    requires Rep(st)
    ensures Rep(EndLeases(st, now))
  {
  }

  lemma {:induction false} DropTombstonesKeepsRep(st: StoreState, now: Time)
    requires Rep(st)
    ensures Rep(DropTombstones(st, now))
  {
  }

  lemma {:induction false} SweepKeepsRep(st: StoreState, now: Time)
    requires Rep(st)
    ensures Rep(Sweep(st, now))
  {
    EndLeasesKeepsRep(st, now);
    DropTombstonesKeepsRep(EndLeases(st, now), now);
  }

  lemma {:induction false} ActKeepsRep(st: StoreState, call: Call, limits: ClaimLimits)
    requires Rep(st) && 0 < limits.idempotencyTTL
    requires call.op.Create? ==> Enters(st, call.op.key, call.op.candidate)
    ensures Rep(Act(st, call, limits).0)
  {
    match call.op
    case Create(key, candidate) => CreateKeepsRep(st, key, candidate);
    case Claim(id, digest) => ClaimKeepsRep(st, id, digest, call.at, limits);
    case Close(id, leaseID, reason) => CloseKeepsRep(st, id, leaseID, reason, call.at);
  }

  lemma {:induction false} CreateKeepsRep(st: StoreState, key: string, candidate: Session)
    requires Rep(st) && Enters(st, key, candidate)
    ensures Rep(CreateAct(st, key, candidate).0)
  {
    var id := candidate.intent.id;
    if key in st.byKey {
      var existing := st.sessions[st.byKey[key]];
      if existing.state.Issued? {
        assert st.leases - {st.byKey[key]} == st.leases;
        ChangeKeepsRep(st, st.byKey[key], TicketExpired(existing, candidate.intent.createdAt), st.leases);
      }
    } else {
      var st' := CreateAct(st, key, candidate).0;
      assert Indexed(st');
      forall other | other in st'.sessions ensures SessionOk(st', other) {
        assert other != id ==> SessionOk(st, other);
      }
    }
  }

  lemma {:induction false} IssuedHasNoLease(st: StoreState, id: string)
    requires Rep(st) && id in st.sessions && st.sessions[id].state.Issued?
    ensures st.leases - {id} == st.leases && st.sessions[id].intent.id == id
  {
    assert SessionOk(st, id);
  }

  lemma {:induction false} ClaimKeepsRep(st: StoreState, id: string, digest: Digest, now: Time, limits: ClaimLimits)
    requires Rep(st) && 0 < limits.idempotencyTTL
    ensures Rep(ClaimAct(st, id, digest, now, limits).0)
  {
    hide Rep, LeaseIDFor;
    if id in st.sessions && st.sessions[id].state.Issued? {
      var s := st.sessions[id];
      var lease := SessionLease(LeaseIDFor(id), ClaimedSession(s, now, limits), now + limits.sessionMaxDuration);
      IssuedHasNoLease(st, id);
      ChangeKeepsRep(st, id, TicketExpired(s, now), st.leases);
      ChangeKeepsRep(st, id, ClaimedSession(s, now, limits), st.leases[id := lease]);
    }
  }

  /** Changing one session, and its lease along with it, keeps the rest in place. */
  lemma {:induction false} ChangeKeepsRep(st: StoreState, id: string, s: Session, leases: map<string, SessionLease>)
    requires Rep(st) && id in st.sessions && s.intent == st.sessions[id].intent
    requires leases == if s.state.Claimed? then st.leases[id := SessionLease(LeaseIDFor(id), s, s.expiresAt)]
                       else st.leases - {id}
    requires s.state.Issued? <==> s.ciphertext != ""
    requires s.state.Claimed? ==> s.expiresAt < s.tombstoneExpiresAt
    ensures Rep(StoreState(st.sessions[id := s], st.byKey, leases))
  {
    var st' := StoreState(st.sessions[id := s], st.byKey, leases);
    assert Indexed(st');
    forall other | other in st'.sessions ensures SessionOk(st', other) {
      assert other != id ==> SessionOk(st, other);
    }
  }

  lemma {:induction false} CloseKeepsRep(st: StoreState, id: string, leaseID: string, reason: string, now: Time)
    requires Rep(st)
    ensures Rep(CloseAct(st, id, leaseID, reason, now).0)
  {
    if id in st.sessions {
      ChangeKeepsRep(st, id, ReleasedSession(st.sessions[id], now, reason), st.leases - {id});
    }
  }

  // ------------------------------------------------- the sweep, half done

  /** The first loop of the sweep with the leases in `todo` still to visit. */
  ghost function EndLeasesBut(st: StoreState, todo: set<string>, now: Time): StoreState {
    StoreState(
      map id | id in st.sessions :: if id in todo then st.sessions[id] else Ended(st, id, now),
      st.byKey,
      map id | id in st.leases && (id in todo || now < st.leases[id].expiresAt) :: st.leases[id])
  }

  lemma {:induction false} EndingStarts(st: StoreState, now: Time)
    ensures EndLeasesBut(st, st.leases.Keys, now) == st
  {
    var all := EndLeasesBut(st, st.leases.Keys, now);
    assert all.sessions == st.sessions && all.leases == st.leases;
  }

  lemma {:induction false} EndingStep(st: StoreState, todo: set<string>, id: string, now: Time)
    requires Indexed(st) && id in todo && todo <= st.leases.Keys
    ensures var at, next := EndLeasesBut(st, todo, now), EndLeasesBut(st, todo - {id}, now);
            && id in at.leases && at.leases[id] == st.leases[id]
            && id in at.sessions && at.sessions[id] == st.sessions[id]
            && next == if st.leases[id].expiresAt <= now
                       then StoreState(at.sessions[id := Ended(st, id, now)], at.byKey, at.leases - {id})
                       else at
  {
    var at, next := EndLeasesBut(st, todo, now), EndLeasesBut(st, todo - {id}, now);
    if st.leases[id].expiresAt <= now {
      assert next.sessions == at.sessions[id := Ended(st, id, now)];
      assert next.leases == at.leases - {id};
    } else {
      assert next.sessions == at.sessions;
      assert next.leases == at.leases;
    }
  }

  lemma {:induction false} EndingEnds(st: StoreState, now: Time)
    ensures EndLeasesBut(st, {}, now) == EndLeases(st, now)
  {
    var a, b := EndLeasesBut(st, {}, now), EndLeases(st, now);
    assert a.sessions == b.sessions && a.leases == b.leases;
  }

  ghost predicate Dropped(st: StoreState, todo: set<string>, id: string, now: Time)
    requires id in st.sessions
  {
    Forgotten(st, id, now) && st.sessions[id].intent.idempotencyKey !in todo
  }

  /** The second loop of the sweep with the keys in `todo` still to visit. */
  ghost function DropTombstonesBut(st: StoreState, todo: set<string>, now: Time): StoreState
    requires Indexed(st)
  {
    StoreState(
      map id | id in st.sessions && !Dropped(st, todo, id, now) :: st.sessions[id],
      map key | key in st.byKey && !Dropped(st, todo, st.byKey[key], now) :: st.byKey[key],
      map id | id in st.leases && !Dropped(st, todo, id, now) :: st.leases[id])
  }

  lemma {:induction false} DroppingStarts(st: StoreState, now: Time)
    requires Indexed(st)
    ensures DropTombstonesBut(st, st.byKey.Keys, now) == st
  {
    var all := DropTombstonesBut(st, st.byKey.Keys, now);
    assert all.sessions == st.sessions && all.byKey == st.byKey && all.leases == st.leases;
  }

  lemma {:induction false} DroppedStep(st: StoreState, todo: set<string>, key: string, now: Time, id: string)
    requires Indexed(st) && key in todo && todo <= st.byKey.Keys && id in st.sessions
    ensures !Dropped(st, todo, st.byKey[key], now)
    ensures Dropped(st, todo - {key}, id, now)
       <==> Dropped(st, todo, id, now) || (id == st.byKey[key] && Forgotten(st, id, now))
  {
  }

  lemma {:induction false} DroppingStepKeys(st: StoreState, todo: set<string>, key: string, now: Time)
    requires Indexed(st) && key in todo && todo <= st.byKey.Keys
    ensures var at, next := DropTombstonesBut(st, todo, now).byKey, DropTombstonesBut(st, todo - {key}, now).byKey;
            && key in at
            && at[key] == st.byKey[key]
            && next == if Forgotten(st, st.byKey[key], now) then at - {key} else at
  {
    DroppedStep(st, todo, key, now, st.byKey[key]);
    forall other | other in st.byKey
      ensures Dropped(st, todo - {key}, st.byKey[other], now)
         <==> Dropped(st, todo, st.byKey[other], now) || (other == key && Forgotten(st, st.byKey[key], now))
    {
      DroppedStep(st, todo, key, now, st.byKey[other]);
    }
    hide Dropped, Forgotten;
  }

  lemma {:induction false} DroppedNext(st: StoreState, todo: set<string>, key: string, now: Time)
    requires Indexed(st) && key in todo && todo <= st.byKey.Keys
    ensures forall other | other in st.sessions ::
              Dropped(st, todo - {key}, other, now)
              <==> Dropped(st, todo, other, now) || (other == st.byKey[key] && Forgotten(st, other, now))
  {
    forall other | other in st.sessions
      ensures Dropped(st, todo - {key}, other, now)
         <==> Dropped(st, todo, other, now) || (other == st.byKey[key] && Forgotten(st, other, now))
    {
      DroppedStep(st, todo, key, now, other);
    }
  }

  lemma {:induction false} DroppingStepSessions(st: StoreState, todo: set<string>, key: string, now: Time)
    requires Indexed(st) && key in todo && todo <= st.byKey.Keys
    ensures var at, next := DropTombstonesBut(st, todo, now).sessions, DropTombstonesBut(st, todo - {key}, now).sessions;
            var id := st.byKey[key];
            && id in at && at[id] == st.sessions[id]
            && next == if Forgotten(st, id, now) then at - {id} else at
  {
    DroppedStep(st, todo, key, now, st.byKey[key]);
    DroppedNext(st, todo, key, now);
    hide Dropped, Forgotten, Indexed;
  }

  lemma {:induction false} DroppingStepLeases(st: StoreState, todo: set<string>, key: string, now: Time)
    requires Indexed(st) && key in todo && todo <= st.byKey.Keys
    ensures var at, next := DropTombstonesBut(st, todo, now).leases, DropTombstonesBut(st, todo - {key}, now).leases;
            next == if Forgotten(st, st.byKey[key], now) then at - {st.byKey[key]} else at
  {
    assert forall id :: id in st.leases ==> id in st.sessions;
    DroppedNext(st, todo, key, now);
    hide Dropped, Forgotten, Indexed;
  }

  lemma {:induction false} DroppingStep(st: StoreState, todo: set<string>, key: string, now: Time)
    requires Indexed(st) && key in todo && todo <= st.byKey.Keys
    ensures var at, next := DropTombstonesBut(st, todo, now), DropTombstonesBut(st, todo - {key}, now);
            var id := st.byKey[key];
            && key in at.byKey && at.byKey[key] == id
            && id in at.sessions && at.sessions[id] == st.sessions[id]
            && next == if Forgotten(st, id, now)
                       then StoreState(at.sessions - {id}, at.byKey - {key}, at.leases - {id})
                       else at
  {
    DroppingStepKeys(st, todo, key, now);
    DroppingStepSessions(st, todo, key, now);
    DroppingStepLeases(st, todo, key, now);
    hide DropTombstonesBut, Forgotten, Indexed;
  }

  lemma {:induction false} DroppingEnds(st: StoreState, now: Time)
    requires Indexed(st)
    ensures DropTombstonesBut(st, {}, now) == DropTombstones(st, now)
  {
    var a, b := DropTombstonesBut(st, {}, now), DropTombstones(st, now);
    assert a.sessions == b.sessions && a.byKey == b.byKey && a.leases == b.leases;
  }

  // ------------------------------------------------------------- the store

  /** The leases of one subject outside `todo`. */
  ghost function Counted(leases: map<string, SessionLease>, subject: string, todo: set<string>): nat {
    |LeasesFor(leases, subject) - todo|
  }

  lemma {:induction false} CountingStep(leases: map<string, SessionLease>, subject: string, todo: set<string>,
                                        id: string)
    requires id in todo && id in leases
    ensures Counted(leases, subject, todo - {id})
         == Counted(leases, subject, todo) + if leases[id].session.intent.subjectID == subject then 1 else 0
  {
    var all := LeasesFor(leases, subject);
    if leases[id].session.intent.subjectID == subject {
      assert all - (todo - {id}) == (all - todo) + {id};
    } else {
      assert all - (todo - {id}) == all - todo;
    }
  }

  lemma {:induction false} CountingEnds(leases: map<string, SessionLease>, subject: string)
    ensures Counted(leases, subject, leases.Keys) == 0
    ensures Counted(leases, subject, {}) == |LeasesFor(leases, subject)|
  {
    assert LeasesFor(leases, subject) - leases.Keys == {};
    assert LeasesFor(leases, subject) - {} == LeasesFor(leases, subject);
  }

  /** Counts the leases of one subject, in whatever order the map yields them. */
  method CountLeasesFor(leases: map<string, SessionLease>, subject: string) returns (active: nat)
    ensures active == |LeasesFor(leases, subject)|
  {
    hide Counted, LeasesFor;
    active := 0;
    var remaining := leases.Keys;
    CountingEnds(leases, subject);
    while remaining != {}
      invariant remaining <= leases.Keys
      invariant active == Counted(leases, subject, remaining)
    {
      var id :| id in remaining;
      CountingStep(leases, subject, remaining, id);
      remaining := remaining - {id};
      if leases[id].session.intent.subjectID == subject {
        active := active + 1;
      }
    }
  }

  lemma {:induction false} SessionsKnowTheirID(st: StoreState, id: string)
    requires Rep(st)
    ensures id in st.sessions ==> st.sessions[id].intent.id == id
  {
    assert id in st.sessions ==> SessionOk(st, id);
  }

  class Store {
    var sessions: map<string, Session>
    var byKey: map<string, string>
    var leases: map<string, SessionLease>

    function State(): StoreState
      reads this
    {
      StoreState(sessions, byKey, leases)
    }

    ghost predicate Valid()
      reads this
    {
      Rep(State())
    }

    constructor ()
      ensures Valid() && State() == EMPTY
    {
      sessions, byKey, leases := map[], map[], map[];
    }

    method GetByKey(key: string) returns (r: Result<Session>)
      requires Valid()
      ensures r == match FindByKey(State(), key) case Some(s) => Ok(s) case None => Err(NotFound)
    {
      if key !in byKey {
        return Err(NotFound);
      }
      var id := byKey[key];
      if id !in sessions {
        return Err(NotFound);
      }
      return Ok(sessions[id]);
    }

    /** Go ranges over a map in no fixed order; the picks below are just as free, and
        the result is the one sweep all the same. */
    method Cleanup(now: Time)
      requires Valid()
      modifies this
      ensures Valid() && State() == Sweep(old(State()), now)
    {
      EndExpiredLeases(now);
      ghost var ended := State();
      EndLeasesKeepsRep(old(State()), now);
      DropForgottenKeys(now);
      DropTombstonesKeepsRep(ended, now);
    }

    method EndExpiredLeases(now: Time)
      requires Indexed(State())
      modifies this
      ensures State() == EndLeases(old(State()), now)
    {
      hide EndLeasesBut, EndLeases;
      ghost var before := State();
      var remaining := leases.Keys;
      EndingStarts(before, now);
      while remaining != {}
        invariant remaining <= before.leases.Keys
        invariant State() == EndLeasesBut(before, remaining, now)
      {
        var id :| id in remaining;
        ghost var todo := remaining;
        remaining := remaining - {id};
        EndingStep(before, todo, id, now);
        var lease := leases[id];
        if lease.expiresAt <= now {
          leases := leases - {id};
          var stored := sessions[id];
          stored := stored.(state := Closed, closedAt := lease.expiresAt, closeReason := "max_duration", ciphertext := "");
          assert stored == Ended(before, id, now);
          sessions := sessions[id := stored];
        }
      }
      EndingEnds(before, now);
    }

    method DropForgottenKeys(now: Time)
      requires Indexed(State())
      modifies this
      ensures State() == DropTombstones(old(State()), now)
    {
      ghost var before := State();
      var remaining := byKey.Keys;
      DroppingStarts(before, now);
      while remaining != {}
        invariant remaining <= before.byKey.Keys
        invariant State() == DropTombstonesBut(before, remaining, now)
      {
        var key :| key in remaining;
        ghost var todo := remaining;
        remaining := remaining - {key};
        DroppingStep(before, todo, key, now);
        var id := byKey[key];
        if id in sessions && sessions[id].tombstoneExpiresAt <= now {
          byKey := byKey - {key};
          sessions := sessions - {id};
          leases := leases - {id};
        }
      }
      DroppingEnds(before, now);
    }

    method CreateOrGet(key: string, candidate: Session) returns (r: Reply)
      requires Valid()
      modifies this
      ensures (State(), r) == CreateAct(Sweep(old(State()), candidate.intent.createdAt), key, candidate)
      ensures Enters(Sweep(old(State()), candidate.intent.createdAt), key, candidate) ==> Valid()
    {
      Cleanup(candidate.intent.createdAt);
      ghost var swept := State();
      if key in byKey {
        var id := byKey[key];
        var existing := sessions[id];
        if existing.intent.fingerprint != candidate.intent.fingerprint {
          return Refused(Conflict);
        }
        if !existing.state.Issued? || existing.intent.ticketExpiresAt <= candidate.intent.createdAt {
          if existing.state.Issued? {
            existing := existing.(state := Closed, closedAt := candidate.intent.createdAt,
                                  closeReason := "ticket_expired", ciphertext := "");
            sessions := sessions[id := existing];
          }
          r := Refused(FailedPrecondition);
        } else {
          r := Created(existing, true);
        }
      } else {
        byKey := byKey[key := candidate.intent.id];
        sessions := sessions[candidate.intent.id := candidate];
        r := Created(candidate, false);
      }
      if Enters(swept, key, candidate) {
        CreateKeepsRep(swept, key, candidate);
      }
    }

    method ClaimAndReserve(id: string, digest: Digest, now: Time, limits: ClaimLimits) returns (r: Reply)
      requires Valid() && 0 < limits.idempotencyTTL
      modifies this
      ensures Valid()
      ensures (State(), r) == ClaimAct(Sweep(old(State()), now), id, digest, now, limits)
    {
      hide Rep, Sweep, SessionOk, LeasesFor, Indexed;
      Cleanup(now);
      ghost var swept := State();
      ClaimKeepsRep(swept, id, digest, now, limits);
      SessionsKnowTheirID(swept, id);
      if id !in sessions {
        return Refused(NotFound);
      }
      var stored := sessions[id];
      if !stored.state.Issued? || stored.intent.ticketExpiresAt <= now {
        if stored.state.Issued? {
          stored := stored.(state := Closed, closedAt := now, closeReason := "ticket_expired", ciphertext := "");
          sessions := sessions[id := stored];
        }
        return Refused(FailedPrecondition);
      }
      if stored.intent.ticketDigest != digest {
        return Refused(InvalidTicket);
      }
      if |leases| >= limits.maxActive {
        return Refused(Capacity);
      }
      var activeSubject := CountLeasesFor(leases, stored.intent.subjectID);
      if activeSubject >= limits.maxActivePerSubject {
        return Refused(Capacity);
      }
      var leaseID := id + ":lease";
      var expires := now + limits.sessionMaxDuration;
      stored := stored.(state := Claimed, claimedAt := now, expiresAt := expires,
                        tombstoneExpiresAt := expires + limits.idempotencyTTL, leaseID := leaseID, ciphertext := "");
      var lease := SessionLease(leaseID, stored, stored.expiresAt);
      sessions := sessions[id := stored];
      leases := leases[id := lease];
      r := Leased(lease);
    }

    method CloseAndRelease(id: string, leaseID: string, reason: string, now: Time) returns (r: Reply)
      requires Valid()
      modifies this
      ensures Valid()
      ensures (State(), r) == CloseAct(Sweep(old(State()), now), id, leaseID, reason, now)
    {
      hide Rep, Sweep, Indexed, SessionOk;
      Cleanup(now);
      CloseKeepsRep(State(), id, leaseID, reason, now);
      if id !in sessions {
        return Refused(NotFound);
      }
      var stored := sessions[id];
      if stored.state.Closed? {
        return Done;
      }
      if !stored.state.Claimed? || stored.leaseID != leaseID {
        return Refused(FailedPrecondition);
      }
      leases := leases - {id};
      stored := stored.(state := Closed, closedAt := now, closeReason := reason, ciphertext := "");
      sessions := sessions[id := stored];
      r := Done;
    }
  }
}
