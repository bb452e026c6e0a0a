/**
 The Redis session store: one hash per session, one string per idempotency key, one
 sorted set of leases and one more per subject, changed by three Lua scripts.

 A key set to expire at an instant is absent from that instant on.  Expiry is by the
 server's clock (`clock`), while the scripts act on the instant their caller read
 earlier (`at`).  Keys for idempotency keys and subjects are named by a digest, `name`.
 */
module RedisStore {
  import opened Sessions
  import opened Ledger

  /** A value under a Redis key with an expiry. */
  datatype Keyed<T> = Keyed(value: T, expireAt: Time)

  /** A sorted set of session IDs scored by lease end. */
  type LeaseSet = map<string, Time>

  datatype RedisState = RedisState(
    hashes: map<string, Keyed<Session>>,
    idem: map<string, Keyed<string>>,
    leases: LeaseSet,
    subjects: map<string, LeaseSet>)

  const EMPTY := RedisState(map[], map[], map[], map[])

  predicate Exists<T>(keys: map<string, Keyed<T>>, key: string, clock: Time) {
    key in keys && clock < keys[key].expireAt
  }

  function Load(st: RedisState, id: string, clock: Time): Option<Session> {
    if Exists(st.hashes, id, clock) then Some(st.hashes[id].value) else None
  }

  /** HSET on an existing hash, which keeps its expiry. */
  function SetHash(st: RedisState, id: string, s: Session): RedisState
    requires id in st.hashes
  {
    st.(hashes := st.hashes[id := Keyed(s, st.hashes[id].expireAt)])
  }

  /** ZREMRANGEBYSCORE from minus infinity to an instant. */
  function Pruned(set_: LeaseSet, at: Time): LeaseSet {
    map id | id in set_ && at < set_[id] :: set_[id]
  }

  function SubjectSet(subjects: map<string, LeaseSet>, subjectKey: string): LeaseSet {
    if subjectKey in subjects then subjects[subjectKey] else map[]
  }

  // ------------------------------------------------------------ the scripts

  /** createScript: 0 created, 1 replayed, 2 conflict, 3 no longer claimable. */
  function CreateScript(st: RedisState, clock: Time, idemKey: string, candidate: Session): (RedisState, int, string) {
    if Exists(st.idem, idemKey, clock) then
      var sid, at := st.idem[idemKey].value, candidate.intent.createdAt;
      if !Exists(st.hashes, sid, clock) then
        (st, 3, sid)
      else
        var existing := st.hashes[sid].value;
        if existing.intent.fingerprint != candidate.intent.fingerprint then
          (st, 2, sid)
        else if !existing.state.Issued? then
          (st, 3, sid)
        else if existing.intent.ticketExpiresAt <= at then
          (SetHash(st, sid, TicketExpired(existing, at)), 3, sid)
        else
          (st, 1, sid)
    else
      var id, expireAt := candidate.intent.id, candidate.tombstoneExpiresAt;
      (st.(hashes := st.hashes[id := Keyed(candidate, expireAt)], idem := st.idem[idemKey := Keyed(id, expireAt)]), 0, id)
  }

  /** claimScript: 0 granted, 1 not found, 2 wrong ticket, 3 no longer claimable, 4 no room. */
  function ClaimScript(st: RedisState, clock: Time, at: Time, id: string, digest: Digest, limits: ClaimLimits,
                       subjectKey: string, idemKey: string): (RedisState, int)
  {
    if !Exists(st.hashes, id, clock) then
      (st, 1)
    else
      var stored := st.hashes[id].value;
      var global, subject := Pruned(st.leases, at), Pruned(SubjectSet(st.subjects, subjectKey), at);
      var pruned := st.(leases := global, subjects := st.subjects[subjectKey := subject]);
      if !stored.state.Issued? then
        (pruned, 3)
      else if stored.intent.ticketExpiresAt <= at then
        (SetHash(pruned, id, TicketExpired(stored, at)), 3)
      else if stored.intent.ticketDigest != digest then
        (pruned, 2)
      else if limits.maxActive <= |global| || limits.maxActivePerSubject <= |subject| then
        (pruned, 4)
      else
        var claimed := ClaimedSession(stored, at, limits);
        (RedisState(
           st.hashes[id := Keyed(claimed, claimed.tombstoneExpiresAt)],
           if Exists(st.idem, idemKey, clock)
           then st.idem[idemKey := Keyed(st.idem[idemKey].value, claimed.tombstoneExpiresAt)]
           else st.idem,
           global[id := claimed.expiresAt],
           st.subjects[subjectKey := subject[id := claimed.expiresAt]]),
         0)
  }

  /** closeScript: 0 closed, 1 not found, 2 not the caller's lease. */
  function CloseScript(st: RedisState, clock: Time, at: Time, id: string, leaseID: string, reason: string,
                       subjectKey: string): (RedisState, int)
  {
    if !Exists(st.hashes, id, clock) then
      (st, 1)
    else
      var stored := st.hashes[id].value;
      if stored.state.Closed? then
        (st, 0)
      else if !stored.state.Claimed? || stored.leaseID != leaseID then
        (st, 2)
      else
        (SetHash(st, id, ReleasedSession(stored, at, reason))
           .(leases := st.leases - {id}, subjects := st.subjects[subjectKey := SubjectSet(st.subjects, subjectKey) - {id}]),
         0)
  }

  // ------------------------------------------- the calls, run without interruption

  function CreateCall(st: RedisState, name: string -> string, key: string, candidate: Session, clock: Time)
    : (RedisState, Reply)
  {
    var (st', code, id) := CreateScript(st, clock, name(key), candidate);
    (st',
     if code == 2 then Refused(Conflict)
     else if code == 3 then Refused(FailedPrecondition)
     else match Load(st', id, clock)
          case None => Refused(NotFound)
          case Some(stored) => Created(stored, code == 1))
  }

  function ClaimCall(st: RedisState, name: string -> string, id: string, digest: Digest, now: Time, limits: ClaimLimits)
    : (RedisState, Reply)
  {
    if !Exists(st.hashes, id, now) then
      (st, Refused(NotFound))
    else
      var identity := st.hashes[id].value.intent;
      var (st', code) :=
        ClaimScript(st, now, now, id, digest, limits, name(identity.subjectID), name(identity.idempotencyKey));
      (st',
       if code == 1 then Refused(NotFound)
       else if code == 2 then Refused(InvalidTicket)
       else if code == 3 then Refused(FailedPrecondition)
       else if code == 4 then Refused(Capacity)
       else match Load(st', id, now)
            case None => Refused(NotFound)
            case Some(stored) => Leased(SessionLease(LeaseIDFor(id), stored, now + limits.sessionMaxDuration)))
  }

  function CloseCall(st: RedisState, name: string -> string, id: string, leaseID: string, reason: string, now: Time)
    : (RedisState, Reply)
  {
    if !Exists(st.hashes, id, now) then
      (st, Refused(NotFound))
    else
      var (st', code) := CloseScript(st, now, now, id, leaseID, reason, name(st.hashes[id].value.intent.subjectID));
      (st',
       if code == 1 then Refused(NotFound)
       else if code == 2 then Refused(FailedPrecondition)
       else Done)
  }

  function Step(st: RedisState, name: string -> string, call: Call, limits: ClaimLimits): (RedisState, Reply) {
    match call.op
    case Create(key, candidate) => CreateCall(st, name, key, candidate, call.at)
    case Claim(id, digest) => ClaimCall(st, name, id, digest, call.at, limits)
    case Close(id, leaseID, reason) => CloseCall(st, name, id, leaseID, reason, call.at)
  }

  function FindByKey(st: RedisState, name: string -> string, key: string, clock: Time): Option<Session> {
    if Exists(st.idem, name(key), clock) then Load(st, st.idem[name(key)].value, clock) else None
  }

  // ------------------------------------------------------------- the store

  class Store {
    const name: string -> string
    var hashes: map<string, Keyed<Session>>
    var idem: map<string, Keyed<string>>
    var leases: LeaseSet
    var subjects: map<string, LeaseSet>

    function State(): RedisState
      reads this
    {
      RedisState(hashes, idem, leases, subjects)
    }

    constructor (name: string -> string)
      ensures State() == EMPTY && this.name == name
    {
      this.name := name;
      hashes, idem, leases, subjects := map[], map[], map[], map[];
    }

    // The Redis commands the scripts are made of.

    method HSet(id: string, s: Session)
      requires id in hashes
      modifies `hashes
      ensures hashes == old(hashes)[id := Keyed(s, old(hashes)[id].expireAt)]
    {
      hashes := hashes[id := Keyed(s, hashes[id].expireAt)];
    }

    method PExpireHashAt(id: string, expireAt: Time)
      requires id in hashes
      modifies `hashes
      ensures hashes == old(hashes)[id := Keyed(old(hashes)[id].value, expireAt)]
    {
      hashes := hashes[id := Keyed(hashes[id].value, expireAt)];
    }

    method PExpireIdemAt(key: string, expireAt: Time, clock: Time)
      modifies `idem
      ensures idem == if Exists(old(idem), key, clock) then old(idem)[key := Keyed(old(idem)[key].value, expireAt)]
                      else old(idem)
    {
      if Exists(idem, key, clock) {
        idem := idem[key := Keyed(idem[key].value, expireAt)];
      }
    }

    method RunCreateScript(clock: Time, idemKey: string, candidate: Session) returns (code: int, id: string)
      modifies this
      ensures (State(), code, id) == CreateScript(old(State()), clock, idemKey, candidate)
    {
      if Exists(idem, idemKey, clock) {
        var sid := idem[idemKey].value;
        if !Exists(hashes, sid, clock) {
          return 3, sid;
        }
        var existing := hashes[sid].value;
        if existing.intent.fingerprint != candidate.intent.fingerprint {
          return 2, sid;
        }
        if !existing.state.Issued? || candidate.intent.createdAt >= existing.intent.ticketExpiresAt {
          if existing.state.Issued? {
            HSet(sid, TicketExpired(existing, candidate.intent.createdAt));
          }
          return 3, sid;
        }
        return 1, sid;
      }
      hashes := hashes[candidate.intent.id := Keyed(candidate, candidate.tombstoneExpiresAt)];
      idem := idem[idemKey := Keyed(candidate.intent.id, candidate.tombstoneExpiresAt)];
      return 0, candidate.intent.id;
    }

    method RunClaimScript(clock: Time, at: Time, id: string, digest: Digest, limits: ClaimLimits,
                          subjectKey: string, idemKey: string) returns (code: int)
      modifies this
      ensures (State(), code) == ClaimScript(old(State()), clock, at, id, digest, limits, subjectKey, idemKey)
    {
      hide Pruned, SubjectSet, ClaimedSession, TicketExpired;
      if !Exists(hashes, id, clock) {
        return 1;
      }
      leases := Pruned(leases, at);
      subjects := subjects[subjectKey := Pruned(SubjectSet(subjects, subjectKey), at)];
      var stored := hashes[id].value;
      if !stored.state.Issued? || at >= stored.intent.ticketExpiresAt {
        if stored.state.Issued? {
          HSet(id, TicketExpired(stored, at));
        }
        return 3;
      }
      if stored.intent.ticketDigest != digest {
        return 2;
      }
      if |leases| >= limits.maxActive || |subjects[subjectKey]| >= limits.maxActivePerSubject {
        return 4;
      }
      var claimed := ClaimedSession(stored, at, limits);
      HSet(id, claimed);
      PExpireHashAt(id, claimed.tombstoneExpiresAt);
      PExpireIdemAt(idemKey, claimed.tombstoneExpiresAt, clock);
      leases := leases[id := claimed.expiresAt];
      subjects := subjects[subjectKey := subjects[subjectKey][id := claimed.expiresAt]];
      assert hashes == old(hashes)[id := Keyed(claimed, claimed.tombstoneExpiresAt)];
      assert subjects == old(subjects)[subjectKey := subjects[subjectKey]];
      return 0;
    }

    method RunCloseScript(clock: Time, at: Time, id: string, leaseID: string, reason: string, subjectKey: string)
      returns (code: int)
      modifies this
      ensures (State(), code) == CloseScript(old(State()), clock, at, id, leaseID, reason, subjectKey)
    {
      if !Exists(hashes, id, clock) {
        return 1;
      }
      var stored := hashes[id].value;
      if stored.state.Closed? {
        return 0;
      }
      if !stored.state.Claimed? || stored.leaseID != leaseID {
        return 2;
      }
      leases := leases - {id};
      subjects := subjects[subjectKey := SubjectSet(subjects, subjectKey) - {id}];
      HSet(id, ReleasedSession(stored, at, reason));
      return 0;
    }

    // The store's methods.

    method CreateOrGet(key: string, candidate: Session, clock: Time) returns (r: Reply)
      modifies this
      ensures (State(), r) == CreateCall(old(State()), name, key, candidate, clock)
    {
      var code, id := RunCreateScript(clock, name(key), candidate);
      if code == 2 {
        return Refused(Conflict);
      }
      if code == 3 {
        return Refused(FailedPrecondition);
      }
      match Load(State(), id, clock)
      case None => return Refused(NotFound);
      case Some(stored) => return Created(stored, code == 1);
    }

    method GetByKey(key: string, clock: Time) returns (r: Result<Session>)
      ensures r == match FindByKey(State(), name, key, clock) case Some(s) => Ok(s) case None => Err(NotFound)
    {
      if !Exists(idem, name(key), clock) {
        return Err(NotFound);
      }
      match Load(State(), idem[name(key)].value, clock)
      case None => return Err(NotFound);
      case Some(stored) => return Ok(stored);
    }

    method ClaimAndReserve(id: string, digest: Digest, now: Time, limits: ClaimLimits) returns (r: Reply)
      modifies this
      ensures (State(), r) == ClaimCall(old(State()), name, id, digest, now, limits)
    {
      if !Exists(hashes, id, now) {
        return Refused(NotFound);
      }
      var subject, idempotencyKey := hashes[id].value.intent.subjectID, hashes[id].value.intent.idempotencyKey;
      var code := RunClaimScript(now, now, id, digest, limits, name(subject), name(idempotencyKey));
      match code {
        case 1 => return Refused(NotFound);
        case 2 => return Refused(InvalidTicket);
        case 3 => return Refused(FailedPrecondition);
        case 4 => return Refused(Capacity);
        case _ =>
          match Load(State(), id, now)
          case None => return Refused(NotFound);
          case Some(stored) => return Leased(SessionLease(id + ":lease", stored, now + limits.sessionMaxDuration));
      }
    }

    method CloseAndRelease(id: string, leaseID: string, reason: string, now: Time) returns (r: Reply)
      modifies this
      ensures (State(), r) == CloseCall(old(State()), name, id, leaseID, reason, now)
    {
      if !Exists(hashes, id, now) {
        return Refused(NotFound);
      }
      var code := RunCloseScript(now, now, id, leaseID, reason, name(hashes[id].value.intent.subjectID));
      if code == 1 {
        return Refused(NotFound);
      }
      if code == 2 {
        return Refused(FailedPrecondition);
      }
      return Done;
    }
  }
}
