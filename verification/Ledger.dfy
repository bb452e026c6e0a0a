/**
 The contract of a session store, stated without a store.

 A ledger remembers, for every session ever issued, only what the calls and their
 answers revealed: the session as issued, when it was claimed, when its close was
 accepted, or when its ticket was found to have run out.  Leases and tombstones are
 not events here: whether one has run out is read off the clock, at its exact
 instant.  `Expected` says what a store must answer.
 */
module Ledger {
  import opened Sessions

  datatype Op =
    | Create(key: string, candidate: Session)
    | Claim(id: string, digest: Digest)
    | Close(id: string, leaseID: string, reason: string)

  datatype Call = Call(at: Time, op: Op)

  datatype Reply =
    | Created(session: Session, replayed: bool)
    | Leased(lease: SessionLease)
    | Done
    | Refused(error: Error)

  datatype Phase =
    | Waiting
    | Spent(at: Time)
    | Held(since: Time)
    | Released(since: Time, at: Time, reason: string)

  datatype Record = Record(issued: Session, phase: Phase)

  type History = map<string, Record>

  predicate WasClaimed(r: Record) {
    r.phase.Held? || r.phase.Released?
  }

  function LeaseEnd(r: Record, limits: ClaimLimits): Time
    requires WasClaimed(r)
  {
    r.phase.since + limits.sessionMaxDuration
  }

  /** The instant from which a session and its idempotency key are forgotten. */
  function Tombstone(r: Record, limits: ClaimLimits): Time {
    if WasClaimed(r) then LeaseEnd(r, limits) + limits.idempotencyTTL else r.issued.tombstoneExpiresAt
  }

  predicate Live(r: Record, now: Time, limits: ClaimLimits) {
    now < Tombstone(r, limits)
  }

  /** The lease is out: granted, not given back, and not run out. */
  predicate Active(r: Record, now: Time, limits: ClaimLimits) {
    r.phase.Held? && now < LeaseEnd(r, limits)
  }

  predicate Holds(r: Record, key: string, now: Time, limits: ClaimLimits) {
    r.issued.intent.idempotencyKey == key && Live(r, now, limits)
  }

  function ActiveIDs(h: History, now: Time, limits: ClaimLimits): set<string> {
    set id | id in h && Active(h[id], now, limits)
  }

  function ActiveFor(h: History, subject: string, now: Time, limits: ClaimLimits): set<string> {
    set id | id in h && Active(h[id], now, limits) && h[id].issued.intent.subjectID == subject
  }

  function Holders(h: History, key: string, now: Time, limits: ClaimLimits): set<string> {
    set id | id in h && Holds(h[id], key, now, limits)
  }

  function ExpectedFromHolder(r: Record, candidate: Session, now: Time): Reply {
    if r.issued.intent.fingerprint != candidate.intent.fingerprint then
      Refused(Conflict)
    else if r.phase.Waiting? && now < r.issued.intent.ticketExpiresAt then
      Created(r.issued, true)
    else
      Refused(FailedPrecondition)
  }

  function ExpectedClaim(h: History, id: string, digest: Digest, now: Time, limits: ClaimLimits): Reply {
    if id !in h || !Live(h[id], now, limits) then
      Refused(NotFound)
    else if !h[id].phase.Waiting? || h[id].issued.intent.ticketExpiresAt <= now then
      Refused(FailedPrecondition)
    else if h[id].issued.intent.ticketDigest != digest then
      Refused(InvalidTicket)
    else if limits.maxActive <= |ActiveIDs(h, now, limits)| then
      Refused(Capacity)
    else if limits.maxActivePerSubject <= |ActiveFor(h, h[id].issued.intent.subjectID, now, limits)| then
      Refused(Capacity)
    else
      Leased(SessionLease(LeaseIDFor(id), ClaimedSession(h[id].issued, now, limits), now + limits.sessionMaxDuration))
  }

  function ExpectedClose(h: History, id: string, leaseID: string, now: Time, limits: ClaimLimits): Reply {
    if id !in h || !Live(h[id], now, limits) then
      Refused(NotFound)
    else if Active(h[id], now, limits) && leaseID != LeaseIDFor(id) then
      Refused(FailedPrecondition)
    else if h[id].phase.Waiting? then
      Refused(FailedPrecondition)
    else
      Done
  }

  /** The answer a store owes to a call, read off the ledger and the clock. */
  ghost function Expected(h: History, call: Call, limits: ClaimLimits): Reply {
    match call.op
    case Create(key, candidate) =>
      var holders := Holders(h, key, call.at, limits);
      if holders == {} then
        Created(candidate, false)
      else
        var id :| id in holders;
        ExpectedFromHolder(h[id], candidate, call.at)
    case Claim(id, digest) => ExpectedClaim(h, id, digest, call.at, limits)
    case Close(id, leaseID, _) => ExpectedClose(h, id, leaseID, call.at, limits)
  }

  function Spend(r: Record, now: Time): Record {
    if r.phase.Waiting? then r.(phase := Spent(now)) else r
  }

  /** Enters a call and its answer in the ledger. */
  function Observe(h: History, call: Call, reply: Reply, limits: ClaimLimits): History {
    match call.op
    case Create(key, candidate) =>
      if reply == Created(candidate, false) then
        h[candidate.intent.id := Record(candidate, Waiting)]
      else if reply == Refused(FailedPrecondition) then
        map id | id in h :: if Holds(h[id], key, call.at, limits) then Spend(h[id], call.at) else h[id]
      else
        h
    case Claim(id, _) =>
      if id !in h then
        h
      else if reply.Leased? then
        h[id := h[id].(phase := Held(call.at))]
      else if reply == Refused(FailedPrecondition) then
        h[id := Spend(h[id], call.at)]
      else
        h
    case Close(id, leaseID, reason) =>
      if id in h && reply == Done && leaseID == LeaseIDFor(id) && h[id].phase.Held? then
        h[id := h[id].(phase := Released(h[id].phase.since, call.at, reason))]
      else
        h
  }

  // ------------------------------------------------------------------ runs

  /** A candidate as the manager builds it at instant `at`. */
  predicate ProperCandidate(key: string, c: Session, at: Time, cfg: Config) {
    && c.intent.idempotencyKey == key
    && c.intent.createdAt == at
    && c.intent.ticketExpiresAt == at + cfg.ticketTTL
    && c.tombstoneExpiresAt == at + cfg.ticketTTL + cfg.limits.idempotencyTTL
    && c.state.Issued?
    && c.ciphertext != ""
    && c.expiresAt == c.claimedAt == c.closedAt == ZERO_TIME
    && c.closeReason == c.leaseID == ""
  }

  predicate ProperCall(call: Call, cfg: Config) {
    && ZERO_TIME < call.at
    && (call.op.Create? ==> ProperCandidate(call.op.key, call.op.candidate, call.at, cfg))
  }

  /** Calls in clock order, each candidate with an ID of its own. */
  predicate ValidRun(calls: seq<Call>, cfg: Config) {
    && cfg.Positive()
    && (forall i :: 0 <= i < |calls| ==> ProperCall(calls[i], cfg))
    && (forall i, j :: 0 <= i < j < |calls| ==> calls[i].at <= calls[j].at)
    && (forall i, j :: 0 <= i < j < |calls| && calls[i].op.Create? && calls[j].op.Create?
          ==> calls[i].op.candidate.intent.id != calls[j].op.candidate.intent.id)
  }

  /** The ledger after the first n calls of a run. */
  ghost function LedgerAt(calls: seq<Call>, n: nat, limits: ClaimLimits): History
    requires n <= |calls|
    decreases n, 0
  {
    if n == 0 then map[]
    else Observe(LedgerAt(calls, n - 1, limits), calls[n - 1], ReplyAt(calls, n - 1, limits), limits)
  }

  ghost function ReplyAt(calls: seq<Call>, n: nat, limits: ClaimLimits): Reply
    requires n < |calls|
    decreases n, 1
  {
    Expected(LedgerAt(calls, n, limits), calls[n], limits)
  }

  /** The instant of the last of the first n calls. */
  function ClockAt(calls: seq<Call>, n: nat): Time
    requires n <= |calls|
  {
    if n == 0 then ZERO_TIME else calls[n - 1].at
  }

  // ------------------------------------------------------------ invariant

  predicate RecordOk(id: string, r: Record, now: Time, cfg: Config) {
    && r.issued.intent.id == id
    && ProperCandidate(r.issued.intent.idempotencyKey, r.issued, r.issued.intent.createdAt, cfg)
    && ZERO_TIME < r.issued.intent.createdAt <= now
    && match r.phase
       case Waiting => true
       case Spent(at) => r.issued.intent.ticketExpiresAt <= at <= now
       case Held(since) => r.issued.intent.createdAt <= since <= now && since < r.issued.intent.ticketExpiresAt
       case Released(since, at, _) =>
         r.issued.intent.createdAt <= since <= at <= now && since < r.issued.intent.ticketExpiresAt
  }

  ghost predicate OneHolderPerKey(h: History, now: Time, limits: ClaimLimits) {
    forall key, a, b :: a in Holders(h, key, now, limits) && b in Holders(h, key, now, limits) ==> a == b
  }

  ghost predicate WithinCapacity(h: History, now: Time, limits: ClaimLimits) {
    && |ActiveIDs(h, now, limits)| <= limits.maxActive
    && forall subject :: |ActiveFor(h, subject, now, limits)| <= limits.maxActivePerSubject
  }

  ghost predicate RecordsOk(h: History, now: Time, cfg: Config) {
    forall id :: id in h ==> RecordOk(id, h[id], now, cfg)
  }

  ghost predicate Inv(h: History, now: Time, cfg: Config) {
    && RecordsOk(h, now, cfg)
    && OneHolderPerKey(h, now, cfg.limits)
    && WithinCapacity(h, now, cfg.limits)
  }

  lemma {:induction false} SubsetCardinality<T>(a: set<T>, b: set<T>)
    requires a <= b
    ensures |a| <= |b|
  {
    if a != {} {
      var x :| x in a;
      SubsetCardinality(a - {x}, b - {x});
    }
  }

  lemma {:induction false} LaterIsSmaller(h: History, t1: Time, t2: Time, cfg: Config)
    requires Inv(h, t1, cfg) && t1 <= t2
    ensures Inv(h, t2, cfg)
  {
    var limits := cfg.limits;
    SubsetCardinality(ActiveIDs(h, t2, limits), ActiveIDs(h, t1, limits));
    forall subject ensures |ActiveFor(h, subject, t2, limits)| <= limits.maxActivePerSubject {
      SubsetCardinality(ActiveFor(h, subject, t2, limits), ActiveFor(h, subject, t1, limits));
    }
    forall key, a, b | a in Holders(h, key, t2, limits) && b in Holders(h, key, t2, limits) ensures a == b {
      assert a in Holders(h, key, t1, limits) && b in Holders(h, key, t1, limits);
    }
  }

  ghost predicate Admissible(h: History, call: Call, cfg: Config) {
    ProperCall(call, cfg) && (call.op.Create? ==> call.op.candidate.intent.id !in h)
  }

  /** A new lease joins the active ones of its own subject and of no other. */
  lemma {:induction false} ClaimAddsOne(h: History, id: string, now: Time, limits: ClaimLimits)
    requires id in h && h[id].phase.Waiting? && 0 < limits.sessionMaxDuration
    ensures ActiveIDs(h[id := h[id].(phase := Held(now))], now, limits) == ActiveIDs(h, now, limits) + {id}
    ensures forall subject :: ActiveFor(h[id := h[id].(phase := Held(now))], subject, now, limits)
              == ActiveFor(h, subject, now, limits)
                 + if subject == h[id].issued.intent.subjectID then {id} else {}
  {
  }

  /** A lease that appears within the limits leaves the ledger within the limits. */
  lemma {:induction false} ClaimKeepsCapacity(h: History, id: string, now: Time, cfg: Config)
    requires WithinCapacity(h, now, cfg.limits) && cfg.Positive() && id in h && h[id].phase.Waiting?
    requires |ActiveIDs(h, now, cfg.limits)| < cfg.limits.maxActive
    requires |ActiveFor(h, h[id].issued.intent.subjectID, now, cfg.limits)| < cfg.limits.maxActivePerSubject
    ensures WithinCapacity(h[id := h[id].(phase := Held(now))], now, cfg.limits)
  {
    var limits, h' := cfg.limits, h[id := h[id].(phase := Held(now))];
    ClaimAddsOne(h, id, now, limits);
    forall subject ensures |ActiveFor(h', subject, now, limits)| <= limits.maxActivePerSubject {
      var added: set<string> := if subject == h[id].issued.intent.subjectID then {id} else {};
      assert ActiveFor(h', subject, now, limits) == ActiveFor(h, subject, now, limits) + added;
      assert |ActiveFor(h, subject, now, limits) + added| <= |ActiveFor(h, subject, now, limits)| + |added|;
    }
  }

  /** No entry but a new claim adds an active lease. */
  lemma {:induction false} OthersKeepCapacity(h: History, h': History, now: Time, limits: ClaimLimits)
    requires WithinCapacity(h, now, limits)
    requires forall id :: id in h' && Active(h'[id], now, limits)
               ==> id in h && Active(h[id], now, limits) && h'[id].issued == h[id].issued
    ensures WithinCapacity(h', now, limits)
  {
    SubsetCardinality(ActiveIDs(h', now, limits), ActiveIDs(h, now, limits));
    forall subject ensures |ActiveFor(h', subject, now, limits)| <= limits.maxActivePerSubject {
      SubsetCardinality(ActiveFor(h', subject, now, limits), ActiveFor(h, subject, now, limits));
    }
  }

  /** With one holder per key, a create is answered from that holder. */
  lemma {:induction false} CreateAnsweredByHolder(h: History, call: Call, id: string, limits: ClaimLimits)
    requires OneHolderPerKey(h, call.at, limits) && call.op.Create?
    requires id in h && Holds(h[id], call.op.key, call.at, limits)
    ensures Expected(h, call, limits) == ExpectedFromHolder(h[id], call.op.candidate, call.at)
  {
    var holders := Holders(h, call.op.key, call.at, limits);
    assert id in holders;
  }

  /** A create refused over a spent or taken ticket touches only the holder of the key. */
  lemma {:induction false} RefusalSpendsHolder(h: History, call: Call, id: string, limits: ClaimLimits)
    requires OneHolderPerKey(h, call.at, limits) && call.op.Create?
    requires id in h && Holds(h[id], call.op.key, call.at, limits)
    ensures Observe(h, call, Refused(FailedPrecondition), limits)
         == if h[id].phase.Waiting? then h[id := Spend(h[id], call.at)] else h
  {
    forall other | other in h && Holds(h[other], call.op.key, call.at, limits) ensures other == id {
      assert other in Holders(h, call.op.key, call.at, limits) && id in Holders(h, call.op.key, call.at, limits);
    }
  }

  lemma {:induction false} NoEntry(h: History, call: Call, reply: Reply, limits: ClaimLimits)
    requires call.op.Create? && reply != Created(call.op.candidate, false) && reply != Refused(FailedPrecondition)
    ensures Observe(h, call, reply, limits) == h
  {
  }

  lemma {:induction false} CreateKeepsRecords(h: History, call: Call, cfg: Config)
    requires Inv(h, call.at, cfg) && Admissible(h, call, cfg) && call.op.Create?
    ensures RecordsOk(Observe(h, call, Expected(h, call, cfg.limits), cfg.limits), call.at, cfg)
  {
    var h' := Observe(h, call, Expected(h, call, cfg.limits), cfg.limits);
    hide WithinCapacity;
    forall id | id in h' ensures RecordOk(id, h'[id], call.at, cfg) {
      if id in h && h'[id] != h[id] {
        CreateAnsweredByHolder(h, call, id, cfg.limits);
      }
    }
  }

  lemma {:induction false} StepKeepsRecords(h: History, call: Call, cfg: Config)
    requires Inv(h, call.at, cfg) && Admissible(h, call, cfg)
    ensures RecordsOk(Observe(h, call, Expected(h, call, cfg.limits), cfg.limits), call.at, cfg)
  {
    if call.op.Create? {
      CreateKeepsRecords(h, call, cfg);
      hide RecordsOk, Expected, Observe;
    }
    hide OneHolderPerKey, WithinCapacity, ActiveIDs, ActiveFor;
  }

  lemma {:induction false} StepKeepsHolders(h: History, call: Call, cfg: Config)
    requires Inv(h, call.at, cfg) && Admissible(h, call, cfg) && cfg.Positive()
    ensures OneHolderPerKey(Observe(h, call, Expected(h, call, cfg.limits), cfg.limits), call.at, cfg.limits)
  {
    var limits, now := cfg.limits, call.at;
    var reply := Expected(h, call, limits);
    var h' := Observe(h, call, reply, limits);
    forall key, a, b | a in Holders(h', key, now, limits) && b in Holders(h', key, now, limits) ensures a == b {
      if call.op.Create? && reply == Created(call.op.candidate, false) {
        var id := call.op.candidate.intent.id;
        assert Holders(h, call.op.key, now, limits) == {};
        assert a != id ==> a in Holders(h, key, now, limits);
        assert b != id ==> b in Holders(h, key, now, limits);
      } else {
        assert a in Holders(h, key, now, limits) && b in Holders(h, key, now, limits);
      }
    }
  }

  lemma {:induction false} NoNewLease(h: History, call: Call, cfg: Config)
    requires Admissible(h, call, cfg) && !(call.op.Claim? && Expected(h, call, cfg.limits).Leased?)
    ensures var h' := Observe(h, call, Expected(h, call, cfg.limits), cfg.limits);
            forall id :: id in h' && Active(h'[id], call.at, cfg.limits)
              ==> id in h && Active(h[id], call.at, cfg.limits) && h'[id].issued == h[id].issued
  {
    hide ActiveIDs, ActiveFor;
  }

  lemma {:induction false} StepKeepsCapacity(h: History, call: Call, cfg: Config)
    requires Inv(h, call.at, cfg) && Admissible(h, call, cfg) && cfg.Positive()
    ensures WithinCapacity(Observe(h, call, Expected(h, call, cfg.limits), cfg.limits), call.at, cfg.limits)
  {
    hide WithinCapacity, RecordsOk, OneHolderPerKey;
    if call.op.Claim? && Expected(h, call, cfg.limits).Leased? {
      ClaimKeepsCapacity(h, call.op.id, call.at, cfg);
    } else {
      NoNewLease(h, call, cfg);
      hide Observe, Expected;
      OthersKeepCapacity(h, Observe(h, call, Expected(h, call, cfg.limits), cfg.limits), call.at, cfg.limits);
    }
  }

  lemma {:induction false} StepKeepsInv(h: History, call: Call, cfg: Config)
    requires Inv(h, call.at, cfg) && Admissible(h, call, cfg) && cfg.Positive()
    ensures Inv(Observe(h, call, Expected(h, call, cfg.limits), cfg.limits), call.at, cfg)
  {
    StepKeepsRecords(h, call, cfg);
    StepKeepsHolders(h, call, cfg);
    StepKeepsCapacity(h, call, cfg);
  }
}
