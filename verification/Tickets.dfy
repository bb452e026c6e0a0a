/** Tickets and replays over whole runs of either store. */
module Tickets {
  import opened Sessions
  import opened Ledger
  import opened LedgerRuns
  import opened Manager
  import Fingerprint
  import Memory = MemoryRuns
  import MemoryStore
  import Expiry
  import Redis = RedisRuns
  import RedisStore

  /** Every candidate of the run seals its own ticket, as the manager's candidates do. */
  predicate SealedRun(calls: seq<Call>, crypto: Crypto) {
    forall i :: 0 <= i < |calls| && calls[i].op.Create? ==> Sealed(crypto, calls[i].op.candidate)
  }

  /** Every session a run remembers was issued sealed. */
  lemma {:induction false} RecordsAreSealed(calls: seq<Call>, n: nat, crypto: Crypto, cfg: Config, id: string)
    requires ValidRun(calls, cfg) && SealedRun(calls, crypto) && n <= |calls|
    requires id in LedgerAt(calls, n, cfg.limits)
    ensures Sealed(crypto, LedgerAt(calls, n, cfg.limits)[id].issued)
  {
    hide Inv;
    RunKeepsInv(calls, n, ClockAt(calls, n), cfg);
    assert HasOrigin(calls, n, id, LedgerAt(calls, n, cfg.limits)[id].issued, cfg.limits);
    var i: nat :| i < n && IssuedBy(calls, i, id, LedgerAt(calls, n, cfg.limits)[id].issued, cfg.limits);
  }

  /** In every reachable store each issued session still opens to the ticket its digest came from. */
  lemma {:induction false} StoredTicketsOpen(calls: seq<Call>, n: nat, crypto: Crypto, cfg: Config, id: string)
    requires ValidRun(calls, cfg) && SealedRun(calls, crypto) && n <= |calls|
    requires id in Memory.StateAt(calls, n, cfg.limits).sessions
    requires Memory.StateAt(calls, n, cfg.limits).sessions[id].state.Issued?
    ensures Sealed(crypto, Memory.StateAt(calls, n, cfg.limits).sessions[id])
  {
    var now, limits := ClockAt(calls, n), cfg.limits;
    var st, h := Memory.StateAt(calls, n, limits), LedgerAt(calls, n, limits);
    hide Memory.Matches, LedgerAt, Memory.StateAt, OneHolderPerKey, WithinCapacity, AllHaveOrigins;
    Memory.RunMatches(calls, n, now, cfg);
    RunKeepsInv(calls, n, now, cfg);
    Memory.MatchedSession(st, h, id, now, limits);
    assert RecordOk(id, h[id], now, cfg);
    Memory.SessionOfKeeps(h[id], now, limits);
    RecordsAreSealed(calls, n, crypto, cfg, id);
    assert st.sessions[id] == h[id].issued;
  }

  /** Any ticket an issue returns, new or replayed, passes the digest comparison of every later claim. */
  lemma {:induction false} ReturnedTicketsPass(calls: seq<Call>, i: nat, j: nat, draw: Draw, crypto: Crypto,
                                               cfg: Config)
    requires ValidRun(calls, cfg) && SealedRun(calls, crypto) && i < j < |calls|
    requires calls[i].op.Create? && Decrypt(crypto, calls[i].op.candidate.ciphertext) == Some(draw.ticket)
    requires IssueAnswer(crypto, ReplyAt(calls, i, cfg.limits), draw).Ok?
    requires calls[j].op.Claim?
    requires var issued := IssueAnswer(crypto, ReplyAt(calls, i, cfg.limits), draw).value;
             calls[j].op.id == issued.session.intent.id && calls[j].op.digest == crypto.sha256(issued.ticket)
    ensures ReplyAt(calls, j, cfg.limits) != Refused(InvalidTicket)
  {
    var issued := IssueAnswer(crypto, ReplyAt(calls, i, cfg.limits), draw).value;
    var s := issued.session;
    assert ReplyAt(calls, i, cfg.limits) == Created(s, issued.replayed);
    CreatedSessionIsRecorded(calls, i, s, issued.replayed, cfg);
    RecordsAreSealed(calls, i + 1, crypto, cfg, s.intent.id);
    RunMovesForward(calls, i + 1, j, cfg, s.intent.id);
    assert issued.ticket == Decrypt(crypto, s.ciphertext).value;
    DigestMatches(calls, j, cfg);
    hide ReplyAt, LedgerAt, Decrypt;
  }

  /** Whatever a create returns is in the ledger from then on, as issued. */
  lemma {:induction false} CreatedSessionIsRecorded(calls: seq<Call>, i: nat, s: Session, replayed: bool, cfg: Config)
    requires ValidRun(calls, cfg) && i < |calls| && calls[i].op.Create?
    requires ReplyAt(calls, i, cfg.limits) == Created(s, replayed)
    ensures var h := LedgerAt(calls, i + 1, cfg.limits);
            s.intent.id in h && h[s.intent.id].issued == s
    ensures !replayed ==> s == calls[i].op.candidate
  {
    RunIsAdmissible(calls, i, cfg);
    var h, call := LedgerAt(calls, i, cfg.limits), calls[i];
    LedgerGrows(calls, i, cfg.limits);
    hide LedgerAt, AllHaveOrigins, WithinCapacity;
    var holders := Holders(h, call.op.key, call.at, cfg.limits);
    if holders != {} {
      var id :| id in holders;
      CreateAnsweredByHolder(h, call, id, cfg.limits);
      StepMovesForward(h, call, cfg, id);
      assert RecordOk(id, h[id], call.at, cfg);
    }
  }

  // ------------------------------------------------------------------ replay

  /** A sweep before the tombstone leaves a session what replay sees of it, and one from the
      tombstone on leaves nothing under its key. */
  lemma {:induction false} SweptSession(st: MemoryStore.StoreState, id: string, t: Time)
    requires MemoryStore.Rep(st) && id in st.sessions
    ensures var key, found := st.sessions[id].intent.idempotencyKey,
                              MemoryStore.FindByKey(MemoryStore.Sweep(st, t), st.sessions[id].intent.idempotencyKey);
            if t < st.sessions[id].tombstoneExpiresAt
            then found.Some? && Alike(found.value, st.sessions[id]) && MemoryStore.Sweep(st, t).byKey[key] == id
            else found.None? && key !in MemoryStore.Sweep(st, t).byKey
  {
    assert MemoryStore.SessionOk(st, id);
    assert st.byKey[st.sessions[id].intent.idempotencyKey] == id;
    Expiry.SweptSessions(st, t);
    hide MemoryStore.Rep;
  }

  /** Same intent and tombstone, and the same session outright while it is issued. */
  predicate Alike(a: Session, b: Session) {
    && a.intent == b.intent
    && a.tombstoneExpiresAt == b.tombstoneExpiresAt
    && (a.state.Issued? <==> b.state.Issued?)
    && (a.state.Issued? ==> a == b)
  }

  lemma {:induction false} AlikeReplays(crypto: Crypto, a: Session, b: Session, q: ReplayRequest, now: Time, later: Time)
    requires Alike(a, b)
    ensures ReplayAnswer(crypto, Some(a), q, now, later) == ReplayAnswer(crypto, Some(b), q, now, later)
  {
  }

  lemma {:induction false} ForgottenReplays(crypto: Crypto, s: Session, q: ReplayRequest, now: Time, later: Time)
    requires s.tombstoneExpiresAt <= now
    ensures ReplayAnswer(crypto, Some(s), q, now, later) == ReplayAnswer(crypto, None, q, now, later)
  {
  }

  /** Replay hides lazy expiry: a sweep at any instant up to the first clock reading changes
      nothing that replay answers. */
  lemma {:induction false} ReplayHidesLazyExpiry(st: MemoryStore.StoreState, crypto: Crypto, q: ReplayRequest,
                                                 t: Time, now: Time, later: Time)
    requires MemoryStore.Rep(st) && t <= now <= later
    ensures ReplayAnswer(crypto, MemoryStore.FindByKey(MemoryStore.Sweep(st, t), q.idempotencyKey), q, now, later)
         == ReplayAnswer(crypto, MemoryStore.FindByKey(st, q.idempotencyKey), q, now, later)
  {
    var key := q.idempotencyKey;
    if key in st.byKey {
      var s := st.sessions[st.byKey[key]];
      SweptSession(st, st.byKey[key], t);
      hide MemoryStore.Sweep, MemoryStore.Rep, ReplayAnswer, Alike;
      if t < s.tombstoneExpiresAt {
        AlikeReplays(crypto, MemoryStore.FindByKey(MemoryStore.Sweep(st, t), key).value, s, q, now, later);
      } else {
        ForgottenReplays(crypto, s, q, now, later);
      }
    } else {
      assert key !in MemoryStore.Sweep(st, t).byKey;
      hide MemoryStore.Sweep, MemoryStore.Rep, ReplayAnswer;
    }
  }

  /** What replay asks of the session it finds. */
  predicate AsksFor(q: ReplayRequest, i: Intent) {
    && ValidReplay(q)
    && q.idempotencyKey == i.idempotencyKey
    && q.tenantID == i.tenantID
    && q.subjectID == i.subjectID
    && q.instanceID == i.instanceID
    && i.vmBinding.enabled
    && q.expectedVersion == i.vmBinding.version
    && i.workloadKind == WORKLOAD_VM
    && i.mode == MODE_VNC
  }

  /** Over a swept store, replay and issue read the session under the key alike. */
  lemma {:induction false} AlikeAgrees(swept: MemoryStore.StoreState, crypto: Crypto, q: ReplayRequest,
                                       candidate: Session, draw: Draw)
    requires var found := MemoryStore.FindByKey(swept, q.idempotencyKey);
             && found.Some? && AsksFor(q, found.value.intent)
             && candidate.intent.fingerprint == found.value.intent.fingerprint
             && candidate.intent.createdAt < found.value.tombstoneExpiresAt
    ensures var now := candidate.intent.createdAt;
            ReplayAnswer(crypto, MemoryStore.FindByKey(swept, q.idempotencyKey), q, now, now)
            == IssueAnswer(crypto, MemoryStore.CreateAct(swept, q.idempotencyKey, candidate).1, draw)
  {
  }

  /** Before the tombstone, replay answers just what issuing the same request at that instant
      would answer; from the tombstone on it finds nothing, where issuing would start afresh. */
  lemma {:induction false} ReplayAgreesWithIssue(st: MemoryStore.StoreState, id: string, crypto: Crypto,
                                                 q: ReplayRequest, candidate: Session, draw: Draw,
                                                 limits: ClaimLimits)
    requires MemoryStore.Rep(st) && id in st.sessions && AsksFor(q, st.sessions[id].intent)
    requires candidate.intent.fingerprint == st.sessions[id].intent.fingerprint
    ensures var now := candidate.intent.createdAt;
            var replayed := ReplayAnswer(crypto, MemoryStore.FindByKey(st, q.idempotencyKey), q, now, now);
            var reply := MemoryStore.Step(st, Call(now, Create(q.idempotencyKey, candidate)), limits).1;
            if now < st.sessions[id].tombstoneExpiresAt
            then replayed == IssueAnswer(crypto, reply, draw)
            else replayed == Err(NotFound) && reply == Created(candidate, false)
  {
    var now, swept := candidate.intent.createdAt, MemoryStore.Sweep(st, candidate.intent.createdAt);
    assert st.byKey[q.idempotencyKey] == id;
    SweptSession(st, id, now);
    hide MemoryStore.Sweep, MemoryStore.Rep;
    if now < st.sessions[id].tombstoneExpiresAt {
      AlikeAgrees(swept, crypto, q, candidate, draw);
      AlikeReplays(crypto, MemoryStore.FindByKey(swept, q.idempotencyKey).value, st.sessions[id], q, now, now);
      hide ReplayAnswer, IssueAnswer, MemoryStore.CreateAct, Alike, AsksFor;
    }
  }

  /** A replay that succeeds hands out the ticket of a session still waiting for its claim. */
  lemma {:induction false} ReplaySucceedsExactly(st: MemoryStore.StoreState, id: string, crypto: Crypto,
                                                 q: ReplayRequest, now: Time, later: Time)
    requires MemoryStore.Rep(st) && id in st.sessions && st.sessions[id].intent.idempotencyKey == q.idempotencyKey
    requires st.sessions[id].state.Issued? ==> Sealed(crypto, st.sessions[id])
    ensures var s := st.sessions[id];
            var answer := ReplayAnswer(crypto, MemoryStore.FindByKey(st, q.idempotencyKey), q, now, later);
            && (answer.Ok? <==> AsksFor(q, s.intent) && now < s.tombstoneExpiresAt
                                && s.state.Issued? && later < s.intent.ticketExpiresAt)
            && (answer.Ok? ==> answer.value.session == s && crypto.sha256(answer.value.ticket) == s.intent.ticketDigest)
  {
    assert st.byKey[q.idempotencyKey] == id;
  }

  /** Any ticket a replay returns from a reachable store passes the digest comparison of every later
      claim of its session. */
  lemma {:induction false} ReplayedTicketPasses(calls: seq<Call>, n: nat, j: nat, q: ReplayRequest, now: Time,
                                                later: Time, crypto: Crypto, cfg: Config)
    requires ValidRun(calls, cfg) && SealedRun(calls, crypto) && n <= j < |calls|
    requires ReplayFrom(calls, n, q, now, later, crypto, cfg.limits).Ok?
    requires calls[j].op.Claim?
    requires var replayed := ReplayFrom(calls, n, q, now, later, crypto, cfg.limits).value;
             calls[j].op.id == replayed.session.intent.id && calls[j].op.digest == crypto.sha256(replayed.ticket)
    ensures ReplyAt(calls, j, cfg.limits) != Refused(InvalidTicket)
  {
    var id := ReplayedIsWaiting(calls, n, q, now, later, crypto, cfg);
    hide ReplayFrom;
    RunMovesForward(calls, n, j, cfg, id);
    DigestMatches(calls, j, cfg);
  }

  /** What a replay after n calls of a run answers. */
  function ReplayFrom(calls: seq<Call>, n: nat, q: ReplayRequest, now: Time, later: Time, crypto: Crypto, limits: ClaimLimits)
    : Result<Issued>
    requires n <= |calls|
  {
    ReplayAnswer(crypto, MemoryStore.FindByKey(Memory.StateAt(calls, n, limits), q.idempotencyKey), q, now, later)
  }

  /** A session replayed is in the ledger as it was issued, and the ticket is that of its digest. */
  lemma {:induction false} ReplayedIsWaiting(calls: seq<Call>, n: nat, q: ReplayRequest, now: Time, later: Time,
                                             crypto: Crypto, cfg: Config) returns (id: string)
    requires ValidRun(calls, cfg) && SealedRun(calls, crypto) && n <= |calls|
    requires ReplayFrom(calls, n, q, now, later, crypto, cfg.limits).Ok?
    ensures var replayed := ReplayFrom(calls, n, q, now, later, crypto, cfg.limits).value;
            && id == replayed.session.intent.id
            && id in LedgerAt(calls, n, cfg.limits)
            && LedgerAt(calls, n, cfg.limits)[id].issued.intent == replayed.session.intent
            && crypto.sha256(replayed.ticket) == replayed.session.intent.ticketDigest
  {
    var st, h, clock := Memory.StateAt(calls, n, cfg.limits), LedgerAt(calls, n, cfg.limits), ClockAt(calls, n);
    hide LedgerAt, Memory.StateAt, Memory.Matches, AllHaveOrigins, ValidRun, MemoryStore.Rep, MemoryStore.SessionOk,
         SealedRun;
    Expiry.ReachableStoreOk(calls, n, cfg);
    id := ReplayedFound(st, crypto, q, now, later);
    Memory.RunMatches(calls, n, clock, cfg);
    Memory.MatchedSession(st, h, id, clock, cfg.limits);
    Memory.SessionOfKeeps(h[id], clock, cfg.limits);
    StoredTicketsOpen(calls, n, crypto, cfg, id);
    hide ReplayFrom;
  }

  /** A replay that succeeds returns an issued session of the store and the ticket its ciphertext opens to. */
  lemma {:induction false} ReplayedFound(st: MemoryStore.StoreState, crypto: Crypto, q: ReplayRequest, now: Time, later: Time)
    returns (id: string)
    requires MemoryStore.Rep(st) && ReplayAnswer(crypto, MemoryStore.FindByKey(st, q.idempotencyKey), q, now, later).Ok?
    ensures id in st.sessions && st.sessions[id].state.Issued? && st.sessions[id].intent.id == id
    ensures var replayed := ReplayAnswer(crypto, MemoryStore.FindByKey(st, q.idempotencyKey), q, now, later).value;
            replayed.session == st.sessions[id] && Decrypt(crypto, replayed.session.ciphertext) == Some(replayed.ticket)
  {
    id := st.byKey[q.idempotencyKey];
    assert MemoryStore.SessionOk(st, id);
    hide MemoryStore.Indexed, MemoryStore.Rep, Decrypt;
  }

  /** A claim with the stored digest is not refused for its ticket. */
  lemma {:induction false} DigestMatches(calls: seq<Call>, j: nat, cfg: Config)
    requires j < |calls| && calls[j].op.Claim? && calls[j].op.id in LedgerAt(calls, j, cfg.limits)
    requires LedgerAt(calls, j, cfg.limits)[calls[j].op.id].issued.intent.ticketDigest == calls[j].op.digest
    ensures ReplyAt(calls, j, cfg.limits) != Refused(InvalidTicket)
  {
    hide LedgerAt;
  }

  /** After any run, replay answers the same over either store. */
  lemma {:induction false} ReplayIsTheSameOnBothStores(calls: seq<Call>, n: nat, name: string -> string,
                                                       crypto: Crypto, q: ReplayRequest, clock: Time, now: Time,
                                                       later: Time, cfg: Config)
    requires ValidRun(calls, cfg) && n <= |calls| && Redis.Injective(name)
    requires ClockAt(calls, n) <= clock <= now <= later
    ensures ReplayAnswer(crypto, RedisStore.FindByKey(Redis.StateAt(calls, n, name, cfg.limits), name, q.idempotencyKey, clock),
                         q, now, later)
         == ReplayAnswer(crypto, MemoryStore.FindByKey(Memory.StateAt(calls, n, cfg.limits), q.idempotencyKey), q, now, later)
  {
    var limits, key := cfg.limits, q.idempotencyKey;
    var h, mem, red := LedgerAt(calls, n, limits), Memory.StateAt(calls, n, limits), Redis.StateAt(calls, n, name, limits);
    hide LedgerAt, Memory.StateAt, Redis.StateAt, Memory.Matches, Redis.Matches, Redis.Injective, OneHolderPerKey,
         WithinCapacity, AllHaveOrigins, MemoryStore.Sweep, MemoryStore.Rep, ReplayAnswer;
    Expiry.ReachableStoreOk(calls, n, cfg);
    ReplayHidesLazyExpiry(mem, crypto, q, clock, now, later);
    Memory.RunMatches(calls, n, clock, cfg);
    Redis.RunMatches(calls, n, clock, name, cfg);
    RunKeepsInv(calls, n, clock, cfg);
    FoundAlike(h, MemoryStore.Sweep(mem, clock), red, name, key, clock, cfg);
    var inMemory := MemoryStore.FindByKey(MemoryStore.Sweep(mem, clock), key);
    var inRedis := RedisStore.FindByKey(red, name, key, clock);
    if inMemory.Some? {
      AlikeReplays(crypto, inMemory.value, inRedis.value, q, now, later);
    }
  }

  lemma {:induction false} FoundAlike(h: History, mem: MemoryStore.StoreState, red: RedisStore.RedisState,
                                      name: string -> string, key: string, now: Time, cfg: Config)
    requires Memory.Matches(mem, h, now, cfg.limits) && Redis.Matches(red, name, h, now, cfg.limits)
    requires Redis.Injective(name) && Inv(h, now, cfg)
    ensures MemoryStore.FindByKey(mem, key).Some? <==> RedisStore.FindByKey(red, name, key, now).Some?
    ensures MemoryStore.FindByKey(mem, key).Some? ==>
              Alike(MemoryStore.FindByKey(mem, key).value, RedisStore.FindByKey(red, name, key, now).value)
  {
    var limits := cfg.limits;
    MemoryFinds(h, mem, key, now, cfg);
    RedisFinds(h, red, name, key, now, cfg);
    hide Memory.Matches, Redis.Matches, Redis.Injective, WithinCapacity, MemoryStore.FindByKey, RedisStore.FindByKey;
    if MemoryStore.FindByKey(mem, key).Some? {
      var id :| id in Holders(h, key, now, limits);
      assert RecordOk(id, h[id], now, cfg);
      Memory.SessionOfKeeps(h[id], now, limits);
      Redis.HashOfKeeps(h[id], limits);
    }
  }

  lemma {:induction false} MemoryFinds(h: History, mem: MemoryStore.StoreState, key: string, now: Time, cfg: Config)
    requires Memory.Matches(mem, h, now, cfg.limits) && Inv(h, now, cfg)
    ensures MemoryStore.FindByKey(mem, key).Some? <==> Holders(h, key, now, cfg.limits) != {}
    ensures forall id | id in Holders(h, key, now, cfg.limits) ::
              MemoryStore.FindByKey(mem, key) == Some(Memory.SessionOf(h[id], now, cfg.limits))
  {
    Memory.KeyHeldBy(mem, h, key, now, cfg.limits);
    if key in mem.byKey {
      Memory.MatchedSession(mem, h, mem.byKey[key], now, cfg.limits);
      assert mem.byKey[key] in Holders(h, key, now, cfg.limits);
    }
    hide Memory.Matches, Memory.SessionOf;
  }

  lemma {:induction false} RedisFinds(h: History, red: RedisStore.RedisState, name: string -> string, key: string,
                                      now: Time, cfg: Config)
    requires Redis.Matches(red, name, h, now, cfg.limits) && Redis.Injective(name) && Inv(h, now, cfg)
    ensures RedisStore.FindByKey(red, name, key, now).Some? <==> Holders(h, key, now, cfg.limits) != {}
    ensures forall id | id in Holders(h, key, now, cfg.limits) ::
              RedisStore.FindByKey(red, name, key, now) == Some(Redis.HashOf(h[id], cfg.limits))
  {
    Redis.KeyHeldBy(red, name, h, key, now, cfg.limits);
    if RedisStore.Exists(red.idem, name(key), now) {
      Redis.MatchedHash(red, name, h, red.idem[name(key)].value, now, cfg.limits);
      assert red.idem[name(key)].value in Holders(h, key, now, cfg.limits);
    }
    hide Redis.Matches, Redis.HashOf, Redis.Injective;
  }

  // ------------------------------------------------- from request to access

  /** Every candidate of the run was built by the manager, the i-th call from the i-th request. */
  predicate IssuedRun(calls: seq<Call>, requests: seq<Request>, draws: seq<Draw>, crypto: Crypto, cfg: Config) {
    && |requests| == |draws| == |calls|
    && (forall i :: 0 <= i < |calls| && calls[i].op.Create? ==> |draws[i].nonce| == NONCE_SIZE)
    && (forall i :: 0 <= i < |calls| && calls[i].op.Create?
          ==> calls[i].op == Create(requests[i].idempotencyKey, CandidateFor(crypto, cfg, requests[i], draws[i], calls[i].at)))
  }

  lemma {:induction false} IssuedRunIsSealed(calls: seq<Call>, requests: seq<Request>, draws: seq<Draw>,
                                             crypto: Crypto, cfg: Config)
    requires IssuedRun(calls, requests, draws, crypto, cfg) && crypto.Sound()
    ensures SealedRun(calls, crypto)
  {
    forall i | 0 <= i < |calls| && calls[i].op.Create? ensures Sealed(crypto, calls[i].op.candidate) {
      CandidateIsSealed(crypto, cfg, requests[i], draws[i], calls[i].at);
    }
  }

  lemma {:induction false} AccessOfCandidate(crypto: Crypto, cfg: Config, r: Request, draw: Draw, issuedAt: Time,
                                             claimedAt: Time)
    ensures var c := CandidateFor(crypto, cfg, r, draw, issuedAt);
            && c.intent.id == draw.id && c.intent.ticketDigest == crypto.sha256(draw.ticket)
            && AccessOf(SessionLease(draw.id + ":lease", ClaimedSession(c, claimedAt, cfg.limits),
                                     claimedAt + cfg.limits.sessionMaxDuration))
               == ClaimedAccess(
                    draw.id, draw.id + ":lease", claimedAt + cfg.limits.sessionMaxDuration,
                    r.tenantID, r.subjectID, r.instanceID, r.instanceBinding, r.vmBinding, r.workloadName, r.workloadKind,
                    r.mode,
                    if r.mode == "exec" then Some(ExecOptions(r.container, r.command, r.tty, r.rows, r.cols)) else None)
  {
  }

  /** A claim that succeeds opens exactly the access one earlier request asked for, to whoever
      presents a ticket with the digest of the ticket that request was given. */
  lemma {:induction false} ClaimServesTheRequest(calls: seq<Call>, requests: seq<Request>, draws: seq<Draw>, j: nat,
                                                 crypto: Crypto, cfg: Config)
    returns (i: nat)
    requires ValidRun(calls, cfg) && IssuedRun(calls, requests, draws, crypto, cfg)
    requires j < |calls| && calls[j].op.Claim? && ReplyAt(calls, j, cfg.limits).Leased?
    ensures i < j && calls[i].op.Create? && calls[j].op.digest == crypto.sha256(draws[i].ticket)
    ensures calls[i].at <= calls[j].at < calls[i].at + cfg.ticketTTL
    ensures var r := requests[i];
            ClaimAnswer(ReplyAt(calls, j, cfg.limits)) == Ok(ClaimedAccess(
              calls[j].op.id, calls[j].op.id + ":lease", calls[j].at + cfg.limits.sessionMaxDuration,
              r.tenantID, r.subjectID, r.instanceID, r.instanceBinding, r.vmBinding, r.workloadName, r.workloadKind, r.mode,
              if r.mode == "exec" then Some(ExecOptions(r.container, r.command, r.tty, r.rows, r.cols)) else None))
  {
    hide ReplyAt;
    i := ClaimReturnsWhatWasIssued(calls, j, cfg, calls[j].op.id);
    assert calls[i].op.candidate == CandidateFor(crypto, cfg, requests[i], draws[i], calls[i].at);
    AccessOfCandidate(crypto, cfg, requests[i], draws[i], calls[i].at, calls[j].at);
    hide CandidateFor, ClaimedSession, AccessOf, ValidRun;
  }

  /** The hash is free of collisions. */
  ghost predicate CollisionFree(crypto: Crypto) {
    forall a, b :: crypto.sha256(a) == crypto.sha256(b) ==> a == b
  }

  /** An issue that is answered with an earlier session repeats an earlier request under the same key;
      with bindings of the same shape it is that very request. */
  lemma {:induction false} ReplayedRequestIsTheSame(calls: seq<Call>, requests: seq<Request>, draws: seq<Draw>,
                                                    j: nat, s: Session, crypto: Crypto, cfg: Config)
    returns (i: nat)
    requires ValidRun(calls, cfg) && IssuedRun(calls, requests, draws, crypto, cfg) && CollisionFree(crypto)
    requires forall k :: 0 <= k < |requests| ==> Fingerprint.ShortStrings(Fingerprint.Fields(requests[k]))
    requires j < |calls| && calls[j].op.Create? && ReplyAt(calls, j, cfg.limits) == Created(s, true)
    ensures i < j && calls[i].op.Create? && s == CandidateFor(crypto, cfg, requests[i], draws[i], calls[i].at)
    ensures requests[i].idempotencyKey == requests[j].idempotencyKey
    ensures Fingerprint.Essence(requests[i]) == Fingerprint.Essence(requests[j])
       <==> Fingerprint.SameShape(requests[i], requests[j])
  {
    RunIsAdmissible(calls, j, cfg);
    var h, call, limits := LedgerAt(calls, j, cfg.limits), calls[j], cfg.limits;
    var id := ReplayedFromHolder(h, call, s, cfg);
    assert HasOrigin(calls, j, id, h[id].issued, limits);
    i :| i < j && IssuedBy(calls, i, id, h[id].issued, limits);
    hide LedgerAt, AllHaveOrigins, Inv, Expected, Fingerprint.Stream, Fingerprint.Fields, Fingerprint.ShortStrings,
         Fingerprint.Essence, Fingerprint.SameShape;
    Fingerprint.SameBytesSameRequest(requests[i], requests[j]);
  }

  lemma {:induction false} ReplayedFromHolder(h: History, call: Call, s: Session, cfg: Config) returns (id: string)
    requires Inv(h, call.at, cfg) && call.op.Create? && Expected(h, call, cfg.limits) == Created(s, true)
    ensures id in h && h[id].issued == s && s.intent.idempotencyKey == call.op.key
    ensures s.intent.fingerprint == call.op.candidate.intent.fingerprint
  {
    id :| id in Holders(h, call.op.key, call.at, cfg.limits);
    CreateAnsweredByHolder(h, call, id, cfg.limits);
  }

  // ----------------------------------------------- a collision across shapes

  const POD_BOUND := Request(
    InstanceBinding(true, 1, "c", "n", "b", "u", "true", "1", "1", "sh"), Fingerprint.NO_VM,
    "", "k", "t", "s", "i", "w", WORKLOAD_CONTAINER, MODE_EXEC, "1", [], true, 1, 1, "p")

  const UNBOUND := Request(
    Fingerprint.NO_INSTANCE, Fingerprint.NO_VM,
    "", "k", "t", "s", "i", "w", WORKLOAD_CONTAINER, MODE_EXEC, "1",
    ["true", "1", "1", "p", "1", "c", "n", "b", "u"], true, 1, 1, "sh")

  /** Two valid requests of different shape, asking for different things, with one fingerprint. */
  lemma {:induction false} FingerprintsCollideAcrossShapes(sha256: string -> Digest)
    ensures ValidRequest(POD_BOUND) && ValidRequest(UNBOUND)
    ensures Fingerprint.Essence(POD_BOUND) != Fingerprint.Essence(UNBOUND)
    ensures sha256(Fingerprint.Stream(Fingerprint.Fields(POD_BOUND))) == sha256(Fingerprint.Stream(Fingerprint.Fields(UNBOUND)))
  {
    assert Fingerprint.Decimal(1) == "1";
    assert Fingerprint.Fields(POD_BOUND)
        == ["t", "s", "i", "w", WORKLOAD_CONTAINER, MODE_EXEC, "1", "true", "1", "1", "p", "1", "c", "n", "b", "u",
            "true", "1", "1", "sh"];
    assert Fingerprint.Fields(UNBOUND) == Fingerprint.Fields(POD_BOUND);
  }
}
