/** The session manager: sealed tickets, admission, read-only replay, and claims, over a store. */
module Manager {
  import opened Sessions
  import opened Ledger
  import MemoryStore
  import Fingerprint

  // ------------------------------------------------------------ sealed tickets

  const NONCE_SIZE := 12

  /** SHA-256 and AES-GCM, known only by what is asked of them. */
  datatype Crypto = Crypto(
    sha256: string -> Digest,
    seal: (string, string) -> string,
    open: (string, string) -> Option<string>)
  {
    /** What was sealed under a nonce opens under it. */
    ghost predicate Sound() {
      forall nonce, text :: open(nonce, seal(nonce, text)) == Some(text)
    }
  }

  function Encrypt(crypto: Crypto, nonce: string, plaintext: string): string {
    nonce + crypto.seal(nonce, plaintext)
  }

  function Decrypt(crypto: Crypto, ciphertext: string): Option<string> {
    if |ciphertext| < NONCE_SIZE then None
    else crypto.open(ciphertext[..NONCE_SIZE], ciphertext[NONCE_SIZE..])
  }

  /** A nonce-prefixed ciphertext opens to what was sealed. */
  lemma {:induction false} DecryptUndoesEncrypt(crypto: Crypto, nonce: string, plaintext: string)
    requires crypto.Sound() && |nonce| == NONCE_SIZE
    ensures Decrypt(crypto, Encrypt(crypto, nonce, plaintext)) == Some(plaintext)
  {
    var ciphertext := Encrypt(crypto, nonce, plaintext);
    assert ciphertext[..NONCE_SIZE] == nonce;
    assert ciphertext[NONCE_SIZE..] == crypto.seal(nonce, plaintext);
  }

  /** The ciphertext holds the very ticket whose digest is stored beside it. */
  predicate Sealed(crypto: Crypto, s: Session) {
    var ticket := Decrypt(crypto, s.ciphertext);
    ticket.Some? && crypto.sha256(ticket.value) == s.intent.ticketDigest
  }

  // ----------------------------------------------------------------- admission

  predicate ValidVMBinding(b: VMBinding) {
    && b.enabled && b.tenantID != "" && b.vmID != "" && 0 < b.version && b.clusterID != "" && b.namespace != ""
    && b.vmName != "" && b.vmUID != "" && b.vmiName != "" && b.vmiUID != "" && b.namespaceUID != ""
  }

  predicate ValidRequest(r: Request) {
    && (r.vmBinding.enabled ==>
          && !r.instanceBinding.enabled
          && r.workloadKind == WORKLOAD_VM
          && r.mode == MODE_VNC
          && r.vmBinding.tenantID == r.tenantID
          && r.vmBinding.vmID == r.instanceID
          && r.vmBinding.vmName == r.workloadName
          && ValidVMBinding(r.vmBinding))
    && (r.instanceBinding.enabled ==>
          var b := r.instanceBinding;
          && 1 <= b.version && b.clusterID != "" && b.namespace != "" && b.notebookName != "" && b.notebookUID != ""
          && b.podName != "" && b.podUID != "" && b.containerName == r.container && b.shell != "" && r.mode == MODE_EXEC)
    && r.idempotencyKey != "" && r.tenantID != "" && r.subjectID != "" && r.instanceID != "" && r.workloadName != ""
    && (if r.mode == MODE_EXEC then
          && r.workloadKind in {WORKLOAD_CONTAINER, WORKLOAD_GPU_CONTAINER, WORKLOAD_SANDBOX}
          && 1 <= r.rows <= 4096 && 1 <= r.cols <= 4096
        else if r.mode == MODE_SERIAL || r.mode == MODE_VNC then
          r.workloadKind == WORKLOAD_VM
        else
          false)
  }

  /** The validators of the configuration: absent, or present with their verdict on this request. */
  datatype Verdict = Absent | Passes | Fails(error: Error)

  datatype Checks = Checks(instance: Verdict, vm: Verdict)

  /** Why a request is turned away before the store is asked, if it is. */
  function Rejection(r: Request, checks: Checks): Option<Error> {
    if !ValidRequest(r) then Some(InvalidRequest)
    else if !checks.vm.Absent? && r.mode == MODE_VNC && !r.vmBinding.enabled then Some(InvalidRequest)
    else if r.instanceBinding.enabled && !checks.instance.Passes? then
      Some(if checks.instance.Absent? then Unavailable else checks.instance.error)
    else if r.vmBinding.enabled && !checks.vm.Passes? then
      Some(if checks.vm.Absent? then Unavailable else checks.vm.error)
    else None
  }

  // -------------------------------------------------------------------- issue

  /** What one issue draws from the random source, the ticket in its base64url text. */
  datatype Draw = Draw(ticket: string, nonce: string, id: string)

  datatype Issued = Issued(session: Session, ticket: string, replayed: bool)

  function CandidateFor(crypto: Crypto, cfg: Config, r: Request, draw: Draw, now: Time): Session {
    Session(
      Intent(draw.id, r.idempotencyKey, crypto.sha256(Fingerprint.Stream(Fingerprint.Fields(r))), crypto.sha256(draw.ticket),
             r.tenantID, r.subjectID, r.instanceID, r.workloadName, r.workloadKind, r.mode, r.container, r.command,
             r.tty, r.rows, r.cols, r.requestedProtocol, r.instanceBinding, r.vmBinding, now, now + cfg.ticketTTL),
      Encrypt(crypto, draw.nonce, draw.ticket),
      State.Issued,
      ZERO_TIME,
      now + (cfg.ticketTTL + cfg.limits.idempotencyTTL),
      ZERO_TIME,
      ZERO_TIME,
      "",
      "")
  }

  /** A candidate is what a store expects of one, and it seals its own ticket. */
  lemma {:induction false} CandidateIsSealed(crypto: Crypto, cfg: Config, r: Request, draw: Draw, now: Time)
    requires crypto.Sound() && |draw.nonce| == NONCE_SIZE
    ensures var c := CandidateFor(crypto, cfg, r, draw, now);
            && ProperCandidate(r.idempotencyKey, c, now, cfg)
            && Sealed(crypto, c)
            && Decrypt(crypto, c.ciphertext) == Some(draw.ticket)
  {
    DecryptUndoesEncrypt(crypto, draw.nonce, draw.ticket);
  }

  /** What issue returns for the store's answer. */
  function IssueAnswer(crypto: Crypto, reply: Reply, draw: Draw): Result<Issued> {
    match reply
    case Created(stored, false) => Ok(Issued.Issued(stored, draw.ticket, false))
    case Created(stored, true) =>
      (match Decrypt(crypto, stored.ciphertext)
       case None => Err(FailedPrecondition)
       case Some(ticket) => Ok(Issued.Issued(stored, ticket, true)))
    case Refused(error) => Err(error)
    case _ => Err(Unavailable)
  }

  // ------------------------------------------------------------------- replay

  datatype ReplayRequest = ReplayRequest(
    idempotencyKey: string,
    tenantID: string,
    subjectID: string,
    instanceID: string,
    expectedVersion: int64)

  predicate ValidReplay(q: ReplayRequest) {
    q.idempotencyKey != "" && q.tenantID != "" && q.subjectID != "" && q.instanceID != "" && 1 <= q.expectedVersion
  }

  /** What replay returns for the session found under the key.  The clock is read twice. */
  function ReplayAnswer(crypto: Crypto, found: Option<Session>, q: ReplayRequest, now: Time, later: Time): Result<Issued> {
    if !ValidReplay(q) then Err(InvalidRequest)
    else match found
      case None => Err(NotFound)
      case Some(s) =>
        if s.intent.tenantID != q.tenantID || s.intent.subjectID != q.subjectID then Err(NotFound)
        else if s.tombstoneExpiresAt <= now then Err(NotFound)
        else if s.intent.instanceID != q.instanceID || !s.intent.vmBinding.enabled || s.intent.workloadKind != WORKLOAD_VM
                || s.intent.mode != MODE_VNC || s.intent.vmBinding.version != q.expectedVersion then Err(Conflict)
        else if !s.state.Issued? || s.intent.ticketExpiresAt <= later then Err(FailedPrecondition)
        else match Decrypt(crypto, s.ciphertext)
          case None => Err(FailedPrecondition)
          case Some(ticket) => Ok(Issued.Issued(s, ticket, true))
  }

  // -------------------------------------------------------------------- claim

  datatype ExecOptions = ExecOptions(container: string, command: seq<string>, tty: bool, rows: uint16, cols: uint16)

  datatype ClaimedAccess = ClaimedAccess(
    sessionID: string,
    leaseID: string,
    expiresAt: Time,
    tenantID: string,
    subjectID: string,
    instanceID: string,
    instanceBinding: InstanceBinding,
    vmBinding: VMBinding,
    workloadName: string,
    workloadKind: string,
    mode: string,
    exec: Option<ExecOptions>)

  function AccessOf(lease: SessionLease): ClaimedAccess {
    var i := lease.session.intent;
    ClaimedAccess(i.id, lease.id, lease.expiresAt, i.tenantID, i.subjectID, i.instanceID, i.instanceBinding, i.vmBinding,
                  i.workloadName, i.workloadKind, i.mode,
                  if i.mode == MODE_EXEC then Some(ExecOptions(i.container, i.command, i.tty, i.rows, i.cols)) else None)
  }

  function ClaimAnswer(reply: Reply): Result<ClaimedAccess> {
    match reply
    case Leased(lease) => Ok(AccessOf(lease))
    case Refused(error) => Err(error)
    case _ => Err(Unavailable)
  }

  // ------------------------------------------------------------- the manager

  class Manager {
    const crypto: Crypto
    const cfg: Config
    const store: MemoryStore.Store

    constructor (store: MemoryStore.Store, crypto: Crypto, cfg: Config)
      requires cfg.Positive()
      ensures this.store == store && this.crypto == crypto && this.cfg == cfg
    {
      this.store, this.crypto, this.cfg := store, crypto, cfg;
    }

    /** Issues a session for an admitted request, or replays the one its key already has. */
    method Issue(r: Request, checks: Checks, draw: Draw, now: Time) returns (result: Result<Issued>)
      requires store.Valid()
      modifies store
      ensures |draw.nonce| == NONCE_SIZE && draw.id !in old(store.sessions) ==> store.Valid()
      ensures Rejection(r, checks).Some? ==> result == Err(Rejection(r, checks).value) && unchanged(store)
      ensures Rejection(r, checks).None? ==>
                var call := Call(now, Create(r.idempotencyKey, CandidateFor(crypto, cfg, r, draw, now)));
                && store.State() == MemoryStore.Step(old(store.State()), call, cfg.limits).0
                && result == IssueAnswer(crypto, MemoryStore.Step(old(store.State()), call, cfg.limits).1, draw)
    {
      hide ValidRequest, CandidateFor, Decrypt, Encrypt, Fingerprint.Stream, Fingerprint.Fields;
      hide MemoryStore.Sweep, MemoryStore.CreateAct, MemoryStore.Rep, MemoryStore.Enters;
      if !ValidRequest(r) {
        return Err(InvalidRequest);
      }
      if !checks.vm.Absent? && r.mode == MODE_VNC && !r.vmBinding.enabled {
        return Err(InvalidRequest);
      }
      if r.instanceBinding.enabled {
        if checks.instance.Absent? {
          return Err(Unavailable);
        }
        if checks.instance.Fails? {
          return Err(checks.instance.error);
        }
      }
      if r.vmBinding.enabled {
        if checks.vm.Absent? {
          return Err(Unavailable);
        }
        if checks.vm.Fails? {
          return Err(checks.vm.error);
        }
      }
      assert Rejection(r, checks).None?;
      hide Rejection;
      var fingerprint := Fingerprint.FingerprintOf(r, crypto.sha256);
      var ciphertext := Encrypt(crypto, draw.nonce, draw.ticket);
      var candidate := CandidateFor(crypto, cfg, r, draw, now);
      CandidateEnters(store.State(), r, draw, now);
      assert candidate.intent.fingerprint == fingerprint && candidate.ciphertext == ciphertext;
      var reply := store.CreateOrGet(r.idempotencyKey, candidate);
      if reply.Refused? {
        return Err(reply.error);
      }
      if !reply.Created? {
        return Err(Unavailable);
      }
      var ticket := draw.ticket;
      if reply.replayed {
        var plaintext := Decrypt(crypto, reply.session.ciphertext);
        if plaintext.None? {
          return Err(FailedPrecondition);
        }
        ticket := plaintext.value;
      }
      return Ok(Issued.Issued(reply.session, ticket, reply.replayed));
    }

    /** A candidate whose ID is new to the store has its place in the swept store. */
    lemma {:induction false} CandidateEnters(st: MemoryStore.StoreState, r: Request, draw: Draw, now: Time)
      ensures |draw.nonce| == NONCE_SIZE && draw.id !in st.sessions ==>
                MemoryStore.Enters(MemoryStore.Sweep(st, now), r.idempotencyKey, CandidateFor(crypto, cfg, r, draw, now))
      ensures var c := CandidateFor(crypto, cfg, r, draw, now);
              && c.intent.createdAt == now
              && c.intent.fingerprint == crypto.sha256(Fingerprint.Stream(Fingerprint.Fields(r)))
              && c.ciphertext == Encrypt(crypto, draw.nonce, draw.ticket)
    {
      assert |Encrypt(crypto, draw.nonce, draw.ticket)| >= |draw.nonce|;
    }

    /** Reads back an earlier VM console issue; the store is not written. */
    method Replay(q: ReplayRequest, now: Time, later: Time) returns (result: Result<Issued>)
      requires store.Valid()
      ensures result == ReplayAnswer(crypto, MemoryStore.FindByKey(store.State(), q.idempotencyKey), q, now, later)
    {
      if q.idempotencyKey == "" || q.tenantID == "" || q.subjectID == "" || q.instanceID == "" || q.expectedVersion < 1 {
        return Err(InvalidRequest);
      }
      var found := store.GetByKey(q.idempotencyKey);
      if found.Err? {
        return Err(found.error);
      }
      var stored := found.value;
      if stored.intent.tenantID != q.tenantID || stored.intent.subjectID != q.subjectID {
        return Err(NotFound);
      }
      if !(now < stored.tombstoneExpiresAt) {
        return Err(NotFound);
      }
      if stored.intent.instanceID != q.instanceID || !stored.intent.vmBinding.enabled
         || stored.intent.workloadKind != WORKLOAD_VM || stored.intent.mode != MODE_VNC
         || stored.intent.vmBinding.version != q.expectedVersion {
        return Err(Conflict);
      }
      if !stored.state.Issued? || !(later < stored.intent.ticketExpiresAt) {
        return Err(FailedPrecondition);
      }
      var ticket := Decrypt(crypto, stored.ciphertext);
      if ticket.None? {
        return Err(FailedPrecondition);
      }
      return Ok(Issued.Issued(stored, ticket.value, true));
    }

    /** Claims a session by its ticket. */
    method ClaimSession(id: string, ticket: string, now: Time) returns (result: Result<ClaimedAccess>)
      requires store.Valid() && cfg.Positive()
      modifies store
      ensures store.Valid()
      ensures var call := Call(now, Claim(id, crypto.sha256(ticket)));
              && store.State() == MemoryStore.Step(old(store.State()), call, cfg.limits).0
              && result == ClaimAnswer(MemoryStore.Step(old(store.State()), call, cfg.limits).1)
    {
      var digest := crypto.sha256(ticket);
      hide MemoryStore.Sweep, MemoryStore.ClaimAct, MemoryStore.Rep;
      var reply := store.ClaimAndReserve(id, digest, now, cfg.limits);
      if reply.Refused? {
        return Err(reply.error);
      }
      if !reply.Leased? {
        return Err(Unavailable);
      }
      var s := reply.lease.session.intent;
      var exec: Option<ExecOptions> := None;
      if s.mode == MODE_EXEC {
        exec := Some(ExecOptions(s.container, s.command, s.tty, s.rows, s.cols));
      }
      return Ok(ClaimedAccess(s.id, reply.lease.id, reply.lease.expiresAt, s.tenantID, s.subjectID, s.instanceID,
                              s.instanceBinding, s.vmBinding, s.workloadName, s.workloadKind, s.mode, exec));
    }

    /** Gives a lease back. */
    method CloseSession(id: string, leaseID: string, reason: string, now: Time) returns (error: Option<Error>)
      requires store.Valid()
      modifies store
      ensures store.Valid()
      ensures var (st, reply) := MemoryStore.Step(old(store.State()), Call(now, Close(id, leaseID, reason)), cfg.limits);
              && store.State() == st
              && error == match reply case Refused(e) => Some(e) case _ => None
    {
      hide MemoryStore.Sweep, MemoryStore.CloseAct, MemoryStore.Rep;
      var reply := store.CloseAndRelease(id, leaseID, reason, now);
      if reply.Refused? {
        return Some(reply.error);
      }
      return None;
    }
  }
}
