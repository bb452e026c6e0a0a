/**
 The entities of the session package: requests, sessions, leases, limits and the
 errors its store reports.

 A Go string is a byte string; each `char` below stands for one byte of it.
 Instants are whole milliseconds of one clock, and ZERO_TIME is Go's zero time.
 */
module Sessions {
  type Time = int

  const ZERO_TIME: Time := 0

  type uint16 = n: int | 0 <= n < 0x1_0000
  type int64 = n: int | -0x8000_0000_0000_0000 <= n < 0x8000_0000_0000_0000

  /** A SHA-256 digest, compared only for equality. */
  type Digest = string

  datatype Option<+T> = None | Some(value: T)

  datatype Error =
    | InvalidRequest
    | Conflict
    | FailedPrecondition
    | InvalidTicket
    | Capacity
    | NotFound
    | Unavailable

  datatype Result<+T> = Ok(value: T) | Err(error: Error)

  const MODE_EXEC := "exec"
  const MODE_SERIAL := "serial"
  const MODE_VNC := "vnc"

  const WORKLOAD_CONTAINER := "container"
  const WORKLOAD_GPU_CONTAINER := "gpu_container"
  const WORKLOAD_SANDBOX := "sandbox"
  const WORKLOAD_VM := "vm"

  datatype InstanceBinding = InstanceBinding(
    enabled: bool,
    version: int64,
    clusterID: string,
    namespace: string,
    notebookName: string,
    notebookUID: string,
    podName: string,
    podUID: string,
    containerName: string,
    shell: string)

  datatype VMBinding = VMBinding(
    enabled: bool,
    tenantID: string,
    vmID: string,
    version: int64,
    clusterID: string,
    namespace: string,
    vmName: string,
    vmUID: string,
    vmiName: string,
    vmiUID: string,
    namespaceUID: string)

  datatype Request = Request(
    instanceBinding: InstanceBinding,
    vmBinding: VMBinding,
    requestID: string,
    idempotencyKey: string,
    tenantID: string,
    subjectID: string,
    instanceID: string,
    workloadName: string,
    workloadKind: string,
    mode: string,
    container: string,
    command: seq<string>,
    tty: bool,
    rows: uint16,
    cols: uint16,
    requestedProtocol: string)

  /** The fields of a session that describe what was asked for and when. */
  datatype Intent = Intent(
    id: string,
    idempotencyKey: string,
    fingerprint: Digest,
    ticketDigest: Digest,
    tenantID: string,
    subjectID: string,
    instanceID: string,
    workloadName: string,
    workloadKind: string,
    mode: string,
    container: string,
    command: seq<string>,
    tty: bool,
    rows: uint16,
    cols: uint16,
    requestedProtocol: string,
    instanceBinding: InstanceBinding,
    vmBinding: VMBinding,
    createdAt: Time,
    ticketExpiresAt: Time)

  datatype State = Issued | Claimed | Closed

  datatype Session = Session(
    intent: Intent,
    ciphertext: string,
    state: State,
    expiresAt: Time,
    tombstoneExpiresAt: Time,
    claimedAt: Time,
    closedAt: Time,
    closeReason: string,
    leaseID: string)

  datatype SessionLease = SessionLease(id: string, session: Session, expiresAt: Time)

  datatype ClaimLimits = ClaimLimits(
    maxActive: int,
    maxActivePerSubject: int,
    sessionMaxDuration: int,
    idempotencyTTL: int)

  /** The part of the manager's configuration that the stores see. */
  datatype Config = Config(ticketTTL: int, limits: ClaimLimits) {
    predicate Positive() {
      && 0 < ticketTTL
      && 0 < limits.maxActive
      && 0 < limits.maxActivePerSubject
      && 0 < limits.sessionMaxDuration
      && 0 < limits.idempotencyTTL
    }
  }

  function LeaseIDFor(id: string): string {
    id + ":lease"
  }

  /** What both stores write when a ticket is found to have run out. */
  function TicketExpired(s: Session, now: Time): Session {
    s.(state := Closed, closedAt := now, closeReason := "ticket_expired", ciphertext := "")
  }

  /** What both stores write when a claim is granted. */
  function ClaimedSession(s: Session, now: Time, limits: ClaimLimits): Session {
    s.(state := Claimed,
       claimedAt := now,
       expiresAt := now + limits.sessionMaxDuration,
       tombstoneExpiresAt := now + limits.sessionMaxDuration + limits.idempotencyTTL,
       leaseID := LeaseIDFor(s.intent.id),
       ciphertext := "")
  }

  /** What both stores write when a close is granted. */
  function ReleasedSession(s: Session, now: Time, reason: string): Session {
    s.(state := Closed, closedAt := now, closeReason := reason, ciphertext := "")
  }

  /** What the memory store writes when a lease runs out. */
  function LapsedSession(s: Session, leaseEnd: Time): Session {
    ReleasedSession(s, leaseEnd, "max_duration")
  }
}
