/** What requests are admitted, and what an admitted request comes to mean once it is claimed. */
module Admission {
  import opened Sessions
  import opened Ledger
  import opened Manager
  import opened Tickets
  import Fingerprint
  import LedgerRuns
  import SessionLives

  // ------------------------------------------------------- who is turned away

  /** A VM binding that is not that of the request's own VM console. */
  predicate ForeignVM(r: Request) {
    var b := r.vmBinding;
    && b.enabled
    && (|| r.instanceBinding.enabled
        || r.workloadKind != "vm" || r.mode != "vnc"
        || b.tenantID != r.tenantID || b.vmID != r.instanceID || b.vmName != r.workloadName
        || b.version <= 0
        || "" in {b.tenantID, b.vmID, b.clusterID, b.namespace, b.vmName, b.vmUID, b.vmiName, b.vmiUID, b.namespaceUID})
  }

  /** An instance binding that is not that of the request's own exec container. */
  predicate ForeignInstance(r: Request) {
    var b := r.instanceBinding;
    && b.enabled
    && (|| r.mode != "exec" || b.containerName != r.container || b.version <= 0
        || "" in {b.clusterID, b.namespace, b.notebookName, b.notebookUID, b.podName, b.podUID, b.shell})
  }

  predicate Anonymous(r: Request) {
    "" in {r.idempotencyKey, r.tenantID, r.subjectID, r.instanceID, r.workloadName}
  }

  /** A mode that is unknown, that the workload does not have, or an exec of impossible size. */
  predicate Unfit(r: Request) {
    && !(&& r.mode == "exec"
         && r.workloadKind in {"container", "gpu_container", "sandbox"}
         && r.rows != 0 && r.cols != 0 && r.rows <= 4096 && r.cols <= 4096)
    && !(r.mode in {"serial", "vnc"} && r.workloadKind == "vm")
  }

  predicate Malformed(r: Request) {
    ForeignVM(r) || ForeignInstance(r) || Anonymous(r) || Unfit(r)
  }

  /** Which requests are turned away before the store is asked, and with which error. */
  lemma {:induction false} RefusalLaw(r: Request, checks: Checks)
    ensures Rejection(r, checks) ==
            if Malformed(r) || (!checks.vm.Absent? && r.mode == "vnc" && !r.vmBinding.enabled) then
              Some(InvalidRequest)
            else if r.instanceBinding.enabled then
              match checks.instance
              case Absent => Some(Unavailable)
              case Fails(error) => Some(error)
              case Passes => None
            else if r.vmBinding.enabled then
              match checks.vm
              case Absent => Some(Unavailable)
              case Fails(error) => Some(error)
              case Passes => None
            else
              None
  {
    MalformedIsInvalid(r);
    hide ValidRequest;
    assert !Malformed(r) && r.instanceBinding.enabled ==> !r.vmBinding.enabled;
    hide Malformed;
  }

  lemma {:induction false} MalformedIsInvalid(r: Request)
    ensures Malformed(r) <==> !ValidRequest(r)
  {
    ForeignVMIsInvalid(r);
    ForeignInstanceIsInvalid(r);
    AnonymousIsInvalid(r);
    hide ForeignVM, ForeignInstance, Anonymous, ValidVMBinding;
  }

  lemma {:induction false} ForeignVMIsInvalid(r: Request)
    ensures var own := !r.instanceBinding.enabled && r.workloadKind == "vm" && r.mode == "vnc"
                       && r.vmBinding.tenantID == r.tenantID && r.vmBinding.vmID == r.instanceID
                       && r.vmBinding.vmName == r.workloadName && ValidVMBinding(r.vmBinding);
            ForeignVM(r) == (r.vmBinding.enabled && !own)
  {
  }

  lemma {:induction false} ForeignInstanceIsInvalid(r: Request)
    ensures var b := r.instanceBinding;
            var own := 1 <= b.version && b.clusterID != "" && b.namespace != "" && b.notebookName != "" && b.notebookUID != ""
                       && b.podName != "" && b.podUID != "" && b.containerName == r.container && b.shell != ""
                       && r.mode == "exec";
            ForeignInstance(r) == (b.enabled && !own)
  {
  }

  lemma {:induction false} AnonymousIsInvalid(r: Request)
    ensures var named := r.idempotencyKey != "" && r.tenantID != "" && r.subjectID != "" && r.instanceID != ""
                         && r.workloadName != "";
            Anonymous(r) == !named
  {
  }

  /** What a replay is answered with, told from the session found under its key and the clock. */
  lemma {:induction false} ReplayLaw(crypto: Crypto, found: Option<Session>, q: ReplayRequest, now: Time, later: Time)
    ensures ReplayAnswer(crypto, found, q, now, later) ==
            if "" in {q.idempotencyKey, q.tenantID, q.subjectID, q.instanceID} || q.expectedVersion <= 0 then
              Err(InvalidRequest)
            else if found.None? || found.value.tombstoneExpiresAt <= now
                    || found.value.intent.tenantID != q.tenantID || found.value.intent.subjectID != q.subjectID then
              Err(NotFound)
            else
              var s := found.value;
              var i := s.intent;
              if !(&& i.instanceID == q.instanceID && i.vmBinding.enabled && i.vmBinding.version == q.expectedVersion
                   && i.workloadKind == "vm" && i.mode == "vnc") then
                Err(Conflict)
              else if !s.state.Issued? || i.ticketExpiresAt <= later || Decrypt(crypto, s.ciphertext).None? then
                Err(FailedPrecondition)
              else
                Ok(Issued.Issued(s, Decrypt(crypto, s.ciphertext).value, true))
  {
    hide Decrypt;
  }

  // --------------------------------------------------------- what is issued

  /** What an issue returns for a request whose key no earlier session keeps: its own ticket, and a session
      that carries what was requested and was told to nobody before. */
  lemma {:induction false} FreshRequestIsIssued(calls: seq<Call>, requests: seq<Request>, draws: seq<Draw>, j: nat,
                                                crypto: Crypto, cfg: Config)
    requires ValidRun(calls, cfg) && IssuedRun(calls, requests, draws, crypto, cfg)
    requires j < |calls| && calls[j].op.Create?
    requires forall i: nat :: i < j && SessionLives.Issues(calls, i, cfg.limits) && calls[i].op.key == calls[j].op.key
               ==> LedgerRuns.KeyEnd(calls, i, j, cfg.limits) <= calls[j].at
    ensures var r, now, id, ticket := requests[j], calls[j].at, draws[j].id, draws[j].ticket;
            IssueAnswer(crypto, ReplyAt(calls, j, cfg.limits), draws[j]) == Ok(Issued.Issued(
              Session(
                Intent(id, r.idempotencyKey, crypto.sha256(Fingerprint.Stream(Fingerprint.Fields(r))), crypto.sha256(ticket),
                       r.tenantID, r.subjectID, r.instanceID, r.workloadName, r.workloadKind, r.mode, r.container, r.command,
                       r.tty, r.rows, r.cols, r.requestedProtocol, r.instanceBinding, r.vmBinding,
                       now, now + cfg.ticketTTL),
                draws[j].nonce + crypto.seal(draws[j].nonce, ticket), State.Issued,
                0, now + cfg.ticketTTL + cfg.limits.idempotencyTTL, 0, 0, "", ""),
              ticket, false))
  {
    SessionLives.FreshKeyIssues(calls, j, cfg);
    hide ReplyAt, ValidRun, SessionLives.Issues, LedgerRuns.KeyEnd, Fingerprint.Stream, Fingerprint.Fields;
  }

  // ------------------------------------------------------- what a claim opens

  /** Every request of the run that reached the store had been admitted. */
  predicate AdmittedRun(calls: seq<Call>, requests: seq<Request>, checks: seq<Checks>) {
    && |requests| == |checks| == |calls|
    && forall i :: 0 <= i < |calls| && calls[i].op.Create? ==> Rejection(requests[i], checks[i]) == None
  }

  /** The bindings of an access are its own, and its workload and size are those of its mode. */
  predicate InOrder(a: ClaimedAccess) {
    && "" !in {a.tenantID, a.subjectID, a.instanceID, a.workloadName}
    && (a.vmBinding.enabled ==>
          var b := a.vmBinding;
          && a.mode == "vnc" && !a.instanceBinding.enabled
          && b.tenantID == a.tenantID && b.vmID == a.instanceID && b.vmName == a.workloadName
          && 0 < b.version
          && "" !in {b.clusterID, b.namespace, b.vmUID, b.vmiName, b.vmiUID, b.namespaceUID})
    && (a.instanceBinding.enabled ==>
          var b := a.instanceBinding;
          && a.exec.Some? && b.containerName == a.exec.value.container
          && 0 < b.version
          && "" !in {b.clusterID, b.namespace, b.notebookName, b.notebookUID, b.podName, b.podUID, b.shell})
    && (a.exec.Some? <==> a.mode == "exec")
    && (if a.mode == "exec" then
          && a.workloadKind in {"container", "gpu_container", "sandbox"}
          && 1 <= a.exec.value.rows <= 4096 && 1 <= a.exec.value.cols <= 4096
        else
          a.mode in {"serial", "vnc"} && a.workloadKind == "vm")
  }

  /** Whatever a claim opens, in any run of admitted requests, is in order; and where the manager checks
      VMs, VNC is opened only for a VM binding that it passed. */
  lemma {:induction false} ClaimsOpenAdmittedAccess(calls: seq<Call>, requests: seq<Request>, draws: seq<Draw>,
                                                    checks: seq<Checks>, j: nat, crypto: Crypto, cfg: Config)
    returns (i: nat)
    requires ValidRun(calls, cfg) && IssuedRun(calls, requests, draws, crypto, cfg) && AdmittedRun(calls, requests, checks)
    requires j < |calls| && calls[j].op.Claim? && ReplyAt(calls, j, cfg.limits).Leased?
    ensures InOrder(ClaimAnswer(ReplyAt(calls, j, cfg.limits)).value)
    ensures var a := ClaimAnswer(ReplyAt(calls, j, cfg.limits)).value;
            && i < j && calls[i].op.Create?
            && (a.instanceBinding.enabled ==> checks[i].instance.Passes?)
            && (a.vmBinding.enabled ==> checks[i].vm.Passes?)
            && (a.mode == "vnc" && !checks[i].vm.Absent? ==> a.vmBinding.enabled)
  {
    hide ReplyAt, ValidRun, CandidateFor;
    i := ClaimServesTheRequest(calls, requests, draws, j, crypto, cfg);
    RefusalLaw(requests[i], checks[i]);
    hide Rejection;
    AccessInOrder(requests[i], ClaimAnswer(ReplyAt(calls, j, cfg.limits)).value);
    hide Malformed, InOrder;
  }

  lemma {:induction false} AccessInOrder(r: Request, a: ClaimedAccess)
    requires !Malformed(r)
    requires a == ClaimedAccess(
               a.sessionID, a.leaseID, a.expiresAt,
               r.tenantID, r.subjectID, r.instanceID, r.instanceBinding, r.vmBinding, r.workloadName, r.workloadKind, r.mode,
               if r.mode == "exec" then Some(ExecOptions(r.container, r.command, r.tty, r.rows, r.cols)) else None)
    ensures InOrder(a)
  {
  }
}
