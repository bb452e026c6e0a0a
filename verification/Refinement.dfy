/** The two stores keep one contract. */
module Refinement {
  import opened Sessions
  import opened Ledger
  import opened LedgerRuns
  import Memory = MemoryRuns
  import Redis = RedisRuns

  /** Redis and memory give the same answer to a call exactly when the call is not a close
      that names a wrong lease for a session whose lease ran out unclosed. */
  lemma {:induction false} StoresAgreeExactly(calls: seq<Call>, n: nat, name: string -> string, cfg: Config)
    requires ValidRun(calls, cfg) && n < |calls| && Redis.Injective(name)
    ensures Redis.AnswerAt(calls, n, name, cfg.limits) == Memory.AnswerAt(calls, n, cfg.limits)
       <==> !Redis.WrongLateClose(LedgerAt(calls, n, cfg.limits), calls[n], cfg.limits)
  {
    hide LedgerAt;
    Memory.MemoryAnswersFromLedger(calls, n, cfg);
    Redis.RedisAnswersFromLedger(calls, n, name, cfg);
    if Redis.WrongLateClose(LedgerAt(calls, n, cfg.limits), calls[n], cfg.limits) {
      Redis.LateCloseLeavesNoTrace(LedgerAt(calls, n, cfg.limits), calls[n], cfg.limits);
    }
  }

  /** Every close presents the lease ID that a claim of its session returns. */
  predicate ClosesOwnLeases(calls: seq<Call>) {
    forall i :: 0 <= i < |calls| && calls[i].op.Close? ==> calls[i].op.leaseID == LeaseIDFor(calls[i].op.id)
  }

  /** Redis refines memory: same result, session and lease expiry for every call of every run. */
  lemma {:induction false} RedisRefinesMemory(calls: seq<Call>, name: string -> string, cfg: Config)
    requires ValidRun(calls, cfg) && ClosesOwnLeases(calls) && Redis.Injective(name)
    ensures forall n :: 0 <= n < |calls|
              ==> Redis.AnswerAt(calls, n, name, cfg.limits) == Memory.AnswerAt(calls, n, cfg.limits)
  {
    forall n | 0 <= n < |calls|
      ensures Redis.AnswerAt(calls, n, name, cfg.limits) == Memory.AnswerAt(calls, n, cfg.limits)
    {
      StoresAgreeExactly(calls, n, name, cfg);
    }
  }

  /** A session is issued and claimed at instant 1, and closed with no lease ID when its lease ends. */
  function LateCloseRun(c: Session, limits: ClaimLimits): seq<Call> {
    [Call(1, Create(c.intent.idempotencyKey, c)),
     Call(1, Claim(c.intent.id, c.intent.ticketDigest)),
     Call(1 + limits.sessionMaxDuration, Close(c.intent.id, "", "late"))]
  }

  /** The exception is real: on such a run the memory store reports success and Redis a failed precondition. */
  lemma {:induction false} StoresDisagreeOnLateClose(c: Session, name: string -> string, cfg: Config)
    requires cfg.Positive() && ProperCandidate(c.intent.idempotencyKey, c, 1, cfg) && Redis.Injective(name)
    ensures var calls := LateCloseRun(c, cfg.limits);
            && ValidRun(calls, cfg)
            && Memory.AnswerAt(calls, 2, cfg.limits) == Done
            && Redis.AnswerAt(calls, 2, name, cfg.limits) == Refused(FailedPrecondition)
  {
    var calls, limits := LateCloseRun(c, cfg.limits), cfg.limits;
    LateCloseLedger(c, cfg);
    hide LedgerAt;
    Memory.MemoryAnswersFromLedger(calls, 2, cfg);
    Redis.RedisAnswersFromLedger(calls, 2, name, cfg);
  }

  lemma {:induction false} LateCloseLedger(c: Session, cfg: Config)
    requires cfg.Positive() && ProperCandidate(c.intent.idempotencyKey, c, 1, cfg)
    ensures LedgerAt(LateCloseRun(c, cfg.limits), 2, cfg.limits) == map[c.intent.id := Record(c, Held(1))]
  {
    var calls, limits, h := LateCloseRun(c, cfg.limits), cfg.limits, map[c.intent.id := Record(c, Waiting)];
    assert LedgerAt(calls, 0, limits) == map[];
    LedgerGrows(calls, 0, limits);
    assert Holders(map[], c.intent.idempotencyKey, 1, limits) == {};
    assert LedgerAt(calls, 1, limits) == h;
    LedgerGrows(calls, 1, limits);
    assert ActiveIDs(h, 1, limits) == {} && ActiveFor(h, c.intent.subjectID, 1, limits) == {};
    assert LedgerAt(calls, 2, limits) == h[c.intent.id := Record(c, Held(1))];
  }
}
