# Session gateway: a verified model

A Dafny model of the session gateway's two linked state machines, and proofs about them.

**Tickets and leases.** A session is issued, claimed once by its ticket, and closed. Two stores keep
sessions: an in-memory one (three maps, swept in place) and a Redis one (hashes, sorted sets, Lua
scripts). Both are proved against one reference, the *ledger*: a history of what calls and answers
revealed, in which leases and tombstones are not events but are read off the clock at their exact
instant. `Ledger.Expected` says what a store owes as an answer; the lemmas about the ledger
(capacity, one-time use, idempotency, conservation) then hold of both stores.

**Connected sessions.** After a claim several pumps exchange frames over bounded queues while a main
loop selects one outcome. These are step systems in which one action is one channel operation or one
call that returns; the theorems quantify over every sequence of actions.

Every lemma has Dafny's automatic induction switched off; inductions are written out.

| file | contents |
|---|---|
| Sessions, Ledger, LedgerRuns | entities; the reference contract; its laws over whole runs |
| SessionLives | every answer and every stored session told from the calls alone, for both stores |
| MemoryStore, MemoryRuns, Expiry | the store class and its specification; its runs follow the ledger; lazy expiry equals eager expiry |
| RedisStore, RedisRuns, Refinement | the scripts and the store class; its runs follow the ledger; the two stores compared |
| RedisClients | many Redis clients interleaved command by command |
| Fingerprint, Manager, Tickets | request fingerprints; issue, replay, claim, close; tickets and replays over runs |
| Admission | which requests are admitted and what a claim of one opens |
| StoredTimes | instants as Redis keeps them |
| Frames, ExecStream, ExecLosses, ByteStream | outcomes and frames; the exec session; when it can lose output; the serial and VNC session |
| ExecOutcomes, ByteOutcomes | where each outcome of a session comes from |
| Timers, TimedExec, TimedBytes | idle and maximum-duration timers; each session's main loop together with its timers |
| Lifecycle, Endings | one session from admission to its end, over the manager and the timed streams; what its end tells |

## Assumptions

- One non-decreasing clock in whole milliseconds; `ZERO_TIME` (0) is Go's zero time and calls happen
  after it. A Redis key that expires at an instant is absent from that instant on, by the same clock.
  In `RedisClients` clients may act on readings taken arbitrarily long before.
- Every candidate carries an ID of its own. Limits are positive and fixed for a run
  (internal/session/manager.go:65). The key stored in a session is the key it is looked up by
  (internal/session/manager.go:132-138).
- A method that holds the mutex is one step, and so is a Lua script.
- SHA-256 is an arbitrary function, free of collisions only where a lemma says so (`Injective`,
  `CollisionFree`). AES-GCM is a pair of functions of which only "what was sealed under a nonce opens
  under it" is used (`Crypto.Sound`). A `char` is one byte of a Go string.
- The runtime's writer keeps the io.Writer contract: fewer bytes than given means an error.
- A timer fires and delivers into its channel in one step.
- What a carried stream did is given to `Lifecycle` as a run of that stream's own model (`Lifecycle.Sound`).

## Where the code differs from what is expected of it

- A close that names a wrong lease, for a session whose lease ran out unclosed: the memory store has
  swept the session and reports success (internal/store/memory/store.go:119-121), Redis still finds it
  claimed and reports a failed precondition (internal/store/redis/store.go:91). The stores agree on
  every other call (`Refinement.StoresAgreeExactly`).
- The fingerprint does not say how many command words it covers (internal/session/manager.go:338-340),
  so requests with different kinds of binding can share it
  (`Tickets.FingerprintsCollideAcrossShapes`); with the same kinds they cannot.
- `complete` takes a zero connection time to mean "never connected"
  (internal/transport/websocket/connectedsession/module.go:279). A run that connects at a clock reading
  of zero decides its final close twice and is reported as not connected (`Lifecycle.RunIsOrderly`).
  The real clock (internal/transport/websocket/connectedsession/clock.go:18) never reads zero, and the
  assumption above excludes it for calls; only an injected clock can reach this case.
- An exec run can end normal although output was lost, for two reasons: a chunk finds the outbound queue
  full and the main loop takes the runtime's exit before the backpressure outcome
  (`ExecLosses.BackpressureLosesOutput`), or a chunk is dropped because the context was cancelled
  (internal/transport/websocket/connectedsession/exec.go:69) and the main loop again takes the exit
  (`ExecLosses.CancellationLosesOutput`). Nothing is ever lost in a normal end if the context is not
  cancelled from outside and the runtime returns no more chunks than the outbound queue holds, 32 as
  configured (cmd/session-gateway/main.go:127), and this bound is exact (`ExecLosses.DeliveryIsSureExactly`).
- A claim can bring a session's tombstone forward unless tickets live no longer than sessions, which
  internal/config/config.go:121 demands (`LedgerRuns.TombstoneNeverEarlier`).

## Model

| member | source | states |
|---|---|---|
| `LedgerRuns.RunKeepsInv` | internal/store/memory/store.go:39-132 | after any run, and at any later instant: every record is well-formed, each key has at most one live holder, active leases keep to MaxActive in all and MaxActivePerSubject for each subject, and every record stems from one earlier create |
| `LedgerRuns.RunMovesForward` | internal/store/memory/store.go:65-132 | along every run a session stays as issued and its state only moves issued to claimed to closed, or issued to closed |
| `LedgerRuns.ClaimedOnce` | internal/store/storetest/contract.go:90-116 | no session is claimed with success twice in a run |
| `LedgerRuns.ClaimReturnsWhatWasIssued` | internal/store/memory/store.go:65-109 | a granted claim returns, field by field, the session exactly one earlier create stored, presented with that ticket's digest within the ticket's life: claimed at this instant, for the full session duration, its tombstone after that, the lease ID `<id>:lease`, no ciphertext |
| `LedgerRuns.LeasesAreConserved` | internal/store/memory/store.go:65-132 | at any instant the leases out number the successful claims, less the closes that gave a lease back in time, less the claims whose lease ran out, each counted from the calls |
| `LedgerRuns.CloseFreesItsLease` | internal/store/memory/store.go:111-132 | a close takes its own lease from the active ones, if it is there, and no other: duplicate, late and wrong closes free nothing |
| `LedgerRuns.ReleasedForGood` | internal/store/memory/store.go:111-132 | once a claimed session was closed with its own lease ID it never counts as active again |
| `LedgerRuns.KeyIsIdempotent` | internal/store/memory/store.go:43-59 | from its creation until it is forgotten, a key is answered from the first session alone: conflict, the original replayed, or failed precondition, and exactly when each |
| `LedgerRuns.KeyIsKeptToItsTombstone` | internal/config/config.go:121-123 | where ticket TTL does not exceed session duration, a key is kept at least until the tombstone it was created with |
| `LedgerRuns.TombstoneNeverEarlier` | internal/store/memory/store.go:101-102 | claims never bring a tombstone forward if and only if ticket TTL does not exceed session duration |
| `SessionLives.ClaimLaw` | internal/store/memory/store.go:65-109 | told from the calls before it alone: when a claim is refused as not found, failed precondition, invalid ticket or capacity, leases out counted from the calls, and else the whole lease it is granted |
| `SessionLives.CloseLaw` | internal/store/memory/store.go:111-132 | told from the calls before it alone: a close is not found, a failed precondition (never claimed and ticket not found spent, or a wrong lease of one still out), or done |
| `SessionLives.UnknownIsNotFound` | internal/store/memory/store.go:69-72 | a claim or close of an ID that no create ever issued is not found |
| `SessionLives.FreshKeyIssues` | internal/store/memory/store.go:60-62 | a create under a key that no earlier session still keeps stores and returns its own candidate |
| `SessionLives.KeyEndTells` | internal/store/memory/store.go:101-102 | a key is forgotten one idempotency TTL after its ticket's life if never claimed, and after its claim's session duration if claimed |
| `SessionLives.ClaimedSessionTells` | internal/store/redis/store.go:57-96 | in every reachable store of either kind a session once claimed keeps the instant of the winning claim, its lease, its ends and its intent; after its first own close both stores keep that close's instant and reason, or, where the lease had run out first, the memory store the lease's end and "max_duration"; and exactly how long each store remembers it |
| `SessionLives.UnclaimedSessionTells` | internal/store/memory/store.go:43-82 | in every reachable store of either kind a session never claimed is as it was issued, or, from the first call that found its ticket run out, closed at that instant as "ticket_expired"; and exactly how long each store remembers it |
| `SessionLives.ReleaseIsFirstClose` | internal/store/memory/store.go:111-132 | a close that gives a lease back is the first close of its session with its own lease and comes before the lease's end |
| `MemoryStore.Store.GetByKey` | internal/store/memory/store.go:25-37 | finds the session indexed under a key and changes nothing |
| `MemoryStore.Store.Cleanup` | internal/store/memory/store.go:134-153 | whatever order both loops visit the maps in, the result is the one sweep; the representation invariant is kept |
| `MemoryStore.Store.EndExpiredLeases` | internal/store/memory/store.go:135-145 | the first loop, in any order, ends exactly the leases that are due and closes their sessions at the lease's end |
| `MemoryStore.Store.DropForgottenKeys` | internal/store/memory/store.go:146-152 | the second loop, in any order, drops exactly the sessions past their tombstone, with key and lease |
| `MemoryStore.Store.CreateOrGet` | internal/store/memory/store.go:39-63 | new state and answer are those of the specification on the swept store |
| `MemoryStore.Store.ClaimAndReserve` | internal/store/memory/store.go:65-109 | new state and answer are those of the specification on the swept store; invariant kept |
| `MemoryStore.Store.CloseAndRelease` | internal/store/memory/store.go:111-132 | new state and answer are those of the specification on the swept store; invariant kept |
| `MemoryStore.CountLeasesFor` | internal/store/memory/store.go:89-94 | the counting loop, in any order, yields the number of leases of the subject |
| `MemoryStore.ActKeepsRep` | internal/store/memory/store.go:39-132 | every operation keeps keys and sessions in bijection, claimed sessions paired with leases, and ciphertext only with issued sessions |
| `MemoryRuns.RunMatches` | internal/store/memory/store.go:39-153 | after any run the three maps hold exactly what the ledger says, and do so after a sweep at any later instant |
| `MemoryRuns.MemoryAnswersFromLedger` | internal/store/memory/store.go:39-132 | every answer of the memory store in every run is the one the ledger expects |
| `Expiry.SweepTwice` | internal/store/memory/store.go:134-153 | sweeping at t1 and then at t2 >= t1 equals sweeping at t2 alone |
| `Expiry.LazyEqualsEager` | internal/store/memory/store.go:134-153 | in every run the lazy store and one swept at every instant give the same answers and end in the same state |
| `Expiry.ReachableStoreOk` | internal/store/memory/store.go:39-153 | in every reachable store the representation invariant holds and CreatedAt <= ClaimedAt <= ClosedAt <= ExpiresAt < TombstoneExpiresAt for sessions claimed and closed |
| `Expiry.ReachableLeases` | internal/store/memory/store.go:86-97 | in every reachable store both capacity limits hold of the lease map, and swept at any later instant it numbers the successful claims less releases less expiries, each counted from the calls |
| `RedisStore.Store.RunCreateScript` | internal/store/redis/store.go:34-55 | the script, command by command, computes the specified state and code |
| `RedisStore.Store.RunClaimScript` | internal/store/redis/store.go:57-85 | the script, command by command, prunes, checks and grants as specified |
| `RedisStore.Store.RunCloseScript` | internal/store/redis/store.go:87-96 | the script, command by command, computes the specified state and code |
| `RedisStore.Store.CreateOrGet` | internal/store/redis/store.go:98-127 | script and reload, uninterrupted, give the specified state and answer |
| `RedisStore.Store.GetByKey` | internal/store/redis/store.go:129-138 | finds the session named under a key, if neither has expired, and changes nothing |
| `RedisStore.Store.ClaimAndReserve` | internal/store/redis/store.go:140-183 | identity read, script and reload, uninterrupted, give the specified state and answer |
| `RedisStore.Store.CloseAndRelease` | internal/store/redis/store.go:185-209 | identity read and script, uninterrupted, give the specified state and answer |
| `RedisRuns.RunMatches` | internal/store/redis/store.go:34-96 | after any run the hashes, key strings and the unexpired members of every lease set are those of the ledger, with no sweep at all |
| `RedisRuns.RedisAnswersFromLedger` | internal/store/redis/store.go:34-209 | every answer of the Redis store in every run is the one the ledger expects, but for a wrong late close |
| `Refinement.RedisRefinesMemory` | internal/store/storetest/contract.go:15-160 | for every run whose closes present the lease ID of their claim, both stores give the same results, sessions and lease expiries |
| `Refinement.StoresAgreeExactly` | internal/store/redis/store.go:57-96 | for every run, the stores answer a call alike if and only if it is not a close naming a wrong lease of a session whose lease ran out unclosed |
| `Refinement.StoresDisagreeOnLateClose` | internal/store/redis/store.go:91 | a concrete run on which the memory store reports success and Redis a failed precondition |
| `RedisClients.EveryScheduleIsSafe` | internal/store/redis/store.go:140-209 | under every interleaving of any number of clients with stale instants: each session is won at most once, at most one client holds or was answered with its claim and has won it, no sorted set outgrows its limit, all sets agree, and what a client has read stays true |
| `RedisClients.OneClientPerLease` | internal/store/redis/store.go:140-183 | under every interleaving two clients that were answered with the lease of one session are one client, and it won the session |
| `RedisClients.IntentsAreFrozen` | internal/store/redis/store.go:140-183 | under every interleaving subject, key and the rest of the intent never change, and no session returns to an earlier state |
| `RedisClients.ClaimedSessionsWithinLimits` | internal/store/redis/store.go:57-85 | under every interleaving claimed unexpired sessions keep to both limits |
| `RedisClients.LeaseSetsAgree` | internal/store/redis/store.go:59-83 | under every interleaving an ID is an unexpired global member exactly when its hash is claimed and unexpired, and each subject's unexpired members are the global ones of that subject |
| `StoredTimes.StoredInstant` | internal/store/redis/store.go:319-331 | an instant read back is cut to its millisecond, or zero at millisecond 0; it survives exactly when zero or a whole millisecond other than the epoch |
| `Fingerprint.FingerprintOf` | internal/session/manager.go:327-363 | the loops feed the hash the length-prefixed fields of the request in order |
| `Fingerprint.StreamInjective` | internal/session/manager.go:329-334 | length-prefixed fields under 2^32 bytes can be read off the stream in only one way |
| `Fingerprint.StreamDeterminesRequest` | internal/session/manager.go:327-363 | with bindings of the same kinds, the bytes hashed are equal if and only if the requests are, apart from request ID, idempotency key and disabled bindings |
| `Fingerprint.SameBytesSameRequest` | internal/session/manager.go:336-357 | whenever two requests feed the hash the same bytes, they ask for the same thing if and only if their bindings are of the same kinds |
| `Tickets.FingerprintsCollideAcrossShapes` | internal/session/manager.go:338-349 | two valid requests that ask for different things and have one fingerprint |
| `Manager.DecryptUndoesEncrypt` | internal/session/manager.go:250-263 | a nonce-prefixed ciphertext opens to what was sealed |
| `Manager.CandidateIsSealed` | internal/session/manager.go:114-139 | an issued candidate is what a store expects, and its ciphertext opens to the very ticket whose digest is stored |
| `Manager.Manager.Issue` | internal/session/manager.go:79-159 | turned away without touching the store, or answered from the store's create with the new or the decrypted ticket; the store stays valid if the drawn ID is new to it |
| `Manager.Manager.Replay` | internal/session/manager.go:174-199 | the answer is that of the session found under the key; the store is not modified |
| `Manager.Manager.ClaimSession` | internal/session/manager.go:201-242 | the store's claim by the ticket's digest, and the access of the lease |
| `Manager.Manager.CloseSession` | internal/session/manager.go:244-248 | the store's close |
| `Admission.RefusalLaw` | internal/session/manager.go:79-98 | which requests are turned away and with which error: foreign VM or instance bindings, missing names, modes or sizes that do not fit, and the validators' verdicts |
| `Admission.ReplayLaw` | internal/session/manager.go:174-199 | which replays are an invalid request, not found, a conflict, a failed precondition, and which return the stored session and its ticket |
| `Admission.FreshRequestIsIssued` | internal/session/manager.go:102-158 | in a run of the manager's creates, a request under a key no earlier session keeps is answered with its own ticket and a session that carries, field by field, what was requested |
| `Admission.ClaimsOpenAdmittedAccess` | internal/session/manager.go:297-325 | whatever a claim opens in a run of admitted requests has bindings of its own tenant, instance and workload, names the exec container, has a workload and size of its mode, and had its bindings passed by the validators |
| `Tickets.IssuedRunIsSealed` | internal/session/manager.go:102-139 | in a run whose candidates the manager built, every candidate seals its own ticket, so the next two rows apply |
| `Tickets.StoredTicketsOpen` | internal/session/manager.go:114-139 | in every reachable store each issued session's ciphertext opens to a ticket with the stored digest |
| `Tickets.ReturnedTicketsPass` | internal/session/manager.go:140-158 | a ticket returned by any issue, new or replayed, is never refused as invalid by a later claim of that session |
| `Tickets.ReplayedTicketPasses` | internal/session/manager.go:174-199 | a ticket that replay returns after any run is never refused as invalid by a later claim of its session |
| `Tickets.ReplaySucceedsExactly` | internal/session/manager.go:174-199 | exactly when replay succeeds, and that it returns the stored session with a ticket of the stored digest |
| `Tickets.ReplayHidesLazyExpiry` | internal/session/manager.go:178-191 | a sweep at any instant up to the first clock reading changes nothing that replay answers |
| `Tickets.ReplayAgreesWithIssue` | internal/session/manager.go:170-199 | before the tombstone replay answers just as issuing the original request at that instant would, and after it finds nothing where issuing would create |
| `Tickets.ReplayIsTheSameOnBothStores` | internal/session/manager.go:178-198 | after any run replay answers the same over either store |
| `Tickets.ReplayedRequestIsTheSame` | internal/store/memory/store.go:43-58 | an issue answered with an earlier session repeats its key, and the very same request if and only if the bindings are of the same kinds |
| `Tickets.ClaimServesTheRequest` | internal/session/manager.go:201-242 | a successful claim opens exactly the access one earlier request asked for, by a ticket with the digest of the one it was given |
| `ExecStream.EveryRunKeepsInv` | internal/transport/websocket/connectedsession/exec.go:43-262 | every action of every schedule keeps the whole invariant of pumps, queues, slots and counters |
| `ExecStream.NothingFollowsExit` | internal/transport/websocket/connectedsession/exec.go:187-231 | frames are written in the order accepted; an exit frame is the last, after both outputs have ended, with the runtime's own code |
| `ExecStream.NormalMeansDelivered` | internal/transport/websocket/connectedsession/exec.go:159-231 | a normal end means every accepted frame was written, exit last with the runtime's code, each stream in order, and bytesOut the sum of their lengths (mod 2^64); what the runtime returned is what was written and, at its end, what was refused |
| `ExecLosses.DeliveryIsSureExactly` | internal/transport/websocket/connectedsession/exec.go:159-231 | for every queue size and number of chunks: all runs that end normal have delivered all output if and only if there was no output, or the context may not be cancelled from outside and the chunks number at most the outbound queue |
| `ExecLosses.ShortRunsLoseNothing` | internal/transport/websocket/connectedsession/exec.go:65-75 | an uncancelled run that ends normal has delivered all output if it returned no more chunks, or wrote no more frames, than the outbound queue holds |
| `ExecLosses.BackpressureLosesOutput` | internal/transport/websocket/connectedsession/exec.go:71-73 | for every queue size and every number of chunks above it, an undisturbed run ends normal with the last chunk refused and the backpressure outcome still in its slot |
| `ExecLosses.CancellationLosesOutput` | internal/transport/websocket/connectedsession/exec.go:69-70 | for every queue size and every number of chunks, a cancelled run ends normal with the last chunk refused and no other outcome in the slot |
| `ExecLosses.EveryRunKeepsChunks` | internal/transport/websocket/connectedsession/exec.go:65-75 | in every run each chunk returned was accepted, is on offer or was refused; undisturbed, none is refused before as much was accepted as the queue holds |
| `ExecStream.OutcomeIsFinal` | internal/transport/websocket/connectedsession/exec.go:207-246 | the outcome never changes once chosen, and after a normal one nothing is written or counted |
| `ExecOutcomes.ReportsAreComplete` | internal/transport/websocket/connectedsession/exec.go:53-157 | in every run exactly what events oblige a goroutine to report is reported or about to be: socket errors, invalid frames, full queues, runtime errors, each with its own outcome |
| `ExecOutcomes.SlotKeepsTheFirst` | internal/transport/websocket/connectedsession/exec.go:53-58 | until the main loop chooses, the outcome slot holds the first outcome ever signalled |
| `ExecOutcomes.OutcomeIsChosen` | internal/transport/websocket/connectedsession/exec.go:207-246 | every outcome has one action that chose it, and which; one taken from the slot is the first signalled and some event obliged it |
| `ExecOutcomes.OutcomesOfRuns` | internal/transport/websocket/connectedsession/exec.go:207-246 | no exec run ends with an outcome of a failed start or of VNC |
| `ExecOutcomes.ActivityIsKept` | internal/transport/websocket/connectedsession/exec.go:59-64 | a token waits exactly if a frame was written, taken or applied since one was last taken |
| `ExecStream.InputIsAppliedInOrder` | internal/transport/websocket/connectedsession/exec.go:103-157 | frames applied are a prefix of those the client sent; taken equals applied, failed, underway and queued; the queue is bounded; bytesIn is the stdin applied (mod 2^64) |
| `ExecStream.FramesAreWhatClientsSay` | internal/transport/websocket/connectedsession/exec.go:103-157 | the k-th frame applied is what the k-th message of the client says in its own JSON fields, within the size and dimension limits; reading ends as an invalid frame at exactly the first message that says nothing |
| `ExecStream.OutputIsBounded` | internal/transport/websocket/connectedsession/exec.go:47-80 | accepted output is never more than the queue bound and one frame ahead of the wire |
| `ByteStream.EveryRunKeepsInv` | internal/transport/websocket/connectedsession/module.go:159-276 | every action of every schedule keeps the invariant of both pumps, the slot and the counters |
| `ByteStream.NormalMeansComplete` | internal/transport/websocket/connectedsession/module.go:200-227 | if a serial or VNC run ends normal, every byte read was passed to the socket in order and counted (mod 2^64) |
| `ByteStream.BytesStayInOrder` | internal/transport/websocket/connectedsession/module.go:179-227 | at every step the socket has a prefix of what was read and the runtime a prefix of what the client's messages decode to |
| `ByteStream.PayloadsAreWhatClientsSend` | internal/transport/websocket/connectedsession/module.go:352-417 | payloads are message for message the binary messages (VNC) or the stdin data (serial) the client sent, and what is decoded their concatenation; reading ends as the mode's invalid frame at exactly the first other message |
| `ByteStream.OutcomeIsFinal` | internal/transport/websocket/connectedsession/module.go:237-260 | the outcome never changes once chosen, and after a normal one nothing is read, passed or counted |
| `ByteOutcomes.ReportsAreComplete` | internal/transport/websocket/connectedsession/module.go:166-227 | in every run exactly what events oblige a pump to report is reported or about to be, each with its own outcome |
| `ByteOutcomes.SlotKeepsTheFirst` | internal/transport/websocket/connectedsession/module.go:166-171 | until the main loop chooses, the outcome slot holds the first outcome ever signalled |
| `ByteOutcomes.OutcomeIsChosen` | internal/transport/websocket/connectedsession/module.go:237-256 | every outcome has one action that chose it, and which; one taken from the slot is the first signalled and some event obliged it |
| `ByteOutcomes.OutcomesOfRuns` | internal/transport/websocket/connectedsession/module.go:237-256 | no serial or VNC run ends with an outcome of a failed start, and the invalid frame is that of its mode |
| `ByteOutcomes.ActivityIsKept` | internal/transport/websocket/connectedsession/module.go:172-177 | a token waits exactly if bytes were passed either way since one was last taken |
| `Timers.ResetTimer` | internal/transport/websocket/connectedsession/module.go:462-470 | whatever the timer's state and however long each step takes, it ends as one newly set, with no earlier firing left behind |
| `Timers.TimeoutsAreDue` | internal/transport/websocket/connectedsession/module.go:229-256 | over any number of resets an idle timeout comes a full IdleTimeout after the start or the last token taken, a maximum duration not before ExpiresAt, and each waiting timer is ready exactly from the instant it was set for |
| `Timers.MaxDurationIsPrompt` | internal/transport/websocket/connectedsession/module.go:231-236 | whenever the loop waits the maximum-duration timer is ready exactly from the later of ExpiresAt and the clock reading on, put off by the time between reading and setting alone |
| `Timers.IdleTimeoutIsPrompt` | internal/transport/websocket/connectedsession/module.go:242-243 | whenever the loop waits the idle timer, if its last reset took no time, is ready exactly IdleTimeout after the last token taken |
| `TimedExec.BothSidesRun` | internal/transport/websocket/connectedsession/exec.go:194-246 | loop and timers together: the stream side has made a run of the stream model and the timer side one of the timer model, so all results on either hold of the whole |
| `TimedExec.TimeoutsAreEarned` | internal/transport/websocket/connectedsession/exec.go:234-240 | an exec session that ends idle had taken no token for a full IdleTimeout, and one that ends with its maximum duration did so not before ExpiresAt, by a timer the waiting loop found ready |
| `TimedExec.TimeoutsAreOffered` | internal/transport/websocket/connectedsession/exec.go:234-240 | whenever the loop waits it can end with either timeout exactly from that timer's instant on |
| `TimedBytes.TimeoutsAreEarned` | internal/transport/websocket/connectedsession/module.go:244-249 | the same of a serial or VNC session: no token for a full IdleTimeout, and no maximum duration before ExpiresAt |
| `TimedBytes.TimeoutsAreOffered` | internal/transport/websocket/connectedsession/module.go:244-249 | whenever the loop waits it can end with either timeout exactly from that timer's instant on |
| `Lifecycle.Run` | internal/transport/websocket/connectedsession/module.go:109-145 | outcome, calls made and the store afterwards are those of the trace and of one close of the lease with that outcome |
| `Lifecycle.Carry` | internal/transport/websocket/connectedsession/module.go:125-144 | an opened runtime is signalled as connected, carried, closed and completed, and the lease closed, as the trace says |
| `Lifecycle.RunIsOrderly` | internal/transport/websocket/connectedsession/module.go:109-145 | one final-close decision, one release, one finish, all with the returned outcome; an opened runtime closed once; connected if and only if it was signalled: all this exactly when the run does not connect at a clock reading of zero |
| `Lifecycle.NormalExecFinish` | internal/transport/websocket/connectedsession/module.go:124-131 | a finish that reports a normal exec end comes from a stream delivered as a normal end promises and carries the sum of the bytes on its wire |
| `Lifecycle.ExecFinishCountsInput` | internal/transport/websocket/connectedsession/module.go:124-131 | the bytes in of an exec finish are the stdin applied, but for one write yet to be counted |
| `Lifecycle.NormalByteFinish` | internal/transport/websocket/connectedsession/module.go:142-144 | a finish that reports a normal serial or VNC end comes from a stream whose output was all passed on and carries its length |
| `Lifecycle.Serve` | internal/transport/websocket/handler.go:44-99 | which requests claim through the manager, and that one that succeeds leaves the store claimed and then asked to close with the reason of what followed |
| `Lifecycle.OneReleasePerClaim` | internal/transport/websocket/handler.go:62-98 | every successful claim is followed by exactly one release of its lease, with the reason of what followed |
| `Lifecycle.ServedLeaseIsReleased` | internal/transport/websocket/handler.go:62-98 | after a claim that succeeds and its release, however late, the store has no lease of the session, and the session, if remembered, is closed: at the release with its reason if that came before the lease's end, and otherwise at the lease's end with "max_duration" |
| `Lifecycle.IssuedAccessStarts` | internal/transport/websocket/connectedsession/module.go:336-350 | what a valid request was issued for passes the start check once claimed and upgraded |
| `Endings.OutcomeTells` | internal/transport/websocket/connectedsession/module.go:109-145 | invalid start, target changed and runtime unavailable each come of exactly one cause, and every other outcome is what the carried stream's main loop chose |
| `Endings.TraceTells` | internal/transport/websocket/connectedsession/module.go:278-294 | what is reported of a run: release with the outcome's text, then a finish with the time from connecting to finishing and the stream's own counters; every socket close is decided with that outcome and sent unless the client closed |
| `Endings.TimeoutsAreReal` | internal/transport/websocket/connectedsession/module.go:229-256 | a run reported as max_duration chose that not before its lease's end on the loop's clock, and one reported as idle not before IdleTimeout after its start |
| `Endings.ServedTells` | internal/transport/websocket/handler.go:44-98 | which requests ask for a claim, and for one that succeeds which of subprotocol_rejected, upgrade_failed or a run follows |

## Left out

- Network, process and cluster plumbing: HTTP and gRPC servers, TLS, configuration parsing, tracing,
  metrics, logging, and the KubeVirt and Kubernetes adapters are wrappers over external libraries.
- Failures of I/O and of the random source: a store or a draw that fails returns its error at once.
- Redis field encoding other than instants (hex, base64, JSON): a hash is kept as the session itself.
- JSON and WebSocket framing: strict decoding is a parameter, and what `encodeServerFrame` makes of bytes
  that are no UTF-8 text is not modelled; the wire holds frames and bytes as they were passed on.
- Codes and texts of the final close: only that it is decided, with which outcome, and whether it is sent.
- The reload after a create under interleaving: in `RedisClients` a create is its script alone.
- MemoryStore: the copies that `clone` makes are values here, so aliasing is not modelled.
- ExecStream and ByteStream: goroutines are step systems over values; nothing is claimed about
  termination of pumps, which rests on library calls returning after cancellation.
- ExecStream.NormalMeansDelivered: says nothing of output in runs that end otherwise, because the wire may
  then hold any prefix of what was accepted.
- Lifecycle.Serve: a panic, which net/http would recover, is not modelled.
