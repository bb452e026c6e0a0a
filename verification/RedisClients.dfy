/**
 Many clients of one Redis server, interleaved command by command.

 A claim is three commands (identity read, script, reload) and a close is two, each
 client acting on an instant it read when it began, however late its commands arrive.
 Scripts themselves are atomic, as Redis runs them.
 */
module RedisClients {
  import opened Sessions
  import opened Ledger
  import opened RedisStore
  import RedisRuns

  datatype Client =
    | ClaimRead(id: string, digest: Digest, at: Time)
    | ClaimRun(id: string, digest: Digest, at: Time, subject: string, key: string)
    | ClaimReload(id: string, at: Time)
    | CloseRead(id: string, leaseID: string, reason: string, at: Time)
    | CloseRun(id: string, leaseID: string, reason: string, at: Time, subject: string)
    | Finished(reply: Reply, at: Time)

  /** The server, its clock, the clients, and the IDs that claims have won, in order. */
  datatype World = World(clock: Time, redis: RedisState, clients: map<nat, Client>, wins: seq<string>)

  datatype Action =
    | Tick(elapsed: nat)
    | IssueSession(key: string, candidate: Session)
    | BeginClaim(client: nat, id: string, digest: Digest)
    | BeginClose(client: nat, id: string, leaseID: string, reason: string)
    | Proceed(client: nat)

  const START := World(ZERO_TIME, EMPTY, map[], [])

  /** Candidates carry IDs of their own and an instant already past. */
  predicate Enabled(w: World, a: Action) {
    match a
    case Tick(_) => true
    case IssueSession(_, c) =>
      && c.intent.id !in w.redis.hashes
      && c.intent.createdAt <= w.clock
      && c.state.Issued?
    case BeginClaim(client, _, _) => client !in w.clients
    case BeginClose(client, _, _, _) => client !in w.clients
    case Proceed(client) => client in w.clients && !w.clients[client].Finished?
  }

  /** The next command of one client. */
  function Go(w: World, c: nat, name: string -> string, limits: ClaimLimits): World
    requires c in w.clients && !w.clients[c].Finished?
  {
    match w.clients[c]
    case ClaimRead(id, digest, at) =>
      w.(clients := w.clients[c :=
        match Load(w.redis, id, w.clock)
        case None => Finished(Refused(NotFound), at)
        case Some(s) => ClaimRun(id, digest, at, s.intent.subjectID, s.intent.idempotencyKey)])
    case ClaimRun(id, digest, at, subject, key) =>
      var (redis, code) := ClaimScript(w.redis, w.clock, at, id, digest, limits, name(subject), name(key));
      World(w.clock, redis,
            w.clients[c := if code == 0 then ClaimReload(id, at)
                           else if code == 1 then Finished(Refused(NotFound), at)
                           else if code == 2 then Finished(Refused(InvalidTicket), at)
                           else if code == 3 then Finished(Refused(FailedPrecondition), at)
                           else Finished(Refused(Capacity), at)],
            if code == 0 then w.wins + [id] else w.wins)
    case ClaimReload(id, at) =>
      w.(clients := w.clients[c :=
        match Load(w.redis, id, w.clock)
        case None => Finished(Refused(NotFound), at)
        case Some(s) => Finished(Leased(SessionLease(LeaseIDFor(id), s, at + limits.sessionMaxDuration)), at)])
    case CloseRead(id, leaseID, reason, at) =>
      w.(clients := w.clients[c :=
        match Load(w.redis, id, w.clock)
        case None => Finished(Refused(NotFound), at)
        case Some(s) => CloseRun(id, leaseID, reason, at, s.intent.subjectID)])
    case CloseRun(id, leaseID, reason, at, subject) =>
      var (redis, code) := CloseScript(w.redis, w.clock, at, id, leaseID, reason, name(subject));
      w.(redis := redis,
         clients := w.clients[c := Finished(if code == 0 then Done
                                            else if code == 1 then Refused(NotFound)
                                            else Refused(FailedPrecondition), at)])
  }

  function Apply(w: World, a: Action, name: string -> string, limits: ClaimLimits): World {
    if !Enabled(w, a) then w
    else match a
      case Tick(elapsed) => w.(clock := w.clock + elapsed)
      case IssueSession(key, candidate) => w.(redis := CreateScript(w.redis, w.clock, name(key), candidate).0)
      case BeginClaim(client, id, digest) => w.(clients := w.clients[client := ClaimRead(id, digest, w.clock)])
      case BeginClose(client, id, leaseID, reason) =>
        w.(clients := w.clients[client := CloseRead(id, leaseID, reason, w.clock)])
      case Proceed(client) => Go(w, client, name, limits)
  }

  /** The world after the first n actions of any schedule. */
  function WorldAt(actions: seq<Action>, n: nat, name: string -> string, limits: ClaimLimits): World
    requires n <= |actions|
  {
    if n == 0 then START else Apply(WorldAt(actions, n - 1, name, limits), actions[n - 1], name, limits)
  }

  // -------------------------------------------------------------- invariants

  type Hashes = map<string, Keyed<Session>>

  /** The lease of a claimed session has not run out. */
  predicate Unexpired(hashes: Hashes, id: string, clock: Time) {
    id in hashes && hashes[id].value.state.Claimed? && clock < hashes[id].value.expiresAt
  }

  ghost predicate GlobalCoherent(leases: LeaseSet, hashes: Hashes, clock: Time) {
    && (forall id :: id in leases && clock < leases[id] ==>
          Unexpired(hashes, id, clock) && leases[id] == hashes[id].value.expiresAt)
    && (forall id :: Unexpired(hashes, id, clock) ==> id in leases && leases[id] == hashes[id].value.expiresAt)
  }

  ghost predicate SubjectCoherent(leases: LeaseSet, name: string -> string, subjectKey: string, hashes: Hashes, clock: Time) {
    && (forall id :: id in leases && clock < leases[id] ==>
          && Unexpired(hashes, id, clock)
          && leases[id] == hashes[id].value.expiresAt
          && name(hashes[id].value.intent.subjectID) == subjectKey)
    && (forall id :: Unexpired(hashes, id, clock) && name(hashes[id].value.intent.subjectID) == subjectKey ==>
          id in leases && leases[id] == hashes[id].value.expiresAt)
  }

  ghost predicate SubjectsCoherent(subjects: map<string, LeaseSet>, name: string -> string, hashes: Hashes, clock: Time) {
    forall subjectKey :: SubjectCoherent(SubjectSet(subjects, subjectKey), name, subjectKey, hashes, clock)
  }

  /** Each subject's set is pruned only by that subject's claims, yet all sets agree on
      what is unexpired. */
  ghost predicate Coherent(st: RedisState, name: string -> string, clock: Time) {
    GlobalCoherent(st.leases, st.hashes, clock) && SubjectsCoherent(st.subjects, name, st.hashes, clock)
  }

  /** The sorted sets themselves never outgrow the limits, expired members included. */
  ghost predicate WithinLimits(st: RedisState, limits: ClaimLimits) {
    && |st.leases| <= limits.maxActive
    && forall subjectKey :: |SubjectSet(st.subjects, subjectKey)| <= limits.maxActivePerSubject
  }

  ghost predicate WonOnce(wins: seq<string>, hashes: Hashes) {
    && (forall i, j :: 0 <= i < j < |wins| ==> wins[i] != wins[j])
    && (forall i :: 0 <= i < |wins| ==> wins[i] in hashes && !hashes[wins[i]].value.state.Issued?)
  }

  /** What a client has read is still so, and its instant is past. */
  predicate ClientOk(c: Client, hashes: Hashes, clock: Time) {
    && c.at <= clock
    && match c
       case ClaimRun(id, _, _, subject, key) =>
         && id in hashes
         && hashes[id].value.intent.subjectID == subject
         && hashes[id].value.intent.idempotencyKey == key
       case CloseRun(id, _, _, _, subject) => id in hashes && hashes[id].value.intent.subjectID == subject
       case _ => true
  }

  ghost predicate ClientsOk(w: World) {
    forall c :: c in w.clients ==> ClientOk(w.clients[c], w.redis.hashes, w.clock)
  }

  /** The client has been granted the claim of a session, or has been answered with its lease. */
  predicate Claims(c: Client, id: string) {
    || (c.ClaimReload? && c.id == id)
    || (c.Finished? && c.reply.Leased? && c.reply.lease.id == LeaseIDFor(id))
  }

  /** No two clients hold a claim of one session, and whoever holds one has won it. */
  ghost predicate WinnersOk(clients: map<nat, Client>, wins: seq<string>) {
    && (forall a, id :: a in clients && Claims(clients[a], id) ==> id in wins)
    && (forall a, b, id :: a in clients && b in clients && Claims(clients[a], id) && Claims(clients[b], id) ==> a == b)
  }

  ghost predicate Safe(w: World, name: string -> string, limits: ClaimLimits) {
    && Coherent(w.redis, name, w.clock)
    && WithinLimits(w.redis, limits)
    && WonOnce(w.wins, w.redis.hashes)
    && ClientsOk(w)
    && WinnersOk(w.clients, w.wins)
  }

  /** Hashes stay, their intents stay, and no session comes back to an earlier state. */
  ghost predicate Frozen(hashes: Hashes, hashes': Hashes) {
    forall id :: id in hashes ==>
      && id in hashes'
      && hashes'[id].value.intent == hashes[id].value.intent
      && (hashes'[id].value.state.Issued? ==> hashes[id].value.state.Issued?)
      && (hashes[id].value.state.Closed? ==> hashes'[id].value.state.Closed?)
  }

  // ------------------------------------------------------- parts of one step

  lemma {:induction false} PruneKeepsGlobal(leases: LeaseSet, hashes: Hashes, at: Time, clock: Time)
    requires GlobalCoherent(leases, hashes, clock) && at <= clock
    ensures GlobalCoherent(Pruned(leases, at), hashes, clock)
    ensures |Pruned(leases, at)| <= |leases|
  {
    SubsetCardinality(Pruned(leases, at).Keys, leases.Keys);
    assert |Pruned(leases, at)| == |Pruned(leases, at).Keys| && |leases| == |leases.Keys|;
  }

  lemma {:induction false} PruneKeepsSubject(leases: LeaseSet, name: string -> string, subjectKey: string,
                                             hashes: Hashes, at: Time, clock: Time)
    requires SubjectCoherent(leases, name, subjectKey, hashes, clock) && at <= clock
    ensures SubjectCoherent(Pruned(leases, at), name, subjectKey, hashes, clock)
    ensures |Pruned(leases, at)| <= |leases|
  {
    SubsetCardinality(Pruned(leases, at).Keys, leases.Keys);
    assert |Pruned(leases, at)| == |Pruned(leases, at).Keys| && |leases| == |leases.Keys|;
  }

  /** One hash changes: the set follows it in, follows it out, or never had it. */
  lemma {:induction false} ChangeKeepsGlobal(leases: LeaseSet, hashes: Hashes, id: string, h: Keyed<Session>,
                                             clock: Time)
    requires GlobalCoherent(leases, hashes, clock)
    ensures h.value.state.Claimed? ==> GlobalCoherent(leases[id := h.value.expiresAt], hashes[id := h], clock)
    ensures !h.value.state.Claimed? ==> GlobalCoherent(leases - {id}, hashes[id := h], clock)
    ensures !h.value.state.Claimed? && !Unexpired(hashes, id, clock) ==> GlobalCoherent(leases, hashes[id := h], clock)
  {
  }

  lemma {:induction false} ChangeKeepsSubject(leases: LeaseSet, name: string -> string, subjectKey: string,
                                              hashes: Hashes, id: string, h: Keyed<Session>, clock: Time)
    requires SubjectCoherent(leases, name, subjectKey, hashes, clock)
    requires id in hashes ==> hashes[id].value.intent == h.value.intent
    ensures name(h.value.intent.subjectID) != subjectKey ==>
              SubjectCoherent(leases, name, subjectKey, hashes[id := h], clock)
    ensures name(h.value.intent.subjectID) == subjectKey && h.value.state.Claimed? ==>
              SubjectCoherent(leases[id := h.value.expiresAt], name, subjectKey, hashes[id := h], clock)
    ensures name(h.value.intent.subjectID) == subjectKey && !h.value.state.Claimed? ==>
              SubjectCoherent(leases - {id}, name, subjectKey, hashes[id := h], clock)
    ensures !h.value.state.Claimed? && !Unexpired(hashes, id, clock) ==>
              SubjectCoherent(leases, name, subjectKey, hashes[id := h], clock)
  {
    if name(h.value.intent.subjectID) == subjectKey {
      MemberChanges(leases, name, subjectKey, hashes, id, h, clock);
    } else {
      StrangerChanges(leases, name, subjectKey, hashes, id, h, clock);
    }
    if !h.value.state.Claimed? && !Unexpired(hashes, id, clock) {
      NoLeaseChanges(leases, name, subjectKey, hashes, id, h, clock);
    }
    hide SubjectCoherent;
  }

  lemma {:induction false} StrangerChanges(leases: LeaseSet, name: string -> string, subjectKey: string,
                                           hashes: Hashes, id: string, h: Keyed<Session>, clock: Time)
    requires SubjectCoherent(leases, name, subjectKey, hashes, clock)
    requires id in hashes ==> hashes[id].value.intent == h.value.intent
    requires name(h.value.intent.subjectID) != subjectKey
    ensures SubjectCoherent(leases, name, subjectKey, hashes[id := h], clock)
  {
  }

  lemma {:induction false} MemberChanges(leases: LeaseSet, name: string -> string, subjectKey: string, hashes: Hashes,
                                         id: string, h: Keyed<Session>, clock: Time)
    requires SubjectCoherent(leases, name, subjectKey, hashes, clock)
    requires name(h.value.intent.subjectID) == subjectKey
    ensures SubjectCoherent(if h.value.state.Claimed? then leases[id := h.value.expiresAt] else leases - {id},
                            name, subjectKey, hashes[id := h], clock)
  {
  }

  lemma {:induction false} NoLeaseChanges(leases: LeaseSet, name: string -> string, subjectKey: string,
                                          hashes: Hashes, id: string, h: Keyed<Session>, clock: Time)
    requires SubjectCoherent(leases, name, subjectKey, hashes, clock)
    requires id in hashes ==> hashes[id].value.intent == h.value.intent
    requires !h.value.state.Claimed? && !Unexpired(hashes, id, clock)
    ensures SubjectCoherent(leases, name, subjectKey, hashes[id := h], clock)
  {
  }

  /** A hash that was and is no lease leaves all sets coherent. */
  lemma {:induction false} QuietChange(st: RedisState, name: string -> string, id: string, h: Keyed<Session>,
                                       clock: Time)
    requires Coherent(st, name, clock) && !h.value.state.Claimed? && !Unexpired(st.hashes, id, clock)
    requires id in st.hashes ==> st.hashes[id].value.intent == h.value.intent
    ensures Coherent(st.(hashes := st.hashes[id := h]), name, clock)
  {
    ChangeKeepsGlobal(st.leases, st.hashes, id, h, clock);
    forall subjectKey
      ensures SubjectCoherent(SubjectSet(st.subjects, subjectKey), name, subjectKey, st.hashes[id := h], clock)
    {
      assert SubjectCoherent(SubjectSet(st.subjects, subjectKey), name, subjectKey, st.hashes, clock);
      ChangeKeepsSubject(SubjectSet(st.subjects, subjectKey), name, subjectKey, st.hashes, id, h, clock);
    }
  }

  lemma {:induction false} PruneKeeps(st: RedisState, name: string -> string, subjectKey: string, at: Time,
                                      clock: Time, limits: ClaimLimits)
    requires Coherent(st, name, clock) && WithinLimits(st, limits) && at <= clock
    ensures var pruned := st.(leases := Pruned(st.leases, at),
                              subjects := st.subjects[subjectKey := Pruned(SubjectSet(st.subjects, subjectKey), at)]);
            Coherent(pruned, name, clock) && WithinLimits(pruned, limits)
  {
    var mine := SubjectSet(st.subjects, subjectKey);
    var pruned := st.(leases := Pruned(st.leases, at), subjects := st.subjects[subjectKey := Pruned(mine, at)]);
    assert SubjectCoherent(mine, name, subjectKey, st.hashes, clock) && |mine| <= limits.maxActivePerSubject;
    PruneKeepsGlobal(st.leases, st.hashes, at, clock);
    PruneKeepsSubject(mine, name, subjectKey, st.hashes, at, clock);
    hide GlobalCoherent, SubjectCoherent, Pruned;
    forall other
      ensures SubjectCoherent(SubjectSet(pruned.subjects, other), name, other, st.hashes, clock)
      ensures |SubjectSet(pruned.subjects, other)| <= limits.maxActivePerSubject
    {
      assert SubjectCoherent(SubjectSet(st.subjects, other), name, other, st.hashes, clock);
      assert |SubjectSet(st.subjects, other)| <= limits.maxActivePerSubject;
    }
  }

  /** A grant joins the global set and its own subject's set, with room in both. */
  lemma {:induction false} GrantKeeps(st: RedisState, name: string -> string, id: string, h: Keyed<Session>,
                                      clock: Time, limits: ClaimLimits)
    requires Coherent(st, name, clock) && WithinLimits(st, limits) && id in st.hashes
    requires h.value.state.Claimed? && st.hashes[id].value.intent == h.value.intent
    requires |st.leases| < limits.maxActive
    requires |SubjectSet(st.subjects, name(h.value.intent.subjectID))| < limits.maxActivePerSubject
    ensures var sk := name(h.value.intent.subjectID);
            var st' := st.(hashes := st.hashes[id := h],
                           leases := st.leases[id := h.value.expiresAt],
                           subjects := st.subjects[sk := SubjectSet(st.subjects, sk)[id := h.value.expiresAt]]);
            Coherent(st', name, clock) && WithinLimits(st', limits)
  {
    var sk := name(h.value.intent.subjectID);
    var subjects := st.subjects[sk := SubjectSet(st.subjects, sk)[id := h.value.expiresAt]];
    ChangeKeepsGlobal(st.leases, st.hashes, id, h, clock);
    forall other
      ensures SubjectCoherent(SubjectSet(subjects, other), name, other, st.hashes[id := h], clock)
      ensures |SubjectSet(subjects, other)| <= limits.maxActivePerSubject
    {
      assert SubjectCoherent(SubjectSet(st.subjects, other), name, other, st.hashes, clock);
      assert |SubjectSet(st.subjects, other)| <= limits.maxActivePerSubject;
      ChangeKeepsSubject(SubjectSet(st.subjects, other), name, other, st.hashes, id, h, clock);
      hide SubjectCoherent;
    }
    hide GlobalCoherent, SubjectCoherent;
  }

  lemma {:induction false} ReleaseKeepsSubject(st: RedisState, name: string -> string, id: string, h: Keyed<Session>,
                                               clock: Time, limits: ClaimLimits, other: string)
    requires Coherent(st, name, clock) && WithinLimits(st, limits) && id in st.hashes
    requires !h.value.state.Claimed? && st.hashes[id].value.intent == h.value.intent
    ensures var sk := name(h.value.intent.subjectID);
            var subjects := st.subjects[sk := SubjectSet(st.subjects, sk) - {id}];
            && SubjectCoherent(SubjectSet(subjects, other), name, other, st.hashes[id := h], clock)
            && |SubjectSet(subjects, other)| <= limits.maxActivePerSubject
  {
    hide SubjectCoherent, GlobalCoherent;
    assert SubjectCoherent(SubjectSet(st.subjects, other), name, other, st.hashes, clock);
    assert |SubjectSet(st.subjects, other)| <= limits.maxActivePerSubject;
    ChangeKeepsSubject(SubjectSet(st.subjects, other), name, other, st.hashes, id, h, clock);
    SmallerWithout(SubjectSet(st.subjects, other), id);
  }

  /** A release leaves the global set and its own subject's set. */
  lemma {:induction false} ReleaseKeeps(st: RedisState, name: string -> string, id: string, h: Keyed<Session>,
                                        clock: Time, limits: ClaimLimits)
    requires Coherent(st, name, clock) && WithinLimits(st, limits) && id in st.hashes
    requires !h.value.state.Claimed? && st.hashes[id].value.intent == h.value.intent
    ensures var sk := name(h.value.intent.subjectID);
            var st' := st.(hashes := st.hashes[id := h],
                           leases := st.leases - {id},
                           subjects := st.subjects[sk := SubjectSet(st.subjects, sk) - {id}]);
            Coherent(st', name, clock) && WithinLimits(st', limits)
  {
    hide GlobalCoherent, SubjectCoherent;
    var sk := name(h.value.intent.subjectID);
    var subjects := st.subjects[sk := SubjectSet(st.subjects, sk) - {id}];
    ChangeKeepsGlobal(st.leases, st.hashes, id, h, clock);
    SmallerWithout(st.leases, id);
    forall other
      ensures SubjectCoherent(SubjectSet(subjects, other), name, other, st.hashes[id := h], clock)
      ensures |SubjectSet(subjects, other)| <= limits.maxActivePerSubject
    {
      ReleaseKeepsSubject(st, name, id, h, clock, limits, other);
    }
    hide SubjectSet;
  }

  lemma {:induction false} SmallerWithout(leases: LeaseSet, id: string)
    ensures |leases - {id}| <= |leases|
  {
    SubsetCardinality((leases - {id}).Keys, leases.Keys);
    assert |leases - {id}| == |(leases - {id}).Keys| && |leases| == |leases.Keys|;
  }

  // ------------------------------------------------------------- each script

  /** What every script keeps. */
  ghost predicate Kept(st: RedisState, st': RedisState, name: string -> string, clock: Time, limits: ClaimLimits) {
    Coherent(st', name, clock) && WithinLimits(st', limits) && Frozen(st.hashes, st'.hashes)
  }

  predicate Forward(s: Session, s': Session) {
    s'.intent == s.intent && (s'.state.Issued? ==> s.state.Issued?) && (s.state.Closed? ==> s'.state.Closed?)
  }

  lemma {:induction false} ChangeKeepsFrozen(hashes: Hashes, id: string, h: Keyed<Session>)
    requires id in hashes ==> Forward(hashes[id].value, h.value)
    ensures Frozen(hashes, hashes[id := h]) && Frozen(hashes, hashes)
  {
  }

  lemma {:induction false} CreateScriptKeeps(st: RedisState, name: string -> string, clock: Time, idemKey: string,
                                             candidate: Session, limits: ClaimLimits)
    requires Coherent(st, name, clock) && WithinLimits(st, limits)
    requires candidate.intent.id !in st.hashes && candidate.state.Issued?
    ensures Kept(st, CreateScript(st, clock, idemKey, candidate).0, name, clock, limits)
  {
    if Exists(st.idem, idemKey, clock) {
      var sid := st.idem[idemKey].value;
      if Exists(st.hashes, sid, clock) {
        var spent := TicketExpired(st.hashes[sid].value, candidate.intent.createdAt);
        ChangeKeepsFrozen(st.hashes, sid, Keyed(spent, st.hashes[sid].expireAt));
        if st.hashes[sid].value.state.Issued? {
          QuietChange(st, name, sid, Keyed(spent, st.hashes[sid].expireAt), clock);
        }
      }
    } else {
      QuietChange(st, name, candidate.intent.id, Keyed(candidate, candidate.tombstoneExpiresAt), clock);
    }
    ChangeKeepsFrozen(st.hashes, candidate.intent.id, Keyed(candidate, candidate.tombstoneExpiresAt));
    hide GlobalCoherent, SubjectsCoherent, Frozen;
  }

  lemma {:induction false} ClaimScriptKeeps(st: RedisState, name: string -> string, clock: Time, at: Time, id: string,
                                            digest: Digest, limits: ClaimLimits, subject: string, key: string)
    requires Coherent(st, name, clock) && WithinLimits(st, limits) && at <= clock
    requires id in st.hashes && st.hashes[id].value.intent.subjectID == subject
    ensures var (st', code) := ClaimScript(st, clock, at, id, digest, limits, name(subject), name(key));
            && Kept(st, st', name, clock, limits)
            && (code == 0 ==> st.hashes[id].value.state.Issued? && st'.hashes[id].value.state.Claimed?
                              && st.hashes[id].value.intent.ticketDigest == digest)
  {
    var stored, sk := st.hashes[id].value, name(subject);
    var pruned := st.(leases := Pruned(st.leases, at),
                      subjects := st.subjects[sk := Pruned(SubjectSet(st.subjects, sk), at)]);
    hide GlobalCoherent, SubjectsCoherent, WithinLimits, Frozen, Pruned, SubjectSet, TicketExpired, ClaimedSession;
    PruneKeeps(st, name, sk, at, clock, limits);
    ClaimScriptFreezes(st, clock, at, id, digest, limits, sk, name(key));
    if Exists(st.hashes, id, clock) && stored.state.Issued? {
      if stored.intent.ticketExpiresAt <= at {
        SpentState(pruned, name, clock, at, id);
        WithinLimitsIgnoresHashes(pruned, SetHash(pruned, id, TicketExpired(stored, at)), limits);
      } else if ClaimScript(st, clock, at, id, digest, limits, sk, name(key)).1 == 0 {
        hide ClaimScript;
        GrantedState(st, pruned, name, clock, at, id, digest, limits, subject, key);
      }
    }
  }

  lemma {:induction false} ClaimScriptFreezes(st: RedisState, clock: Time, at: Time, id: string, digest: Digest,
                                              limits: ClaimLimits, subjectKey: string, idemKey: string)
    requires id in st.hashes
    ensures var (st', code) := ClaimScript(st, clock, at, id, digest, limits, subjectKey, idemKey);
            && Frozen(st.hashes, st'.hashes)
            && (code == 0 ==> st.hashes[id].value.state.Issued? && st'.hashes[id].value.state.Claimed?
                              && st.hashes[id].value.intent.ticketDigest == digest)
  {
    var stored := st.hashes[id].value;
    var claimed := ClaimedSession(stored, at, limits);
    if stored.state.Issued? {
      ChangeKeepsFrozen(st.hashes, id, Keyed(claimed, claimed.tombstoneExpiresAt));
      ChangeKeepsFrozen(st.hashes, id, Keyed(TicketExpired(stored, at), st.hashes[id].expireAt));
    }
    hide Pruned, SubjectSet;
    if !stored.state.Issued? {
      ChangeKeepsFrozen(st.hashes, id, st.hashes[id]);
    }
    hide Frozen;
  }

  lemma {:induction false} SpentState(st: RedisState, name: string -> string, clock: Time, at: Time, id: string)
    requires Coherent(st, name, clock) && id in st.hashes && st.hashes[id].value.state.Issued?
    ensures Coherent(SetHash(st, id, TicketExpired(st.hashes[id].value, at)), name, clock)
  {
    hide GlobalCoherent, SubjectsCoherent;
    QuietChange(st, name, id, Keyed(TicketExpired(st.hashes[id].value, at), st.hashes[id].expireAt), clock);
  }

  lemma {:induction false} WithinLimitsIgnoresHashes(st: RedisState, st': RedisState, limits: ClaimLimits)
    requires WithinLimits(st, limits) && st'.leases == st.leases && st'.subjects == st.subjects
    ensures WithinLimits(st', limits)
  {
  }

  lemma {:induction false} GrantedState(st: RedisState, pruned: RedisState, name: string -> string, clock: Time,
                                        at: Time, id: string, digest: Digest, limits: ClaimLimits, subject: string,
                                        key: string)
    requires Exists(st.hashes, id, clock) && st.hashes[id].value.intent.subjectID == subject
    requires pruned == st.(leases := Pruned(st.leases, at),
                           subjects := st.subjects[name(subject) := Pruned(SubjectSet(st.subjects, name(subject)), at)])
    requires Coherent(pruned, name, clock) && WithinLimits(pruned, limits)
    requires ClaimScript(st, clock, at, id, digest, limits, name(subject), name(key)).1 == 0
    ensures var st' := ClaimScript(st, clock, at, id, digest, limits, name(subject), name(key)).0;
            Coherent(st', name, clock) && WithinLimits(st', limits)
  {
    var sk, claimed := name(subject), ClaimedSession(st.hashes[id].value, at, limits);
    var mine := pruned.subjects[sk][id := claimed.expiresAt];
    assert pruned.subjects[sk := mine] == st.subjects[sk := mine];
    hide GlobalCoherent, SubjectsCoherent, Pruned;
    GrantKeeps(pruned, name, id, Keyed(claimed, claimed.tombstoneExpiresAt), clock, limits);
  }

  lemma {:induction false} CloseScriptKeeps(st: RedisState, name: string -> string, clock: Time, at: Time, id: string,
                                            leaseID: string, reason: string, subject: string, limits: ClaimLimits)
    requires Coherent(st, name, clock) && WithinLimits(st, limits)
    requires id in st.hashes && st.hashes[id].value.intent.subjectID == subject
    ensures Kept(st, CloseScript(st, clock, at, id, leaseID, reason, name(subject)).0, name, clock, limits)
  {
    var released := Keyed(ReleasedSession(st.hashes[id].value, at, reason), st.hashes[id].expireAt);
    var sk, st' := name(subject), CloseScript(st, clock, at, id, leaseID, reason, name(subject)).0;
    assert !released.value.state.Claimed? && released.value.intent == st.hashes[id].value.intent;
    assert st' == st || st' == st.(hashes := st.hashes[id := released],
                                   leases := st.leases - {id},
                                   subjects := st.subjects[sk := SubjectSet(st.subjects, sk) - {id}]);
    assert Forward(st.hashes[id].value, released.value);
    hide Coherent, WithinLimits, SubjectSet, Frozen, ReleasedSession, CloseScript;
    ReleaseKeeps(st, name, id, released, clock, limits);
    ChangeKeepsFrozen(st.hashes, id, released);
    ReflexivelyFrozen(st.hashes);
  }

  // --------------------------------------------------------------- each step

  lemma {:induction false} ClientsStayOk(w: World, hashes: Hashes, clock: Time)
    requires ClientsOk(w) && Frozen(w.redis.hashes, hashes) && w.clock <= clock
    ensures forall c :: c in w.clients ==> ClientOk(w.clients[c], hashes, clock)
  {
  }

  lemma {:induction false} WinsStay(wins: seq<string>, hashes: Hashes, hashes': Hashes)
    requires WonOnce(wins, hashes) && Frozen(hashes, hashes')
    ensures WonOnce(wins, hashes')
  {
  }

  lemma {:induction false} TimeKeepsCoherent(st: RedisState, name: string -> string, clock: Time, later: Time)
    requires Coherent(st, name, clock) && clock <= later
    ensures Coherent(st, name, later)
  {
    forall subjectKey
      ensures SubjectCoherent(SubjectSet(st.subjects, subjectKey), name, subjectKey, st.hashes, later)
    {
      assert SubjectCoherent(SubjectSet(st.subjects, subjectKey), name, subjectKey, st.hashes, clock);
    }
  }

  /** A winner's hash leaves the issued state in the same step, so it cannot win again. */
  lemma {:induction false} GoKeepsSafe(w: World, c: nat, name: string -> string, limits: ClaimLimits)
    requires Safe(w, name, limits) && c in w.clients && !w.clients[c].Finished?
    ensures Safe(Go(w, c, name, limits), name, limits)
    ensures Frozen(w.redis.hashes, Go(w, c, name, limits).redis.hashes)
  {
    var w' := Go(w, c, name, limits);
    assert ClientOk(w.clients[c], w.redis.hashes, w.clock);
    hide Coherent, WithinLimits, Frozen, WonOnce, WinnersOk, Go;
    GoKeepsStore(w, c, name, limits);
    GoKeepsClients(w, c, name, limits);
    GoKeepsWinners(w, c, name, limits);
    if w'.wins == w.wins {
      WinsStay(w.wins, w.redis.hashes, w'.redis.hashes);
    } else {
      WinsGrow(w.wins, w.redis.hashes, w'.redis.hashes, w.clients[c].id);
    }
  }

  /** Lease IDs tell sessions apart. */
  lemma {:induction false} LeaseIDInjective(a: string, b: string)
    requires LeaseIDFor(a) == LeaseIDFor(b)
    ensures a == b
  {
    assert LeaseIDFor(a)[..|a|] == a && LeaseIDFor(b)[..|b|] == b;
  }

  /** A client claims only what it claimed before, unless its script has just been granted. */
  lemma {:induction false} GoClaims(w: World, c: nat, name: string -> string, limits: ClaimLimits, id: string)
    requires c in w.clients && !w.clients[c].Finished?
    ensures var w' := Go(w, c, name, limits);
            Claims(w'.clients[c], id) ==>
              Claims(w.clients[c], id) || (w'.wins == w.wins + [id] && w.clients[c].ClaimRun? && w.clients[c].id == id)
  {
    hide ClaimScript, CloseScript;
    if w.clients[c].ClaimReload? && LeaseIDFor(w.clients[c].id) == LeaseIDFor(id) {
      LeaseIDInjective(w.clients[c].id, id);
    }
  }

  /** Whatever the client claims after its command it has won, and nobody else claims it. */
  lemma {:induction false} GoWins(w: World, c: nat, name: string -> string, limits: ClaimLimits, id: string)
    requires Safe(w, name, limits) && c in w.clients && !w.clients[c].Finished?
    requires Claims(Go(w, c, name, limits).clients[c], id)
    ensures id in Go(w, c, name, limits).wins
    ensures forall other :: other in w.clients && other != c ==> !Claims(w.clients[other], id)
  {
    var w' := Go(w, c, name, limits);
    assert ClientOk(w.clients[c], w.redis.hashes, w.clock);
    hide Go, Claims, Coherent, WithinLimits, ClientsOk;
    GoMovesOne(w, c, name, limits);
    GoClaims(w, c, name, limits, id);
    if !Claims(w.clients[c], id) {
      GoKeepsStore(w, c, name, limits);
      assert w'.wins[|w.wins|] == id;
      NotYetWon(w.wins, w.redis.hashes, id);
    }
  }

  lemma {:induction false} GoKeepsWinners(w: World, c: nat, name: string -> string, limits: ClaimLimits)
    requires Safe(w, name, limits) && c in w.clients && !w.clients[c].Finished?
    ensures WinnersOk(Go(w, c, name, limits).clients, Go(w, c, name, limits).wins)
  {
    assert WinnersOk(w.clients, w.wins);
    hide Go, Claims, Safe;
    GoMovesOne(w, c, name, limits);
    forall id | Claims(Go(w, c, name, limits).clients[c], id)
      ensures id in Go(w, c, name, limits).wins
      ensures forall other :: other in w.clients && other != c ==> !Claims(w.clients[other], id)
    {
      GoWins(w, c, name, limits, id);
    }
  }

  lemma {:induction false} NotYetWon(wins: seq<string>, hashes: Hashes, id: string)
    requires WonOnce(wins, hashes) && id in hashes && hashes[id].value.state.Issued?
    ensures id !in wins
  {
  }

  /** Winning takes a session out of the issued state, so nobody can have won it before. */
  lemma {:induction false} WinsGrow(wins: seq<string>, hashes: Hashes, hashes': Hashes, id: string)
    requires WonOnce(wins, hashes) && Frozen(hashes, hashes')
    requires id in hashes && hashes[id].value.state.Issued?
    requires id in hashes' && hashes'[id].value.state.Claimed?
    ensures WonOnce(wins + [id], hashes')
  {
    WinsStay(wins, hashes, hashes');
    forall i | 0 <= i < |wins| ensures wins[i] != id {
      assert !hashes[wins[i]].value.state.Issued?;
    }
    hide Frozen;
  }

  lemma {:induction false} GoMovesOne(w: World, c: nat, name: string -> string, limits: ClaimLimits)
    requires c in w.clients && !w.clients[c].Finished?
    ensures var w' := Go(w, c, name, limits);
            && w'.clients.Keys == w.clients.Keys && w'.clock == w.clock
            && (forall other :: other in w.clients && other != c ==> w'.clients[other] == w.clients[other])
            && (forall id :: id in w.wins ==> id in w'.wins)
  {
    hide ClaimScript, CloseScript, Load;
  }

  lemma {:induction false} GoKeepsClient(w: World, c: nat, name: string -> string, limits: ClaimLimits)
    requires ClientsOk(w) && c in w.clients && !w.clients[c].Finished?
    requires Frozen(w.redis.hashes, Go(w, c, name, limits).redis.hashes)
    ensures ClientOk(Go(w, c, name, limits).clients[c], Go(w, c, name, limits).redis.hashes, w.clock)
  {
    assert ClientOk(w.clients[c], w.redis.hashes, w.clock);
    hide ClaimScript, CloseScript, ClientsOk;
  }

  lemma {:induction false} GoKeepsClients(w: World, c: nat, name: string -> string, limits: ClaimLimits)
    requires ClientsOk(w) && c in w.clients && !w.clients[c].Finished?
    requires Frozen(w.redis.hashes, Go(w, c, name, limits).redis.hashes)
    ensures ClientsOk(Go(w, c, name, limits))
  {
    var w' := Go(w, c, name, limits);
    ClientsStayOk(w, w'.redis.hashes, w.clock);
    GoKeepsClient(w, c, name, limits);
    GoMovesOne(w, c, name, limits);
    hide Frozen, ClientOk, Go;
  }

  lemma {:induction false} GoKeepsStore(w: World, c: nat, name: string -> string, limits: ClaimLimits)
    requires Coherent(w.redis, name, w.clock) && WithinLimits(w.redis, limits)
    requires c in w.clients && !w.clients[c].Finished? && ClientOk(w.clients[c], w.redis.hashes, w.clock)
    ensures var client, w' := w.clients[c], Go(w, c, name, limits);
            && Kept(w.redis, w'.redis, name, w.clock, limits)
            && (w'.wins != w.wins ==>
                  && client.ClaimRun? && w'.wins == w.wins + [client.id]
                  && w.redis.hashes[client.id].value.state.Issued?
                  && w'.redis.hashes[client.id].value.state.Claimed?)
  {
    var client := w.clients[c];
    ReflexivelyFrozen(w.redis.hashes);
    hide Coherent, WithinLimits, Frozen, ClaimScript, CloseScript;
    if client.ClaimRun? {
      ClaimScriptKeeps(w.redis, name, w.clock, client.at, client.id, client.digest, limits, client.subject, client.key);
    } else if client.CloseRun? {
      CloseScriptKeeps(w.redis, name, w.clock, client.at, client.id, client.leaseID, client.reason, client.subject, limits);
    }
  }

  lemma {:induction false} ReflexivelyFrozen(hashes: Hashes)
    ensures Frozen(hashes, hashes)
  {
  }

  lemma {:induction false} ApplyKeepsSafe(w: World, a: Action, name: string -> string, limits: ClaimLimits)
    requires Safe(w, name, limits)
    ensures Safe(Apply(w, a, name, limits), name, limits)
    ensures Frozen(w.redis.hashes, Apply(w, a, name, limits).redis.hashes)
  {
    var w' := Apply(w, a, name, limits);
    ReflexivelyFrozen(w.redis.hashes);
    if Enabled(w, a) {
      match a {
        case Tick(_) =>
          TimeKeepsCoherent(w.redis, name, w.clock, w'.clock);
          ClientsStayOk(w, w.redis.hashes, w'.clock);
        case IssueSession(key, candidate) =>
          CreateScriptKeeps(w.redis, name, w.clock, name(key), candidate, limits);
          ClientsStayOk(w, w'.redis.hashes, w.clock);
          WinsStay(w.wins, w.redis.hashes, w'.redis.hashes);
          hide Coherent, WithinLimits, CreateScript;
        case Proceed(client) => GoKeepsSafe(w, client, name, limits);
        case _ => hide Coherent, WithinLimits;
      }
    }
  }

  lemma {:induction false} StartIsSafe(name: string -> string, limits: ClaimLimits)
    requires 0 <= limits.maxActive && 0 <= limits.maxActivePerSubject
    ensures Safe(START, name, limits)
  {
    forall subjectKey ensures SubjectSet(START.redis.subjects, subjectKey) == map[] {
    }
  }

  lemma {:induction false} FrozenIsTransitive(a: Hashes, b: Hashes, c: Hashes)
    requires Frozen(a, b) && Frozen(b, c)
    ensures Frozen(a, c)
  {
  }

  /** Under every schedule of every set of clients: each session is won at most once and claimed by
      at most one client, who won it; no lease set outgrows its limit, all lease sets agree, and
      no client's reading goes stale. */
  lemma {:induction false} EveryScheduleIsSafe(actions: seq<Action>, n: nat, name: string -> string,
                                               limits: ClaimLimits)
    requires n <= |actions| && 0 <= limits.maxActive && 0 <= limits.maxActivePerSubject
    ensures Safe(WorldAt(actions, n, name, limits), name, limits)
  {
    hide Safe, Frozen, Apply;
    if n == 0 {
      StartIsSafe(name, limits);
    } else {
      EveryScheduleIsSafe(actions, n - 1, name, limits);
      ApplyKeepsSafe(WorldAt(actions, n - 1, name, limits), actions[n - 1], name, limits);
    }
  }

  /** Subject, key and every other part of an intent are the same at any later point of a schedule. */
  lemma {:induction false} IntentsAreFrozen(actions: seq<Action>, i: nat, j: nat, name: string -> string,
                                            limits: ClaimLimits)
    requires i <= j <= |actions| && 0 <= limits.maxActive && 0 <= limits.maxActivePerSubject
    ensures Frozen(WorldAt(actions, i, name, limits).redis.hashes, WorldAt(actions, j, name, limits).redis.hashes)
    decreases j
  {
    hide Safe, Apply, Frozen;
    if i == j {
      ReflexivelyFrozen(WorldAt(actions, i, name, limits).redis.hashes);
    } else {
      IntentsAreFrozen(actions, i, j - 1, name, limits);
      EveryScheduleIsSafe(actions, j - 1, name, limits);
      ApplyKeepsSafe(WorldAt(actions, j - 1, name, limits), actions[j - 1], name, limits);
      FrozenIsTransitive(WorldAt(actions, i, name, limits).redis.hashes, WorldAt(actions, j - 1, name, limits).redis.hashes,
                         WorldAt(actions, j, name, limits).redis.hashes);
    }
  }

  // ------------------------------------------------------------ consequences

  /** At every point of every schedule at most one client has been answered with the lease of a session. */
  lemma {:induction false} OneClientPerLease(actions: seq<Action>, n: nat, a: nat, b: nat, id: string,
                                             name: string -> string, limits: ClaimLimits)
    requires n <= |actions| && 0 <= limits.maxActive && 0 <= limits.maxActivePerSubject
    requires var clients := WorldAt(actions, n, name, limits).clients;
             && a in clients && clients[a].Finished? && clients[a].reply.Leased?
             && b in clients && clients[b].Finished? && clients[b].reply.Leased?
             && clients[a].reply.lease.id == LeaseIDFor(id) == clients[b].reply.lease.id
    ensures a == b && id in WorldAt(actions, n, name, limits).wins
  {
    EveryScheduleIsSafe(actions, n, name, limits);
    var w := WorldAt(actions, n, name, limits);
    assert WinnersOk(w.clients, w.wins) && Claims(w.clients[a], id) && Claims(w.clients[b], id);
    hide WorldAt, Safe;
  }

  function UnexpiredIDs(hashes: Hashes, clock: Time): set<string> {
    set id | id in hashes && Unexpired(hashes, id, clock)
  }

  function UnexpiredFor(hashes: Hashes, subject: string, clock: Time): set<string> {
    set id | id in hashes && Unexpired(hashes, id, clock) && hashes[id].value.intent.subjectID == subject
  }

  /** At every point of every schedule the sessions that are claimed and unexpired number at
      most MaxActive, and at most MaxActivePerSubject for each subject. */
  lemma {:induction false} ClaimedSessionsWithinLimits(actions: seq<Action>, n: nat, name: string -> string,
                                                       limits: ClaimLimits)
    requires n <= |actions| && 0 <= limits.maxActive && 0 <= limits.maxActivePerSubject
    ensures var w := WorldAt(actions, n, name, limits);
            && |UnexpiredIDs(w.redis.hashes, w.clock)| <= limits.maxActive
            && forall subject :: |UnexpiredFor(w.redis.hashes, subject, w.clock)| <= limits.maxActivePerSubject
  {
    var w := WorldAt(actions, n, name, limits);
    EveryScheduleIsSafe(actions, n, name, limits);
    hide WorldAt;
    SubsetCardinality(UnexpiredIDs(w.redis.hashes, w.clock), w.redis.leases.Keys);
    assert |w.redis.leases| == |w.redis.leases.Keys|;
    forall subject ensures |UnexpiredFor(w.redis.hashes, subject, w.clock)| <= limits.maxActivePerSubject {
      var mine := SubjectSet(w.redis.subjects, name(subject));
      assert SubjectCoherent(mine, name, name(subject), w.redis.hashes, w.clock);
      SubsetCardinality(UnexpiredFor(w.redis.hashes, subject, w.clock), mine.Keys);
      assert |mine| == |mine.Keys|;
    }
  }

  function Due(leases: LeaseSet, clock: Time): set<string> {
    set id | id in leases && clock < leases[id]
  }

  /** At every point of every schedule: an ID is an unexpired member of the global set exactly
      when its hash is claimed and unexpired, and the unexpired members of a subject's set are
      the unexpired members of the global set that belong to the subject. */
  lemma {:induction false} LeaseSetsAgree(actions: seq<Action>, n: nat, subject: string, name: string -> string,
                                          limits: ClaimLimits)
    requires n <= |actions| && 0 <= limits.maxActive && 0 <= limits.maxActivePerSubject && RedisRuns.Injective(name)
    ensures var w := WorldAt(actions, n, name, limits);
            && Due(w.redis.leases, w.clock) == UnexpiredIDs(w.redis.hashes, w.clock)
            && Due(SubjectSet(w.redis.subjects, name(subject)), w.clock) == UnexpiredFor(w.redis.hashes, subject, w.clock)
            && Due(SubjectSet(w.redis.subjects, name(subject)), w.clock)
               == set id | id in Due(w.redis.leases, w.clock) && w.redis.hashes[id].value.intent.subjectID == subject
  {
    var w := WorldAt(actions, n, name, limits);
    EveryScheduleIsSafe(actions, n, name, limits);
    hide WorldAt;
    assert GlobalCoherent(w.redis.leases, w.redis.hashes, w.clock);
    assert SubjectCoherent(SubjectSet(w.redis.subjects, name(subject)), name, name(subject), w.redis.hashes, w.clock);
    hide SubjectSet, Safe;
  }
}
