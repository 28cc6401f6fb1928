/** Concurrent payment requests over the shared tables: a request reads, checks, and then commits
    an intent, a consumed authorization and a create instruction together, or nothing. */
module Requests {
  import opened Vocabulary
  import opened AuditEvents

  // ---- Tables ------------------------------------------------------------------------------

  /** What an authorization was approved for. */
  datatype Terms = Terms(digest: string, amount: int, currency: string, merchant: string)

  datatype Auth = Auth(mission: int, terms: Terms, expiresAt: Time, status: AuthorizationStatus, consumedAt: Option<Time>)

  datatype Request = Request(mission: int, auth: int, key: string, provider: string, now: Time)

  /** Everything that makes two requests the same request; the fingerprint hashes it. */
  datatype Identity = Identity(mission: int, auth: int, terms: Terms, provider: string)

  type Fingerprint = Identity -> string

  datatype IntentRow = IntentRow(id: int, identity: Identity, key: string, fingerprint: string)

  datatype Note = Note(mission: int, event: EventType)

  /** `outbox` lists the intents whose create instruction was enqueued. */
  datatype Store = Store(
    auths: map<int, Auth>, missions: map<int, MissionState>,
    intents: seq<IntentRow>, outbox: seq<int>, ledger: seq<Note>)

  function Noted(db: Store, mission: int, event: EventType): Store {
    db.(ledger := db.ledger + [Note(mission, event)])
  }

  function Find(rows: seq<IntentRow>, key: string): (r: Option<IntentRow>)
    ensures r.Some? ==> r.value in rows && r.value.key == key
    ensures r.None? ==> forall i :: 0 <= i < |rows| ==> rows[i].key != key
  {
    if rows == [] then None
    else if rows[|rows| - 1].key == key then Some(rows[|rows| - 1])
    else Find(rows[..|rows| - 1], key)
  }

  predicate AuthTaken(rows: seq<IntentRow>, auth: int) {
    exists i :: 0 <= i < |rows| && rows[i].identity.auth == auth
  }

  // ---- Authorizations ----------------------------------------------------------------------

  predicate Open(a: Auth) { a.status.AuthPending? || a.status.AuthActive? }

  /** The conditional UPDATE that spends an authorization; None when it matched no row. */
  function Consume(auths: map<int, Auth>, id: int, digest: string, now: Time): Option<map<int, Auth>> {
    if id in auths && auths[id].status.AuthActive? && auths[id].terms.digest == digest && auths[id].expiresAt > now
    then Some(auths[id := auths[id].(status := AuthConsumed, consumedAt := Some(now))])
    else None
  }

  predicate Stale(auths: map<int, Auth>, id: int, now: Time) {
    id in auths && Open(auths[id]) && auths[id].expiresAt <= now
  }

  function ExpireIfStale(db: Store, id: int, now: Time): Store {
    if Stale(db.auths, id, now)
    then Noted(db.(auths := db.auths[id := db.auths[id].(status := AuthExpired)]), db.auths[id].mission, EvAuthorizationExpired)
    else db
  }

  // ---- One request -------------------------------------------------------------------------

  datatype Refusal =
    | NoSuchAuthorization | ForeignAuthorization | NoSuchMission | MissionNotAuthorized | BindingFailure
    | ReplayDetected | Expired | NotActive | ProofFailure | AuthorizationSpent | IdempotencyConflict

  datatype Outcome = Established(id: int) | Reused(id: int) | Refused(why: Refusal) | Aborted

  /** What the open transaction holds, and what the caller is told. */
  datatype Attempt = Attempt(db: Store, outcome: Outcome)

  /** A refusal the caller may still commit; a success whose commit is lost is no success. */
  function Ended(before: Store, attempt: Attempt, commits: bool): Attempt {
    if commits then attempt
    else Attempt(before, if attempt.outcome.Refused? then attempt.outcome else Aborted)
  }

  /** Explain a refused transition by severity: a replay, a transaction other than the approved one,
      expiry, a merely wrong status. */
  function Classify(db: Store, id: int, presented: string, now: Time): Attempt {
    if id !in db.auths then Attempt(db, Refused(NoSuchAuthorization))
    else if db.auths[id].status.AuthConsumed? then
      Attempt(Noted(db, db.auths[id].mission, EvAuthorizationReplayDetected), Refused(ReplayDetected))
    else if db.auths[id].terms.digest != presented then
      Attempt(Noted(db, db.auths[id].mission, EvTransactionBindingFailure), Refused(BindingFailure))
    else if now >= db.auths[id].expiresAt then Attempt(ExpireIfStale(db, id, now), Refused(Expired))
    else Attempt(db, Refused(NotActive))
  }

  function IdentityOf(r: Request, held: Auth): Identity {
    Identity(r.mission, r.auth, held.terms, r.provider)
  }

  /** A held intent satisfies the request only if the whole fingerprint agrees. */
  function ResolveExisting(db: Store, existing: IntentRow, fingerprint: string): Attempt {
    if existing.fingerprint == fingerprint
    then Attempt(Noted(db, existing.identity.mission, EvIntentReused), Reused(existing.id))
    else Attempt(Noted(db, existing.identity.mission, EvIdempotencyConflict), Refused(Refusal.IdempotencyConflict))
  }

  /** Answers of code outside this model: the rebuilt digest and version, and the approval proof. */
  datatype Checks = Checks(binding: bool, proof: bool)

  datatype Checked = Proceed | Stop(attempt: Attempt)

  /** Re-verify the authorization as it was read, with the status its role in the request demands. */
  function Verify(db: Store, r: Request, held: Auth, expected: AuthorizationStatus, checks: Checks): Checked {
    if !checks.binding then Stop(Attempt(db, Refused(BindingFailure)))
    else if held.status != expected then
      Stop(if expected.AuthActive? then Classify(db, r.auth, held.terms.digest, r.now) else Attempt(db, Refused(NotActive)))
    else if expected.AuthActive? && r.now >= held.expiresAt then
      Stop(Attempt(ExpireIfStale(db, r.auth, r.now), Refused(Expired)))
    else if !checks.proof then Stop(Attempt(db, Refused(ProofFailure)))
    else Proceed
  }

  /** Everything between the reads and the savepoint. `held` is the authorization row as read. */
  function Check(hash: Fingerprint, db: Store, r: Request, held: Auth, checks: Checks): Checked {
    var existing := Find(db.intents, r.key);
    if r.mission !in db.missions then Stop(Attempt(db, Refused(NoSuchMission)))
    else if existing.None? && db.missions[r.mission] != Authorized then Stop(Attempt(db, Refused(MissionNotAuthorized)))
    else
      var own := existing.Some? && existing.value.identity.auth == r.auth;
      var verified := Verify(db, r, held, if own then AuthConsumed else AuthActive, checks);
      if verified.Stop? then verified
      else if existing.Some? then Stop(ResolveExisting(db, existing.value, hash(IdentityOf(r, held))))
      else Proceed
  }

  /** The savepoint's successful content. */
  function Inserted(hash: Fingerprint, db: Store, r: Request, held: Auth, auths: map<int, Auth>): Store {
    var id := |db.intents|;
    var row := IntentRow(id, IdentityOf(r, held), r.key, hash(IdentityOf(r, held)));
    Store(auths, db.missions[r.mission := PaymentPending], db.intents + [row], db.outbox + [id],
          db.ledger + [Note(r.mission, EvAuthorizationConsumed), Note(r.mission, EvIntentCreated), Note(r.mission, EvQueued)])
  }

  /** The savepoint and what follows a unique-key violation. A refusal inside it leaves nothing. */
  function Settle(hash: Fingerprint, db: Store, r: Request, held: Auth): Attempt {
    var winner := Find(db.intents, r.key);
    if winner.Some? then ResolveExisting(db, winner.value, hash(IdentityOf(r, held)))
    else if AuthTaken(db.intents, r.auth) then Attempt(db, Refused(AuthorizationSpent))
    else
      var consumed := Consume(db.auths, r.auth, held.terms.digest, r.now);
      if consumed.None? then Attempt(db, Classify(db, r.auth, held.terms.digest, r.now).outcome)
      else Attempt(Inserted(hash, db, r, held, consumed.value), Established(|db.intents|))
  }

  // ---- Interleaved requests ----------------------------------------------------------------

  datatype Pc =
    | Held(request: Request, row: Auth)     // authorization read
    | Cleared(request: Request, row: Auth)  // checks passed, savepoint not yet entered
    | Done(request: Request, row: Auth, outcome: Outcome)
    | Turned(request: Request, why: Refusal) // refused on the first read

  datatype Sys = Sys(db: Store, clients: map<int, Pc>)

  datatype Step =
    | Arrive(client: int, request: Request)
    | Examine(client: int, checks: Checks, commits: bool)
    | Enter(client: int, commits: bool)
    | Issue(auth: int, row: Auth)
    | Activate(auth: int, now: Time)
    | Revoke(auth: int)
    | Expire(auth: int, now: Time)
    | MoveMission(mission: int, target: MissionState)

  function Arrived(db: Store, r: Request): (pc: Pc)
    ensures pc.Held? || pc.Turned?
  {
    if r.auth !in db.auths then Turned(r, NoSuchAuthorization)
    else if db.auths[r.auth].mission != r.mission then Turned(r, ForeignAuthorization)
    else Held(r, db.auths[r.auth])
  }

  function Finish(s: Sys, c: int, pc: Pc, attempt: Attempt, commits: bool): Sys
    requires pc.Held? || pc.Cleared?
  {
    var end := Ended(s.db, attempt, commits);
    Sys(end.db, s.clients[c := Done(pc.request, pc.row, end.outcome)])
  }

  function ExamineStep(hash: Fingerprint, s: Sys, c: int, checks: Checks, commits: bool): Sys {
    if c in s.clients && s.clients[c].Held? then
      var pc := s.clients[c];
      var checked := Check(hash, s.db, pc.request, pc.row, checks);
      if checked.Stop? then Finish(s, c, pc, checked.attempt, commits)
      else s.(clients := s.clients[c := Cleared(pc.request, pc.row)])
    else s
  }

  function EnterStep(hash: Fingerprint, s: Sys, c: int, commits: bool): Sys {
    if c in s.clients && s.clients[c].Cleared? then
      var pc := s.clients[c];
      Finish(s, c, pc, Settle(hash, s.db, pc.request, pc.row), commits)
    else s
  }

  function WithAuth(s: Sys, id: int, row: Auth): Sys {
    s.(db := s.db.(auths := s.db.auths[id := row]))
  }

  function Next(hash: Fingerprint, s: Sys, step: Step): Sys {
    match step
    case Arrive(c, r) => if c in s.clients then s else s.(clients := s.clients[c := Arrived(s.db, r)])
    case Examine(c, checks, commits) => ExamineStep(hash, s, c, checks, commits)
    case Enter(c, commits) => EnterStep(hash, s, c, commits)
    case Issue(a, row) =>
      if a in s.db.auths then s else WithAuth(s, a, row.(status := AuthPending, consumedAt := None))
    case Activate(a, now) =>
      if a in s.db.auths && s.db.auths[a].status.AuthPending? && s.db.auths[a].expiresAt > now
      then WithAuth(s, a, s.db.auths[a].(status := AuthActive)) else s
    case Revoke(a) =>
      if a in s.db.auths && Open(s.db.auths[a]) then WithAuth(s, a, s.db.auths[a].(status := AuthRevoked)) else s
    case Expire(a, now) => s.(db := ExpireIfStale(s.db, a, now))
    case MoveMission(m, target) => s.(db := s.db.(missions := s.db.missions[m := target]))
  }

  function Run(hash: Fingerprint, s: Sys, steps: seq<Step>): Sys
    decreases |steps|
  {
    if steps == [] then s else Run(hash, Next(hash, s, steps[0]), steps[1..])
  }

  const NOTHING := Sys(Store(map[], map[], [], [], []), map[])
}
