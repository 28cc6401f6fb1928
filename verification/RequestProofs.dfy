/** What every interleaving of payment requests keeps: one payment per key and per authorization,
    an authorization spent exactly when a payment names it, and losers that spend nothing. */
module RequestProofs {
  import opened Vocabulary
  import opened AuditEvents
  import opened Requests

  // ---- Invariant ---------------------------------------------------------------------------

  ghost predicate Distinct(rows: seq<IntentRow>) {
    forall i, j :: 0 <= i < j < |rows| ==> rows[i].key != rows[j].key && rows[i].identity.auth != rows[j].identity.auth
  }

  /** The intent names a spent authorization, copies its terms, and stores its own fingerprint. */
  ghost predicate Backed(hash: Fingerprint, auths: map<int, Auth>, row: IntentRow) {
    && row.identity.auth in auths
    && auths[row.identity.auth].status.AuthConsumed?
    && auths[row.identity.auth].mission == row.identity.mission
    && auths[row.identity.auth].terms == row.identity.terms
    && row.fingerprint == hash(row.identity)
  }

  ghost predicate AllBacked(hash: Fingerprint, auths: map<int, Auth>, rows: seq<IntentRow>) {
    forall i :: 0 <= i < |rows| ==> Backed(hash, auths, rows[i])
  }

  ghost predicate SpentIsNamed(auths: map<int, Auth>, rows: seq<IntentRow>) {
    forall a :: a in auths && auths[a].status.AuthConsumed? ==> AuthTaken(rows, a)
  }

  /** Each intent has its id, and its create instruction, exactly once. */
  ghost predicate Instructed(db: Store) {
    && |db.outbox| == |db.intents|
    && forall i :: 0 <= i < |db.intents| ==> db.intents[i].id == i && db.outbox[i] == i
  }

  ghost predicate Tidy(hash: Fingerprint, db: Store) {
    Distinct(db.intents) && AllBacked(hash, db.auths, db.intents) && SpentIsNamed(db.auths, db.intents) && Instructed(db)
  }

  /** The columns of an authorization that are never rewritten, and the status that is final. */
  predicate SameAuth(a: Auth, b: Auth) {
    && a.mission == b.mission && a.terms == b.terms && a.expiresAt == b.expiresAt
    && (!Open(a) ==> b.status == a.status && b.consumedAt == a.consumedAt)
  }

  ghost predicate AuthsKept(a: map<int, Auth>, b: map<int, Auth>) {
    forall id :: id in a ==> id in b && SameAuth(a[id], b[id])
  }

  /** A client's copy of its authorization row is dated but not false. */
  ghost predicate Dated(auths: map<int, Auth>, r: Request, row: Auth) {
    r.auth in auths && SameAuth(row, auths[r.auth]) && row.mission == r.mission
  }

  predicate Success(o: Outcome) { o.Established? || o.Reused? }

  ghost predicate Honest(hash: Fingerprint, db: Store, pc: Pc) {
    match pc
    case Held(r, row) => Dated(db.auths, r, row)
    case Cleared(r, row) => Dated(db.auths, r, row)
    case Done(r, row, o) =>
      Dated(db.auths, r, row) &&
      (Success(o) ==>
         && 0 <= o.id < |db.intents| && db.intents[o.id].key == r.key
         && db.intents[o.id].fingerprint == hash(IdentityOf(r, row))
         && (o.Established? ==> db.intents[o.id].identity == IdentityOf(r, row)))
    case Turned(_, _) => true
  }

  predicate Establishes(pc: Pc) { pc.Done? && pc.outcome.Established? }

  ghost predicate ClientsHonest(hash: Fingerprint, s: Sys) {
    forall c :: c in s.clients ==> Honest(hash, s.db, s.clients[c])
  }

  /** No payment was established twice. */
  ghost predicate OneFounder(clients: map<int, Pc>) {
    forall c, d :: c in clients && d in clients && c != d && Establishes(clients[c]) && Establishes(clients[d])
      ==> clients[c].outcome.id != clients[d].outcome.id
  }

  ghost predicate Inv(hash: Fingerprint, s: Sys) {
    Tidy(hash, s.db) && ClientsHonest(hash, s) && OneFounder(s.clients)
  }

  /** What no step undoes. */
  ghost predicate Grows(a: Store, b: Store) {
    a.intents <= b.intents && a.outbox <= b.outbox && AuthsKept(a.auths, b.auths)
  }

  lemma GrowsTransitive(a: Store, b: Store, c: Store)
    requires Grows(a, b) && Grows(b, c)
    ensures Grows(a, c)
  {
  }

  // ---- Steps of one request ----------------------------------------------------------------

  /** Only the authorization table changed, and only in columns no intent depends on. */
  lemma TidyKept(hash: Fingerprint, a: Store, b: Store)
    requires Tidy(hash, a) && a.intents == b.intents && a.outbox == b.outbox && AuthsKept(a.auths, b.auths)
    requires forall id :: id in b.auths && b.auths[id].status.AuthConsumed? ==> id in a.auths && a.auths[id].status.AuthConsumed?
    ensures Tidy(hash, b)
  {
  }

  lemma ClientsKept(hash: Fingerprint, s: Sys, b: Store)
    requires ClientsHonest(hash, s) && Grows(s.db, b)
    ensures ClientsHonest(hash, Sys(b, s.clients))
  {
  }

  /** A row that is not inserted leaves the shared tables as they were, except that a stale
      authorization may be marked expired. */
  ghost predicate Spares(a: Store, b: Store) {
    a.intents == b.intents && a.outbox == b.outbox && a.missions == b.missions
  }

  lemma ExpireSpares(hash: Fingerprint, db: Store, id: int, now: Time)
    requires Tidy(hash, db)
    ensures var after := ExpireIfStale(db, id, now); Spares(db, after) && Grows(db, after) && Tidy(hash, after)
  {
  }

  lemma ClassifySpares(hash: Fingerprint, db: Store, id: int, presented: string, now: Time)
    requires Tidy(hash, db)
    ensures var t := Classify(db, id, presented, now);
            Spares(db, t.db) && Grows(db, t.db) && Tidy(hash, t.db) && t.outcome.Refused?
  {
  }

  lemma CheckSpares(hash: Fingerprint, db: Store, r: Request, held: Auth, checks: Checks)
    requires Tidy(hash, db) && Check(hash, db, r, held, checks).Stop?
    ensures var t := Check(hash, db, r, held, checks).attempt;
            Spares(db, t.db) && Grows(db, t.db) && Tidy(hash, t.db) && !t.outcome.Established?
  {
    hide Tidy, ExpireIfStale, Classify;
    ClassifySpares(hash, db, r.auth, held.terms.digest, r.now);
    ExpireSpares(hash, db, r.auth, r.now);
    NotedSpares(hash, db);
  }

  lemma NotedSpares(hash: Fingerprint, db: Store)
    requires Tidy(hash, db)
    ensures Grows(db, db)
    ensures forall m, e :: Tidy(hash, Noted(db, m, e)) && Grows(db, Noted(db, m, e))
  {
  }

  /** A reuse names an intent with this key whose fingerprint is the request's own. */
  ghost predicate Names(hash: Fingerprint, db: Store, r: Request, held: Auth, o: Outcome) {
    Success(o) ==> 0 <= o.id < |db.intents| && db.intents[o.id].key == r.key && db.intents[o.id].fingerprint == hash(IdentityOf(r, held))
  }

  lemma ResolveNames(hash: Fingerprint, db: Store, r: Request, held: Auth, existing: IntentRow)
    requires Tidy(hash, db) && Find(db.intents, r.key) == Some(existing)
    ensures Names(hash, db, r, held, ResolveExisting(db, existing, hash(IdentityOf(r, held))).outcome)
  {
  }

  lemma CheckNames(hash: Fingerprint, db: Store, r: Request, held: Auth, checks: Checks)
    requires Tidy(hash, db) && Check(hash, db, r, held, checks).Stop?
    ensures Names(hash, db, r, held, Check(hash, db, r, held, checks).attempt.outcome)
  {
  }

  // ---- The savepoint -----------------------------------------------------------------------

  lemma SpendGrows(auths: map<int, Auth>, id: int, digest: string, now: Time, after: map<int, Auth>)
    requires Consume(auths, id, digest, now) == Some(after)
    ensures AuthsKept(auths, after) && after.Keys == auths.Keys && after[id].status.AuthConsumed?
    ensures forall a :: a in auths && a != id ==> after[a] == auths[a]
  {
  }

  lemma InsertBacked(hash: Fingerprint, a: map<int, Auth>, b: map<int, Auth>, rows: seq<IntentRow>, row: IntentRow)
    requires AllBacked(hash, a, rows) && SpentIsNamed(a, rows) && AuthsKept(a, b)
    requires Backed(hash, b, row)
    requires forall id :: id in b && id != row.identity.auth ==> id in a && a[id] == b[id]
    ensures AllBacked(hash, b, rows + [row]) && SpentIsNamed(b, rows + [row])
  {
    forall i | 0 <= i < |rows + [row]| ensures Backed(hash, b, (rows + [row])[i]) {
      if i < |rows| { assert Backed(hash, a, rows[i]); }
    }
    forall id | id in b && b[id].status.AuthConsumed? ensures AuthTaken(rows + [row], id) {
      if id == row.identity.auth {
        assert (rows + [row])[|rows|].identity.auth == id;
      } else {
        var i :| 0 <= i < |rows| && rows[i].identity.auth == id;
        assert (rows + [row])[i].identity.auth == id;
      }
    }
  }

  lemma InsertDistinct(rows: seq<IntentRow>, row: IntentRow)
    requires Distinct(rows) && Find(rows, row.key).None? && !AuthTaken(rows, row.identity.auth)
    ensures Distinct(rows + [row])
  {
  }

  lemma InsertedTidy(hash: Fingerprint, db: Store, r: Request, held: Auth, auths: map<int, Auth>)
    requires Tidy(hash, db) && Dated(db.auths, r, held)
    requires Find(db.intents, r.key).None? && !AuthTaken(db.intents, r.auth)
    requires Consume(db.auths, r.auth, held.terms.digest, r.now) == Some(auths)
    ensures Tidy(hash, Inserted(hash, db, r, held, auths)) && Grows(db, Inserted(hash, db, r, held, auths))
  {
    hide Consume, AllBacked, SpentIsNamed, Distinct, AuthTaken, Find;
    SpendGrows(db.auths, r.auth, held.terms.digest, r.now, auths);
    var row := IntentRow(|db.intents|, IdentityOf(r, held), r.key, hash(IdentityOf(r, held)));
    InsertBacked(hash, db.auths, auths, db.intents, row);
    InsertDistinct(db.intents, row);
  }

  lemma SettleKeeps(hash: Fingerprint, db: Store, r: Request, held: Auth)
    requires Tidy(hash, db) && Dated(db.auths, r, held)
    ensures var t := Settle(hash, db, r, held);
            && Tidy(hash, t.db) && Grows(db, t.db)
            && Names(hash, t.db, r, held, t.outcome)
            && (t.outcome.Established? ==> t.outcome.id == |db.intents| && t.db.intents[t.outcome.id].identity == IdentityOf(r, held))
            && (!t.outcome.Established? ==> Spares(db, t.db) && t.db.auths == db.auths)
  {
    hide Tidy;
    NotedSpares(hash, db);
    var winner := Find(db.intents, r.key);
    if winner.Some? {
      ResolveNames(hash, db, r, held, winner.value);
    } else if !AuthTaken(db.intents, r.auth) {
      var consumed := Consume(db.auths, r.auth, held.terms.digest, r.now);
      if consumed.Some? { InsertedTidy(hash, db, r, held, consumed.value); }
      else { ClassifySpares(hash, db, r.auth, held.terms.digest, r.now); }
    }
  }

  // ---- Every step --------------------------------------------------------------------------

  lemma FinishSafe(hash: Fingerprint, s: Sys, c: int, pc: Pc, attempt: Attempt, commits: bool)
    requires Inv(hash, s) && c in s.clients && s.clients[c] == pc && (pc.Held? || pc.Cleared?)
    requires Tidy(hash, attempt.db) && Grows(s.db, attempt.db)
    requires Names(hash, attempt.db, pc.request, pc.row, attempt.outcome)
    requires attempt.outcome.Established? ==>
               attempt.outcome.id == |s.db.intents| && attempt.db.intents[attempt.outcome.id].identity == IdentityOf(pc.request, pc.row)
    ensures Inv(hash, Finish(s, c, pc, attempt, commits)) && Grows(s.db, Finish(s, c, pc, attempt, commits).db)
  {
    var t := Finish(s, c, pc, attempt, commits);
    ClientsKept(hash, s, t.db);
    forall d | d in t.clients ensures Honest(hash, t.db, t.clients[d]) {
      if d != c { assert Honest(hash, t.db, s.clients[d]); }
    }
    if Establishes(t.clients[c]) {
      forall d | d in t.clients && d != c && Establishes(t.clients[d]) ensures t.clients[d].outcome.id != t.clients[c].outcome.id {
        assert Honest(hash, s.db, s.clients[d]);
      }
    }
  }

  lemma ExamineSafe(hash: Fingerprint, s: Sys, c: int, checks: Checks, commits: bool)
    requires Inv(hash, s)
    ensures Inv(hash, ExamineStep(hash, s, c, checks, commits)) && Grows(s.db, ExamineStep(hash, s, c, checks, commits).db)
  {
    if c in s.clients && s.clients[c].Held? {
      var pc := s.clients[c];
      assert Honest(hash, s.db, pc);
      var checked := Check(hash, s.db, pc.request, pc.row, checks);
      if checked.Stop? {
        CheckSpares(hash, s.db, pc.request, pc.row, checks);
        CheckNames(hash, s.db, pc.request, pc.row, checks);
        FinishSafe(hash, s, c, pc, checked.attempt, commits);
      }
    }
  }

  lemma EnterSafe(hash: Fingerprint, s: Sys, c: int, commits: bool)
    requires Inv(hash, s)
    ensures Inv(hash, EnterStep(hash, s, c, commits)) && Grows(s.db, EnterStep(hash, s, c, commits).db)
  {
    if c in s.clients && s.clients[c].Cleared? {
      var pc := s.clients[c];
      assert Honest(hash, s.db, pc);
      SettleKeeps(hash, s.db, pc.request, pc.row);
      FinishSafe(hash, s, c, pc, Settle(hash, s.db, pc.request, pc.row), commits);
    }
  }

  lemma StepSafe(hash: Fingerprint, s: Sys, step: Step)
    requires Inv(hash, s)
    ensures Inv(hash, Next(hash, s, step)) && Grows(s.db, Next(hash, s, step).db)
  {
    var t := Next(hash, s, step);
    match step
    case Arrive(c, r) =>
    case Examine(c, checks, commits) => ExamineSafe(hash, s, c, checks, commits);
    case Enter(c, commits) => EnterSafe(hash, s, c, commits);
    case Issue(a, row) => TidyKept(hash, s.db, t.db); ClientsKept(hash, s, t.db);
    case Activate(a, now) => TidyKept(hash, s.db, t.db); ClientsKept(hash, s, t.db);
    case Revoke(a) => TidyKept(hash, s.db, t.db); ClientsKept(hash, s, t.db);
    case Expire(a, now) => TidyKept(hash, s.db, t.db); ClientsKept(hash, s, t.db);
    case MoveMission(m, target) => TidyKept(hash, s.db, t.db); ClientsKept(hash, s, t.db);
  }

  /** From any state that satisfies the invariant, hence from any point of any run. */
  lemma {:induction false} RunSafe(hash: Fingerprint, s: Sys, steps: seq<Step>)
    requires Inv(hash, s)
    ensures Inv(hash, Run(hash, s, steps)) && Grows(s.db, Run(hash, s, steps).db)
    decreases |steps|
  {
    if steps != [] {
      StepSafe(hash, s, steps[0]);
      RunSafe(hash, Next(hash, s, steps[0]), steps[1..]);
      GrowsTransitive(s.db, Next(hash, s, steps[0]).db, Run(hash, s, steps).db);
    }
  }

  predicate Collision(hash: Fingerprint, x: Identity, y: Identity) { x != y && hash(x) == hash(y) }

  // ---- Theorems ----------------------------------------------------------------------------

  /** At most one payment per idempotency key and per authorization, each with its one instruction. */
  lemma OnePaymentPerKey(hash: Fingerprint, steps: seq<Step>)
    ensures var db := Run(hash, NOTHING, steps).db;
            Distinct(db.intents) && Instructed(db)
  {
    RunSafe(hash, NOTHING, steps);
  }

  /** An authorization is spent exactly when one committed intent names it, and only that one. */
  lemma SpentIffPaid(hash: Fingerprint, steps: seq<Step>, a: int)
    requires a in Run(hash, NOTHING, steps).db.auths
    ensures var db := Run(hash, NOTHING, steps).db;
            && (db.auths[a].status.AuthConsumed? <==> exists i :: 0 <= i < |db.intents| && db.intents[i].identity.auth == a)
            && (forall i, j :: (0 <= i < j < |db.intents| && db.intents[i].identity.auth == a) ==> db.intents[j].identity.auth != a)
  {
    RunSafe(hash, NOTHING, steps);
    var db := Run(hash, NOTHING, steps).db;
    if AuthTaken(db.intents, a) {
      var i :| 0 <= i < |db.intents| && db.intents[i].identity.auth == a;
      assert Backed(hash, db.auths, db.intents[i]);
    }
  }

  /** Requests that end well under one key were all given the same payment, and are the same
      request unless two different requests share a fingerprint. Only one of them founded it. */
  lemma SameKeySamePayment(hash: Fingerprint, steps: seq<Step>, c: int, d: int)
    requires var s := Run(hash, NOTHING, steps);
             && c in s.clients && d in s.clients && c != d && s.clients[c].Done? && s.clients[d].Done?
             && Success(s.clients[c].outcome) && Success(s.clients[d].outcome)
             && s.clients[c].request.key == s.clients[d].request.key
    ensures var s := Run(hash, NOTHING, steps);
            var x, y := s.clients[c], s.clients[d];
            && x.outcome.id == y.outcome.id
            && !(x.outcome.Established? && y.outcome.Established?)
            && (IdentityOf(x.request, x.row) == IdentityOf(y.request, y.row)
                || Collision(hash, IdentityOf(x.request, x.row), IdentityOf(y.request, y.row)))
  {
    RunSafe(hash, NOTHING, steps);
    var s := Run(hash, NOTHING, steps);
    assert Honest(hash, s.db, s.clients[c]) && Honest(hash, s.db, s.clients[d]);
  }

  /** A client's own copy presents the approved digest, so no refusal of it is a binding failure of
      the classification. */
  lemma ClassifyIsBound(db: Store, r: Request, held: Auth)
    requires Dated(db.auths, r, held)
    ensures Classify(db, r.auth, held.terms.digest, r.now).outcome != Refused(BindingFailure)
  {
  }

  /** What makes examining a request mark its authorization expired: the caller commits, the request
      gets as far as the status check, it is not a retry of its own payment, and the authorization is
      still pending or active past its expiry. */
  predicate Demotes(db: Store, r: Request, checks: Checks, commits: bool) {
    var existing := Find(db.intents, r.key);
    && commits && checks.binding
    && r.mission in db.missions && (existing.None? ==> db.missions[r.mission] == Authorized)
    && !(existing.Some? && existing.value.identity.auth == r.auth)
    && Stale(db.auths, r.auth, r.now)
  }

  /** Examining changes the authorizations exactly under that condition, and then in one way. */
  lemma CheckDemotes(hash: Fingerprint, db: Store, r: Request, held: Auth, checks: Checks)
    requires Dated(db.auths, r, held)
    ensures var checked := Check(hash, db, r, held, checks);
            if Demotes(db, r, checks, true)
            then && checked.Stop? && checked.attempt.outcome == Refused(Expired)
                 && checked.attempt.db.auths == db.auths[r.auth := db.auths[r.auth].(status := AuthExpired)]
                 && checked.attempt.db.auths != db.auths
            else checked.Stop? ==> checked.attempt.db.auths == db.auths
  {
    if Stale(db.auths, r.auth, r.now) {
      var after := db.auths[r.auth := db.auths[r.auth].(status := AuthExpired)];
      assert after[r.auth] != db.auths[r.auth];
    }
  }

  /** A retried, conflicting, losing or refused request leaves intents, instructions and missions
      alone. Entering the savepoint and losing changes no authorization either; examining a request
      changes one exactly when `Demotes` held before the call. */
  lemma LosersSpendNothing(hash: Fingerprint, steps: seq<Step>, c: int, step: Step)
    requires var s := Run(hash, NOTHING, steps);
             && c in s.clients
             && ((step.Examine? && s.clients[c].Held?) || (step.Enter? && s.clients[c].Cleared?)) && step.client == c
             && !Establishes(Next(hash, s, step).clients[c])
    ensures var s := Run(hash, NOTHING, steps);
            var t := Next(hash, s, step);
            var r := s.clients[c].request;
            && Spares(s.db, t.db)
            && (t.db.auths != s.db.auths <==> step.Examine? && Demotes(s.db, r, step.checks, step.commits))
            && (t.db.auths != s.db.auths ==> t.db.auths == s.db.auths[r.auth := s.db.auths[r.auth].(status := AuthExpired)])
  {
    hide Check, Settle, Demotes, Tidy, Find;
    var s := Run(hash, NOTHING, steps);
    RunSafe(hash, NOTHING, steps);
    var pc := s.clients[c];
    assert Honest(hash, s.db, pc);
    if step.Enter? {
      SettleKeeps(hash, s.db, pc.request, pc.row);
    } else {
      CheckDemotes(hash, s.db, pc.request, pc.row, step.checks);
      CommitsToDemote(s.db, pc.request, step.checks, step.commits);
      if Check(hash, s.db, pc.request, pc.row, step.checks).Stop? {
        CheckSpares(hash, s.db, pc.request, pc.row, step.checks);
      }
    }
  }

  lemma CommitsToDemote(db: Store, r: Request, checks: Checks, commits: bool)
    ensures Demotes(db, r, checks, commits) <==> commits && Demotes(db, r, checks, true)
  {
  }

  /** A request that founds a payment commits all of it: one intent, one instruction, the mission
      move, and an authorization that was active, unexpired and approved for exactly these terms. */
  lemma FoundersCommitAll(hash: Fingerprint, steps: seq<Step>, c: int, step: Step)
    requires (step.Examine? || step.Enter?) && step.client == c
    requires var s := Run(hash, NOTHING, steps);
             && c in s.clients && (s.clients[c].Held? || s.clients[c].Cleared?)
             && Establishes(Next(hash, s, step).clients[c])
    ensures var s := Run(hash, NOTHING, steps);
            var t := Next(hash, s, step);
            var r := s.clients[c].request;
            && r.auth in s.db.auths && s.db.auths[r.auth].status.AuthActive? && s.db.auths[r.auth].expiresAt > r.now
            && t.db.auths == s.db.auths[r.auth := s.db.auths[r.auth].(status := AuthConsumed, consumedAt := Some(r.now))]
            && |t.db.intents| == |s.db.intents| + 1 && s.db.intents < t.db.intents
            && t.db.intents[|s.db.intents|].key == r.key
            && t.db.intents[|s.db.intents|].identity == Identity(s.db.auths[r.auth].mission, r.auth, s.db.auths[r.auth].terms, r.provider)
            && t.db.outbox == s.db.outbox + [t.db.intents[|s.db.intents|].id]
            && r.mission in t.db.missions && t.db.missions[r.mission] == PaymentPending
  {
    var s := Run(hash, NOTHING, steps);
    RunSafe(hash, NOTHING, steps);
    var pc := s.clients[c];
    assert Honest(hash, s.db, pc);
    if step.Examine? {
      CheckSpares(hash, s.db, pc.request, pc.row, step.checks);
    }
  }

  // ---- What a request has to show ----------------------------------------------------------

  /** Some step of the run examined this client and found binding and proof in order. */
  ghost predicate Approved(steps: seq<Step>, c: int) {
    exists k :: 0 <= k < |steps| && steps[k].Examine? && steps[k].client == c && steps[k].checks.binding && steps[k].checks.proof
  }

  predicate Passed(pc: Pc) { pc.Cleared? || (pc.Done? && Success(pc.outcome)) }

  lemma PassesByApproval(hash: Fingerprint, s: Sys, step: Step, c: int)
    requires var t := Next(hash, s, step); c in t.clients && Passed(t.clients[c]) && !(c in s.clients && Passed(s.clients[c]))
    ensures step.Examine? && step.client == c && step.checks.binding && step.checks.proof
  {
  }

  lemma {:induction false} RunSnoc(hash: Fingerprint, s: Sys, steps: seq<Step>, step: Step)
    ensures Run(hash, s, steps + [step]) == Next(hash, Run(hash, s, steps), step)
    decreases |steps|
  {
    hide Next;
    if steps == [] {
      assert ([step])[1..] == [] && steps + [step] == [step];
    } else {
      assert (steps + [step])[1..] == steps[1..] + [step];
      RunSnoc(hash, Next(hash, s, steps[0]), steps[1..], step);
    }
  }

  /** No payment is founded and none is handed out to a request whose authorization did not rebuild to
      its approved digest or whose approval proof did not verify. */
  lemma {:induction false} PaidOnlyIfApproved(hash: Fingerprint, steps: seq<Step>, c: int)
    requires var s := Run(hash, NOTHING, steps); c in s.clients && Passed(s.clients[c])
    ensures Approved(steps, c)
    decreases |steps|
  {
    hide Next;
    if steps != [] {
      var before, last := steps[..|steps| - 1], steps[|steps| - 1];
      assert steps == before + [last];
      RunSnoc(hash, NOTHING, before, last);
      var s := Run(hash, NOTHING, before);
      if c in s.clients && Passed(s.clients[c]) {
        PaidOnlyIfApproved(hash, before, c);
        var k :| 0 <= k < |before| && before[k].Examine? && before[k].client == c && before[k].checks.binding && before[k].checks.proof;
        assert steps[k] == before[k];
      } else {
        PassesByApproval(hash, s, last, c);
        assert steps[|steps| - 1] == last;
      }
    }
  }

  /** Why an authorization that cannot be used is refused. */
  function Fault(a: Auth, now: Time): Refusal {
    match a.status
    case AuthConsumed => ReplayDetected
    case _ => if now >= a.expiresAt then Expired else NotActive
  }

  predicate Stops(checked: Checked, outcome: Outcome) { checked.Stop? && checked.attempt.outcome == outcome }

  /** The examination, case by case: mission, binding, status, expiry, proof, and then the intent the
      key already names. `row` is the authorization as it is now, `held` as it was read. */
  lemma ExamineTable(hash: Fingerprint, db: Store, r: Request, held: Auth, checks: Checks)
    requires Dated(db.auths, r, held)
    ensures var checked := Check(hash, db, r, held, checks);
            var existing := Find(db.intents, r.key);
            var own := existing.Some? && existing.value.identity.auth == r.auth;
            var same := existing.Some? && existing.value.fingerprint == hash(Identity(r.mission, r.auth, held.terms, r.provider));
            if r.mission !in db.missions then Stops(checked, Refused(NoSuchMission))
            else if existing.None? && db.missions[r.mission] != Authorized then Stops(checked, Refused(MissionNotAuthorized))
            else if !checks.binding then Stops(checked, Refused(BindingFailure))
            else if own && held.status != AuthConsumed then Stops(checked, Refused(NotActive))
            else if !own && held.status != AuthActive then Stops(checked, Refused(Fault(db.auths[r.auth], r.now)))
            else if !own && r.now >= held.expiresAt then Stops(checked, Refused(Expired))
            else if !checks.proof then Stops(checked, Refused(ProofFailure))
            else if existing.None? then checked == Proceed
            else Stops(checked, if same then Reused(existing.value.id) else Refused(Refusal.IdempotencyConflict))
  {
  }

  /** A new request under an authorized mission and a fresh active authorization passes examination exactly when
      both the binding and the approval proof verify, and a refusal names the first that does not. */
  lemma FreshRequestExamined(hash: Fingerprint, s: Sys, c: int, checks: Checks, commits: bool)
    requires c in s.clients && s.clients[c].Held?
    requires var r, row := s.clients[c].request, s.clients[c].row;
             && r.mission in s.db.missions && s.db.missions[r.mission] == Authorized
             && (forall i :: 0 <= i < |s.db.intents| ==> s.db.intents[i].key != r.key)
             && row.status == AuthActive && r.now < row.expiresAt
    ensures var t := Next(hash, s, Examine(c, checks, commits));
            var r, row := s.clients[c].request, s.clients[c].row;
            && c in t.clients && t.db == s.db
            && (!checks.binding ==> t.clients[c] == Done(r, row, Refused(BindingFailure)))
            && (checks.binding && !checks.proof ==> t.clients[c] == Done(r, row, Refused(ProofFailure)))
            && (checks.binding && checks.proof ==> t.clients[c] == Cleared(r, row))
  {
    assert Find(s.db.intents, s.clients[c].request.key).None?;
  }

  /** The savepoint, case by case: the key, the authorization's one use, and its state now. */
  lemma EnterTable(hash: Fingerprint, db: Store, r: Request, held: Auth)
    requires Dated(db.auths, r, held)
    ensures var t := Settle(hash, db, r, held);
            var winner := Find(db.intents, r.key);
            var row := db.auths[r.auth];
            if winner.Some? then
              t.outcome == (if winner.value.fingerprint == hash(Identity(r.mission, r.auth, held.terms, r.provider))
                            then Reused(winner.value.id) else Refused(Refusal.IdempotencyConflict))
            else if exists i :: 0 <= i < |db.intents| && db.intents[i].identity.auth == r.auth then t.outcome == Refused(AuthorizationSpent)
            else if row.status == AuthActive && r.now < row.expiresAt then t.outcome == Established(|db.intents|)
            else t.outcome == Refused(Fault(row, r.now))
  {
  }

  // ---- The demotion is reached -------------------------------------------------------------

  const LATE := Request(1, 5, "k", "p", 20)
  const BRIEF := Auth(1, Terms("d", 1, "INR", "m"), 10, AuthPending, None)

  /** An authorization that expires at 10, presented at 20. */
  function LateRun(): seq<Step> {
    [Issue(5, BRIEF), Activate(5, 0), MoveMission(1, Authorized), Arrive(0, LATE), Examine(0, Checks(true, true), true)]
  }

  lemma RunFirst(hash: Fingerprint, s: Sys, steps: seq<Step>)
    requires steps != []
    ensures Run(hash, s, steps) == Run(hash, Next(hash, s, steps[0]), steps[1..])
  {
  }

  /** A refused request does change the rows: its authorization goes from active to expired. */
  lemma DemotionHappens(hash: Fingerprint)
    ensures var before, after := Run(hash, NOTHING, LateRun()[..4]), Run(hash, NOTHING, LateRun());
            && 5 in before.db.auths && before.db.auths[5].status.AuthActive?
            && 5 in after.db.auths && after.db.auths[5].status.AuthExpired?
            && after.clients[0] == Done(LATE, before.db.auths[5], Refused(Expired))
  {
    var o := LateRun();
    var s1 := Next(hash, NOTHING, o[0]);
    var s2 := Next(hash, s1, o[1]);
    var s3 := Next(hash, s2, o[2]);
    var s4 := Next(hash, s3, o[3]);
    var s5 := Next(hash, s4, o[4]);
    assert s4.clients[0] == Held(LATE, BRIEF.(status := AuthActive));
    assert s5.db.auths[5].status.AuthExpired?;
    forall k | 4 <= k <= 5 ensures Run(hash, NOTHING, o[..k]) == if k == 4 then s4 else s5 {
      RunFirst(hash, NOTHING, o[..k]);
      RunFirst(hash, s1, o[1..k]);
      RunFirst(hash, s2, o[2..k]);
      RunFirst(hash, s3, o[3..k]);
      assert o[..k][1..] == o[1..k] && o[1..k][1..] == o[2..k] && o[2..k][1..] == o[3..k] && o[3..k][1..] == o[4..k];
      if k == 5 {
        RunFirst(hash, s4, o[4..5]);
        assert o[4..5][1..] == [];
      }
    }
    assert o[..5] == o;
  }
}
