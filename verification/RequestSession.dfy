/** `create_payment_intent` as it runs: rows changed in place, a savepoint that is restored on
    failure, each method proved equal to the step functions of `Requests`. */
module RequestSession {
  import opened Vocabulary
  import opened AuditEvents
  import opened Requests
  import opened RequestProofs

  class PaymentRows {
    const hash: Fingerprint
    var auths: map<int, Auth>
    var missions: map<int, MissionState>
    var intents: seq<IntentRow>
    var outbox: seq<int>
    var ledger: seq<Note>

    function View(): Store
      reads this
    {
      Store(auths, missions, intents, outbox, ledger)
    }

    constructor (hash: Fingerprint)
      ensures View() == NOTHING.db && this.hash == hash
    {
      this.hash := hash;
      auths, missions, intents, outbox, ledger := map[], map[], [], [], [];
    }

    method AppendEvent(mission: int, event: EventType)
      modifies this`ledger
      ensures View() == Noted(old(View()), mission, event)
    {
      ledger := ledger + [Note(mission, event)];
    }

    /** Demote a stale authorization; never a grant. */
    method ExpireIfStale(id: int, now: Time) returns (changed: bool)
      modifies this`auths, this`ledger
      ensures View() == Requests.ExpireIfStale(old(View()), id, now)
      ensures changed <==> Stale(old(auths), id, now)
    {
      if id in auths && Open(auths[id]) && auths[id].expiresAt <= now {
        auths := auths[id := auths[id].(status := AuthExpired)];
        AppendEvent(auths[id].mission, EvAuthorizationExpired);
        return true;
      }
      return false;
    }

    /** Explain a refused transition and record it. */
    method ClassifyRefusal(id: int, presented: string, now: Time) returns (why: Refusal)
      modifies this`auths, this`ledger
      ensures Attempt(View(), Refused(why)) == Classify(old(View()), id, presented, now)
    {
      if id !in auths { return NoSuchAuthorization; }
      if auths[id].status.AuthConsumed? {
        AppendEvent(auths[id].mission, EvAuthorizationReplayDetected);
        return ReplayDetected;
      }
      if auths[id].terms.digest != presented {
        AppendEvent(auths[id].mission, EvTransactionBindingFailure);
        return BindingFailure;
      }
      if now >= auths[id].expiresAt {
        var _ := ExpireIfStale(id, now);
        return Expired;
      }
      return NotActive;
    }

    /** One time only: the whole precondition is decided where the row is written. */
    method ConsumeAuthorization(id: int, digest: string, now: Time) returns (changed: bool)
      modifies this`auths
      ensures changed <==> Consume(old(auths), id, digest, now).Some?
      ensures auths == if changed then Consume(old(auths), id, digest, now).value else old(auths)
    {
      if id in auths && auths[id].status.AuthActive? && auths[id].terms.digest == digest && auths[id].expiresAt > now {
        auths := auths[id := auths[id].(status := AuthConsumed, consumedAt := Some(now))];
        return true;
      }
      return false;
    }

    method ResolveHeld(existing: IntentRow, fingerprint: string) returns (o: Outcome)
      modifies this`ledger
      ensures Attempt(View(), o) == ResolveExisting(old(View()), existing, fingerprint)
    {
      if existing.fingerprint == fingerprint {
        AppendEvent(existing.identity.mission, EvIntentReused);
        return Reused(existing.id);
      }
      AppendEvent(existing.identity.mission, EvIdempotencyConflict);
      return Refused(Refusal.IdempotencyConflict);
    }

    /** INSERT under the two unique keys; false is the raised integrity error. */
    method InsertIntent(row: IntentRow) returns (inserted: bool)
      modifies this`intents
      ensures inserted <==> Find(old(intents), row.key).None? && !AuthTaken(old(intents), row.identity.auth)
      ensures intents == if inserted then old(intents) + [row] else old(intents)
    {
      if Find(intents, row.key).Some? || AuthTaken(intents, row.identity.auth) { return false; }
      intents := intents + [row];
      return true;
    }

    /** The savepoint: insert, consume, narrate, enqueue, move the mission; or restore everything. */
    method EnterSavepoint(r: Request, held: Auth) returns (o: Outcome)
      modifies this
      ensures Attempt(View(), o) == Settle(hash, old(View()), r, held)
    {
      var savedIntents, savedAuths, savedLedger := intents, auths, ledger;
      var fingerprint := hash(IdentityOf(r, held));
      var id := |intents|;
      var inserted := InsertIntent(IntentRow(id, IdentityOf(r, held), r.key, fingerprint));
      if !inserted {
        var winner := Find(intents, r.key);
        if winner.None? { return Refused(AuthorizationSpent); }
        o := ResolveHeld(winner.value, fingerprint);
        return;
      }
      var consumed := ConsumeAuthorization(r.auth, held.terms.digest, r.now);
      if !consumed {
        var why := ClassifyRefusal(r.auth, held.terms.digest, r.now);
        intents, auths, ledger := savedIntents, savedAuths, savedLedger;
        return Refused(why);
      }
      AppendEvent(r.mission, EvAuthorizationConsumed);
      AppendEvent(r.mission, EvIntentCreated);
      AppendEvent(r.mission, EvQueued);
      outbox := outbox + [id];
      missions := missions[r.mission := PaymentPending];
      return Established(id);
    }

    /** Re-verify the authorization row as it was read. */
    method VerifyForPayment(r: Request, held: Auth, expected: AuthorizationStatus, checks: Checks) returns (refusal: Option<Refusal>)
      modifies this`auths, this`ledger
      ensures var verdict := Verify(old(View()), r, held, expected, checks);
              if refusal.None? then verdict.Proceed? && View() == old(View())
              else verdict == Stop(Attempt(View(), Refused(refusal.value)))
    {
      if !checks.binding { return Some(BindingFailure); }
      if held.status != expected {
        if expected.AuthActive? {
          var why := ClassifyRefusal(r.auth, held.terms.digest, r.now);
          return Some(why);
        }
        return Some(NotActive);
      }
      if expected.AuthActive? && r.now >= held.expiresAt {
        var _ := ExpireIfStale(r.auth, r.now);
        return Some(Expired);
      }
      if !checks.proof { return Some(ProofFailure); }
      return None;
    }

    /** One request, start to end, with no other transaction in between. */
    method CreatePaymentIntent(r: Request, checks: Checks) returns (o: Outcome)
      modifies this
      ensures Attempt(View(), o) == Uninterrupted(hash, old(View()), r, checks)
    {
      if r.auth !in auths { return Refused(NoSuchAuthorization); }
      var held := auths[r.auth];
      if held.mission != r.mission { return Refused(ForeignAuthorization); }
      var existing := Find(intents, r.key);
      if r.mission !in missions { return Refused(NoSuchMission); }
      if existing.None? && missions[r.mission] != Authorized { return Refused(MissionNotAuthorized); }
      var own := existing.Some? && existing.value.identity.auth == r.auth;
      var refusal := VerifyForPayment(r, held, if own then AuthConsumed else AuthActive, checks);
      if refusal.Some? { return Refused(refusal.value); }
      if existing.Some? {
        o := ResolveHeld(existing.value, hash(IdentityOf(r, held)));
      } else {
        o := EnterSavepoint(r, held);
      }
    }
  }

  function Uninterrupted(hash: Fingerprint, db: Store, r: Request, checks: Checks): Attempt {
    var pc := Arrived(db, r);
    if pc.Turned? then Attempt(db, Refused(pc.why))
    else
      var checked := Check(hash, db, r, pc.row, checks);
      if checked.Stop? then checked.attempt else Settle(hash, db, r, pc.row)
  }

  /** A request that runs alone is one of the interleavings: arrive, examine, enter, commit. */
  lemma UninterruptedIsARun(hash: Fingerprint, s: Sys, c: int, r: Request, checks: Checks)
    requires c !in s.clients
    ensures var t := Run(hash, s, [Arrive(c, r), Examine(c, checks, true), Enter(c, true)]);
            var u := Uninterrupted(hash, s.db, r, checks);
            && t.db == u.db
            && c in t.clients
            && (t.clients[c].Done? ==> t.clients[c].outcome == u.outcome)
            && (t.clients[c].Turned? ==> u.outcome == Refused(t.clients[c].why))
            && (t.clients[c].Done? || t.clients[c].Turned?)
  {
    var steps := [Arrive(c, r), Examine(c, checks, true), Enter(c, true)];
    var s1 := Next(hash, s, steps[0]);
    var s2 := Next(hash, s1, steps[1]);
    var s3 := Next(hash, s2, steps[2]);
    assert steps[1..] == [steps[1], steps[2]] && [steps[1], steps[2]][1..] == [steps[2]];
    assert Run(hash, s2, [steps[2]]) == Run(hash, s3, []);
    assert Run(hash, s1, [steps[1], steps[2]]) == Run(hash, s2, [steps[2]]);
    assert Run(hash, s, steps) == Run(hash, s1, [steps[1], steps[2]]);
  }
}
