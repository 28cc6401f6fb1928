/** What the sections of `reconcile_intent` keep, whatever the provider answers. */
module ReconciliationProofs {
  import opened Vocabulary
  import opened AuditEvents
  import opened Tables
  import opened Executor
  import opened ExecutorProofs
  import opened Reconciliation

  /** A reconcile instruction stays queued until the intent settles; only an idempotent provider's
      is ever replaced, by a create. */
  predicate ReconcileRetired(idempotent: bool, a: Db, b: Db, e: nat, now: Time)
    requires e < |a.outbox|
  {
    || Deferred(a, b, e, now)
    || (Closed(a, b, e) && IsTerminal(b.intent.state))
    || (idempotent && Delegated(a, b, e, CreateRequested, now))
  }

  ghost predicate ReconcileTurn(idempotent: bool, a: Db, t: Turn, e: nat, offered: Option<Payment>, now: Time)
    requires e < |a.outbox|
  {
    && t.creates == 0
    && (t.Commit? ==>
          && Advances(idempotent, a, t.db)
          && ReconcileRetired(idempotent, a, t.db, e, now)
          && LinkJustified(a.intent, t.db.intent, offered))
  }

  /** A row at rest that has not settled. */
  ghost predicate Open(idempotent: bool, db: Db) {
    Sound(db) && AtRest(idempotent, db.intent) && !IsTerminal(db.intent.state)
  }

  lemma RetryPayloadReads(db: Db, reason: Reason, reference: Option<string>)
    ensures Truthful(db.intent.bound, RetryPayload(db, reason)) && State !in RetryPayload(db, reason)
    ensures Truthful(db.intent.bound, NarrationPayload(db, reason, reference))
  {
  }

  /** Putting the row back after a change that moved nothing the provider decides. */
  lemma RetryLaterAdvances(idempotent: bool, a: Db, mid: Db, e: nat, reason: Reason, now: Time)
    requires Sound(mid) && Evolves(a, mid) && AtRest(idempotent, mid.intent) && Frozen(a.intent, mid.intent)
    requires e < |a.outbox| && mid.outbox == a.outbox && mid.intent.fencedAt == a.intent.fencedAt
    ensures Advances(idempotent, a, RetryLater(mid, e, reason, now))
    ensures ReconcileRetired(idempotent, a, RetryLater(mid, e, reason, now), e, now)
    ensures RetryLater(mid, e, reason, now).intent == mid.intent
  {
    RetryPayloadReads(mid, reason, None);
    var put := Reschedule(mid, e, now);
    RetryAuditSound(a, put, if Retried(mid, e) then EvRetryScheduled else EvDeadLettered, RetryPayload(mid, reason));
  }

  lemma NarrateSound(a: Db, db: Db, p: Payload)
    requires Sound(db) && Evolves(a, db) && Truthful(db.intent.bound, p)
    ensures Sound(Append(db, EvReconciled, p)) && Evolves(a, Append(db, EvReconciled, p))
  {
  }

  lemma LookupUnansweredAdvances(idempotent: bool, db: Db, e: nat, error: ProviderError, now: Time)
    requires Open(idempotent, db) && e < |db.outbox|
    ensures ReconcileTurn(idempotent, db, LookupUnanswered(db, e, error, now), e, None, now)
  {
    if error.AmbiguityError? {
      var noted := db.(intent := RememberAmbiguity(db.intent, now));
      RememberSound(db, now);
      UncertainPayloadsRead(db, ProviderTimeout);
      if Uncertain(noted, ProviderPayload(db), Some(ProviderAmbiguity)).Some? {
        UncertainSound(noted, ProviderPayload(db), Some(ProviderAmbiguity));
        var d := Uncertain(noted, ProviderPayload(db), Some(ProviderAmbiguity)).value;
        EvolvesTransitive(db, noted, d);
        RetryLaterAdvances(idempotent, db, d, e, ReasonOf(error), now);
      }
    } else {
      RetryLaterAdvances(idempotent, db, db, e, ReasonOf(error), now);
    }
  }

  lemma StillAmbiguousAdvances(idempotent: bool, db: Db, e: nat, seen: Option<string>, now: Time)
    requires Open(idempotent, db) && e < |db.outbox| && db.intent.ambiguousAt.Some?
    ensures ReconcileTurn(idempotent, db, StillAmbiguous(db, e, seen, now), e, None, now)
  {
    var noted := db.(intent := RememberAmbiguity(db.intent, now));
    RememberSound(db, now);
    RetryPayloadReads(db, ProviderAmbiguity, seen);
    NarrateSound(db, Reschedule(noted, e, now), NarrationPayload(db, ProviderAmbiguity, seen));
  }

  lemma LinkedNotFoundAdvances(idempotent: bool, db: Db, e: nat, now: Time)
    requires Open(idempotent, db) && e < |db.outbox| && db.intent.refs.reference.Some?
    ensures ReconcileTurn(idempotent, db, LinkedNotFound(db, e, now), e, None, now)
  {
    var p := NarrationPayload(db, ProviderPaymentNotFound, db.intent.refs.reference);
    RetryPayloadReads(db, ProviderPaymentNotFound, db.intent.refs.reference);
    NarrateSound(db, db, p);
    RetryLaterAdvances(idempotent, db, Append(db, EvReconciled, p), e, ProviderPaymentNotFound, now);
  }

  lemma TellAndRetryAdvances(idempotent: bool, a: Db, mid: Db, e: nat, p: Payload, reason: Reason, now: Time)
    requires Sound(mid) && Evolves(a, mid) && AtRest(idempotent, mid.intent) && Frozen(a.intent, mid.intent)
    requires e < |a.outbox| && mid.outbox == a.outbox && mid.intent.fencedAt == a.intent.fencedAt
    requires Truthful(a.intent.bound, p) && mid.intent.bound == a.intent.bound && mid.intent.refs == a.intent.refs
    ensures ReconcileTurn(idempotent, a,
              Commit(RetryLater(Append(mid, EvReconciled, p), e, reason, now), 0), e, None, now)
  {
    NarrateSound(a, mid, p);
    RetryLaterAdvances(idempotent, a, Append(mid, EvReconciled, p), e, reason, now);
  }

  lemma FencedNotFoundAdvances(idempotent: bool, db: Db, e: nat, now: Time)
    requires Open(idempotent, db) && e < |db.outbox|
    requires db.intent.ambiguousAt.None? && db.intent.refs.reference.None?
    ensures ReconcileTurn(idempotent, db, FencedNotFound(db, e, now), e, None, now)
  {
    var p := NarrationPayload(db, ProviderCreateFenced, None);
    RetryPayloadReads(db, ProviderCreateFenced, None);
    if db.intent.state.ProviderPending? {
      TellAndRetryAdvances(idempotent, db, db.(intent := db.intent.(reason := Some(ProviderCreateFenced))),
                           e, p, ProviderCreateFenced, now);
    } else {
      UncertainPayloadsRead(db, ProviderTimeout);
      UncertainSound(db, ProviderPayload(db), Some(ProviderCreateFenced));
      TellAndRetryAdvances(idempotent, db, Uncertain(db, ProviderPayload(db), Some(ProviderCreateFenced)).value,
                           e, p, ProviderCreateFenced, now);
    }
  }

  /** The silent FAILED_RETRYABLE write is caught up by the PAYMENT_RETRY_SCHEDULED that follows it. */
  lemma ReopenedSound(a: Db, told: Db, e: nat, p: Payload, now: Time)
    requires Sound(told) && Evolves(a, told) && e < |told.outbox|
    requires Allowed(told.intent.state, FailedRetryable) && !IsTerminal(a.intent.state)
    requires Truthful(told.intent.bound, p) && State in p && p[State] == JState(FailedRetryable)
    ensures var requeued := told.(intent := WithState(told.intent, FailedRetryable).(reason := Some(ProviderPaymentNotFound)));
            var d := Append(Complete(Enqueue(requeued, CreateRequested, now), e), EvRetryScheduled, p);
            Sound(d) && Evolves(a, d)
  {
  }

  lemma ReopenPayloadReads(db: Db)
    ensures var p := ReopenPayload(db);
            Truthful(db.intent.bound, p) && State in p && p[State] == JState(FailedRetryable)
  {
  }

  lemma ResolveNoneAdvances(db: Db, e: nat, now: Time)
    requires Open(true, db) && e < |db.outbox| && db.intent.ambiguousAt.None? && db.intent.refs.reference.None?
    ensures ReconcileTurn(true, db, ResolveNone(db, e, now), e, None, now)
  {
    hide Sound, Evolves, Truthful, NarrationPayload, ReopenPayload;
    if Allowed(db.intent.state, FailedRetryable) {
      EvolvesReflexive(db);
      var p := NarrationPayload(db, ProviderPaymentNotFound, None);
      RetryPayloadReads(db, ProviderPaymentNotFound, None);
      NarrateSound(db, db, p);
      ReopenPayloadReads(db);
      ReopenedSound(db, Append(db, EvReconciled, p), e, ReopenPayload(db), now);
      assert ResolveNone(db, e, now).db.outbox ==
             db.outbox[e := db.outbox[e].(status := Processed)] + [NewRow(CreateRequested, now)];
    }
  }

  lemma AnswerFoundAdvances(idempotent: bool, db: Db, e: nat, p: Payment, now: Time)
    requires Open(idempotent, db) && e < |db.outbox| && db.intent.ambiguousAt.None?
    ensures ReconcileTurn(idempotent, db, AnswerFound(db, e, p, now), e, Some(p), now)
  {
    if !Matches(db.intent.bound, p, db.intent.refs.reference.None?) {
      RetryLaterAdvances(idempotent, db, db, e, ProviderResponseMismatch, now);
    } else {
      var tried := if db.intent.state.Queued? || db.intent.state.FailedRetryable? then RecordAttempt(db) else db;
      RecordAttemptSound(db);
      FoldedAdvances(idempotent, db, tried, e, p, now);
    }
  }

  /** Linking cannot fail after the attempt was recorded, so PROCESSING is never committed. */
  lemma FoldedAdvances(idempotent: bool, a: Db, tried: Db, e: nat, p: Payment, now: Time)
    requires Open(idempotent, a) && e < |a.outbox| && a.intent.ambiguousAt.None?
    requires Matches(a.intent.bound, p, a.intent.refs.reference.None?)
    requires Sound(tried) && Evolves(a, tried) && tried.outbox == a.outbox
    requires tried.intent.refs == a.intent.refs && tried.intent.fencedAt == a.intent.fencedAt
    requires tried.intent.ambiguousAt.None? && tried.intent.bound == a.intent.bound
    requires (tried.intent.state.ProviderPending? && tried == a) ||
             (tried.intent.state.Processing? && a.intent.refs.reference.None?)
    ensures !ApplyProviderPayment(tried, p).Raised?
    ensures ApplyProviderPayment(tried, p).Mismatch? ==>
              ReconcileTurn(idempotent, a,
                Commit(RetryLater(ApplyProviderPayment(tried, p).db, e, ProviderResponseMismatch, now), 0), e, Some(p), now)
    ensures ApplyProviderPayment(tried, p).Done? ==>
              var applied := ApplyProviderPayment(tried, p).db;
              var told := Append(applied, EvReconciled, ReconciledPayload(applied, p, applied.intent.state));
              ReconcileTurn(idempotent, a,
                Commit(if applied.intent.state.ProviderPending? then Reschedule(told, e, now) else Complete(told, e), 0), e, Some(p), now)
  {
    hide ApplyProviderPayment, ReconciledPayload, Sound, Evolves;
    ApplySound(tried, p);
    var r := ApplyProviderPayment(tried, p);
    EvolvesTransitive(a, tried, r.db);
    if r.Mismatch? {
      RetryLaterAdvances(idempotent, a, r.db, e, ProviderResponseMismatch, now);
    } else {
      ReconciledSound(a, r.db, p);
      var told := Append(r.db, EvReconciled, ReconciledPayload(r.db, p, r.db.intent.state));
      OutboxOnly(a, told, if r.db.intent.state.ProviderPending? then Reschedule(told, e, now) else Complete(told, e));
    }
  }

  lemma ReconcileSectionAdvances(idempotent: bool, db: Db, e: nat, io: Io, now: Time)
    requires Open(idempotent, db) && e < |db.outbox| && (idempotent || db.intent.fencedAt.Some?)
    ensures ReconcileTurn(idempotent, db, ReconcileSection(idempotent, db, e, io, now), e, LookupPayment(io.lookup), now)
  {
    match io.lookup
    case LookupCrashed =>
    case LookupFailed(error) => LookupUnansweredAdvances(idempotent, db, e, error, now);
    case Found(p) =>
      if db.intent.ambiguousAt.Some? { StillAmbiguousAdvances(idempotent, db, e, Some(p.reference), now); }
      else { AnswerFoundAdvances(idempotent, db, e, p, now); }
    case NotFound =>
      if db.intent.ambiguousAt.Some? { StillAmbiguousAdvances(idempotent, db, e, None, now); }
      else if db.intent.refs.reference.Some? { LinkedNotFoundAdvances(idempotent, db, e, now); }
      else if !idempotent { FencedNotFoundAdvances(idempotent, db, e, now); }
      else { ResolveNoneAdvances(db, e, now); }
  }

  lemma ReconcileBeginAdvances(idempotent: bool, db: Db, e: nat, io: Io, now: Time)
    requires Sound(db) && AtRest(idempotent, db.intent) && e < |db.outbox|
    ensures var b := ReconcileBegin(idempotent, db, e, io, now);
            && (b.Ended? ==> ReconcileTurn(idempotent, db, b.turn, e, LookupPayment(io.lookup), now))
            && (b.NeedsFence? ==> !idempotent && !b.requeue)
  {
    if io.adapter == db.intent.bound.provider && !IsTerminal(db.intent.state) && io.authorized
       && (idempotent || db.intent.fencedAt.Some?) {
      ReconcileSectionAdvances(idempotent, db, e, io, now);
    }
  }

  lemma ReconcileFencedAdvances(db: Db, e: nat, io: Io, now: Time)
    requires Sound(db) && AtRest(false, db.intent) && e < |db.outbox| && db.intent.fencedAt.Some?
    ensures ReconcileTurn(false, db, ReconcileFenced(db, e, io, now), e, LookupPayment(io.lookup), now)
  {
    if io.adapter == db.intent.bound.provider && !IsTerminal(db.intent.state) && io.authorized {
      ReconcileSectionAdvances(false, db, e, io, now);
    }
  }
}
