/** What the sections of `dispatch_create` keep, whatever the provider answers. */
module ExecutorProofs {
  import opened Vocabulary
  import opened AuditEvents
  import opened ReplayCore
  import opened Tables
  import opened Executor

  // ---- What a commit must leave behind -----------------------------------------------------

  /** The intent between transactions. CREATED and PROCESSING are never committed; a fenced
      provider never sees FAILED_RETRYABLE; a linked intent is pending or settled; a success names
      its provider payment; an ambiguous intent is pending and says so. */
  predicate AtRest(idempotent: bool, i: Intent) {
    && (i.state.Queued? || i.state.ProviderPending? || i.state.Succeeded? || i.state.FailedTerminal?
        || (idempotent && i.state.FailedRetryable?))
    && (i.refs.reference.Some? ==> i.state.ProviderPending? || IsTerminal(i.state))
    && (i.state.Succeeded? ==> i.refs.reference.Some?)
    && (i.ambiguousAt.Some? ==> i.state.ProviderPending? && i.reason == Some(ProviderAmbiguity))
  }

  /** An ambiguous intent is neither settled nor linked. */
  predicate Frozen(a: Intent, b: Intent) {
    a.ambiguousAt.Some? ==> b.state == a.state && b.refs == a.refs
  }

  predicate Closed(a: Db, b: Db, e: nat)
    requires e < |a.outbox|
  {
    b.outbox == a.outbox[e := a.outbox[e].(status := Processed)]
  }

  predicate Delegated(a: Db, b: Db, e: nat, kind: OutboxKind, now: Time)
    requires e < |a.outbox|
  {
    b.outbox == a.outbox[e := a.outbox[e].(status := Processed)] + [NewRow(kind, now)]
  }

  predicate Deferred(a: Db, b: Db, e: nat, now: Time)
    requires e < |a.outbox|
  {
    b.outbox == a.outbox[e := Rescheduled(a.outbox[e], now)]
  }

  /** A create instruction is retired by a settlement or by its follow-up; only an idempotent
      provider's create is ever put back. */
  predicate CreateRetired(idempotent: bool, a: Db, b: Db, e: nat, now: Time)
    requires e < |a.outbox|
  {
    || Delegated(a, b, e, ReconcileRequested, now)
    || (Closed(a, b, e) && IsTerminal(b.intent.state))
    || (idempotent && Deferred(a, b, e, now))
  }

  /** The reference column changes only from a response that matches the intent, key included. */
  predicate LinkJustified(a: Intent, b: Intent, p: Option<Payment>) {
    a.refs.reference != b.refs.reference ==>
      && a.refs.reference.None? && p.Some?
      && b.refs.reference == Some(p.value.reference)
      && Matches(a.bound, p.value, true)
  }

  function LookupPayment(l: Lookup): Option<Payment> { if l.Found? then Some(l.payment) else None }
  function AnswerPayment(a: Answer): Option<Payment> { if a.Answered? then Some(a.payment) else None }

  /** The payment a dispatch section may adopt. */
  function Offered(io: Io): Option<Payment> {
    if io.lookup.NotFound? then AnswerPayment(io.answer) else LookupPayment(io.lookup)
  }

  /** What every committed section owes the rows it started from. */
  ghost predicate Advances(idempotent: bool, a: Db, b: Db) {
    && Sound(b) && Evolves(a, b) && AtRest(idempotent, b.intent) && Frozen(a.intent, b.intent)
    && b.intent.fencedAt == a.intent.fencedAt
  }

  // ---- Pieces ------------------------------------------------------------------------------

  lemma UncertainSound(db: Db, p: Payload, reason: Option<Reason>)
    requires Sound(db) && Truthful(db.intent.bound, p) && State !in p && Uncertain(db, p, reason).Some?
    ensures var d := Uncertain(db, p, reason).value;
            && Sound(d) && Evolves(db, d)
            && d.intent.state.ProviderPending? && d.intent.reason == reason
            && d.intent.refs == db.intent.refs && d.intent.ambiguousAt == db.intent.ambiguousAt
            && d.intent.fencedAt == db.intent.fencedAt && d.outbox == db.outbox
  {
    hide TransitionPayload, Truthful, LawfulPath;
    if db.intent.state.ProviderPending? {
      var noted := db.(intent := db.intent.(reason := reason));
      TransitionPayloadReads(db.intent.bound, ProviderPending, p, reason);
      AppendNarrates(noted, EvUncertain, TransitionPayload(db.intent.bound.id, ProviderPending, p, reason));
    } else {
      SettledSound(db, ProviderPending, EvUncertain, p, reason);
    }
  }

  /** The rows after uncertainty ended create instruction `e`. */
  ghost predicate EndedUncertain(a: Db, b: Db, e: nat, observed: Reason, now: Time)
    requires e < |a.outbox|
  {
    && Sound(b) && Evolves(a, b) && b.intent.state.ProviderPending?
    && b.intent.refs == a.intent.refs && b.intent.fencedAt == a.intent.fencedAt
    && (b.intent.ambiguousAt.Some? <==> observed.ProviderAmbiguity? || a.intent.ambiguousAt.Some?)
    && (b.intent.ambiguousAt.Some? ==> b.intent.reason == Some(ProviderAmbiguity))
    && Delegated(a, b, e, ReconcileRequested, now)
  }

  lemma RememberSound(db: Db, now: Time)
    requires Sound(db)
    ensures Sound(db.(intent := RememberAmbiguity(db.intent, now)))
    ensures Evolves(db, db.(intent := RememberAmbiguity(db.intent, now)))
  {
  }

  lemma UncertainPayloadsRead(db: Db, observed: Reason)
    ensures Truthful(db.intent.bound, ProviderPayload(db)) && State !in ProviderPayload(db)
    ensures Truthful(db.intent.bound, TimeoutPayload(db, observed)) && State !in TimeoutPayload(db, observed)
  {
  }

  lemma MarkUncertainSound(db: Db, observed: Reason, timedOut: bool, now: Time)
    requires Sound(db) && MarkUncertain(db, observed, timedOut, now).Some?
    ensures var d := MarkUncertain(db, observed, timedOut, now).value;
            && Sound(d) && Evolves(db, d)
            && d.intent.state.ProviderPending? && d.intent.refs == db.intent.refs
            && d.intent.fencedAt == db.intent.fencedAt
            && (d.intent.ambiguousAt.Some? <==> observed.ProviderAmbiguity? || db.intent.ambiguousAt.Some?)
            && (d.intent.ambiguousAt.Some? ==> d.intent.reason == Some(ProviderAmbiguity))
            && d.outbox == db.outbox + [NewRow(ReconcileRequested, now)]
  {
    hide Sound, Evolves, Truthful, ProviderPayload, TimeoutPayload, TransitionPayload;
    EvolvesReflexive(db);
    var ambiguous := observed.ProviderAmbiguity? || db.intent.ambiguousAt.Some?;
    var noted := if ambiguous then db.(intent := RememberAmbiguity(db.intent, now)) else db;
    RememberSound(db, now);
    UncertainPayloadsRead(db, observed);
    var p := TimeoutPayload(db, observed);
    var heard := if timedOut then Append(noted, EvProviderTimeout, p) else noted;
    AppendNarrates(noted, EvProviderTimeout, p);
    EvolvesTransitive(db, noted, heard);
    var reason := if ambiguous then ProviderAmbiguity else observed;
    UncertainSound(heard, ProviderPayload(db), Some(reason));
    var marked := Uncertain(heard, ProviderPayload(db), Some(reason)).value;
    EvolvesTransitive(db, heard, marked);
    OutboxOnly(db, marked, Enqueue(marked, ReconcileRequested, now));
  }

  lemma EndUncertainSound(db: Db, e: nat, observed: Reason, timedOut: bool, now: Time, creates: nat)
    requires Sound(db) && e < |db.outbox|
    ensures var t := EndUncertain(db, e, observed, timedOut, now, creates);
            t.creates == creates && (t.Commit? ==> EndedUncertain(db, t.db, e, observed, now))
  {
    hide MarkUncertain, Sound, Evolves;
    if MarkUncertain(db, observed, timedOut, now).Some? {
      MarkUncertainSound(db, observed, timedOut, now);
      var d := MarkUncertain(db, observed, timedOut, now).value;
      OutboxOnly(db, d, Complete(d, e));
      assert Complete(d, e).outbox ==
             db.outbox[e := db.outbox[e].(status := Processed)] + [NewRow(ReconcileRequested, now)];
    }
  }

  /** Re-queueing is the one move without an event; the section that makes it does not stop there. */
  lemma RequeueGrows(db: Db)
    requires Sound(db) && db.intent.state.FailedRetryable?
    ensures var d := db.(intent := WithState(db.intent, Queued));
            Sound(d) && Grows(db, d) && d.ledger == db.ledger
  {
    HistoryExtends(db.intent, Queued);
  }

  /** Whatever leaves a re-queued row behind has told replay so. */
  lemma RequeueCaughtUp(db: Db, b: Db)
    requires Sound(db) && db.intent.state.FailedRetryable?
    requires Evolves(db.(intent := WithState(db.intent, Queued)), b) && !b.intent.state.Queued?
    ensures Evolves(db, b)
  {
    var queued := db.(intent := WithState(db.intent, Queued));
    RequeueGrows(db);
    GrowsTransitive(db, queued, b);
  }

  lemma RecordAttemptSound(db: Db)
    requires Sound(db)
    ensures var d := RecordAttempt(db);
            && Sound(d) && Evolves(db, d)
            && d.intent.refs == db.intent.refs && d.intent.ambiguousAt == db.intent.ambiguousAt
            && d.intent.fencedAt == db.intent.fencedAt && d.outbox == db.outbox
            && d.intent.state == (if db.intent.state.Queued? || db.intent.state.FailedRetryable?
                                  then Processing else db.intent.state)
  {
    hide ProviderPayload, Sound, Evolves, TransitionPayload, Truthful;
    UncertainPayloadsRead(db, ProviderTimeout);
    EvolvesReflexive(db);
    if db.intent.state.FailedRetryable? {
      var queued := db.(intent := WithState(db.intent, Queued));
      RequeueGrows(db);
      SettledSound(queued, Processing, EvAttempted, ProviderPayload(db), None);
      RequeueCaughtUp(db, Settled(queued, Processing, EvAttempted, ProviderPayload(db), None));
    } else if db.intent.state.Queued? {
      SettledSound(db, Processing, EvAttempted, ProviderPayload(db), None);
    }
  }

  lemma ConclusionPayloadReads(db: Db, p: Payment)
    ensures Truthful(db.intent.bound, ConclusionPayload(db, p)) && State !in ConclusionPayload(db, p)
  {
    var b := db.intent.bound;
    var terms: Payload := map[AmountInr := JInt(b.amount), Currency := JText(b.currency)];
    assert Truthful(b, ProviderPayload(db)) && Truthful(b, Evidence(p)) && Truthful(b, terms);
    hide Truthful, ProviderPayload, Evidence;
    TruthfulUnion(b, ProviderPayload(db), Evidence(p));
    TruthfulUnion(b, ProviderPayload(db) + Evidence(p), terms);
  }

  function ConclusionEvent(target: PaymentState): EventType {
    if target.Succeeded? then EvSucceeded else if target.FailedTerminal? then EvFailed else EvUncertain
  }

  function ConclusionReason(target: PaymentState): Option<Reason> {
    if target.FailedTerminal? then Some(ProviderTerminalFailure) else None
  }

  lemma ConcludeSettles(db: Db, p: Payment)
    requires Conclude(db, p).Some?
    ensures var target := StateOfStatus(p.status);
            Conclude(db, p).value ==
            Settled(db, target, ConclusionEvent(target), ConclusionPayload(db, p), ConclusionReason(target))
  {
  }

  lemma ConcludeSound(db: Db, p: Payment)
    requires Sound(db) && Conclude(db, p).Some?
    ensures var d := Conclude(db, p).value;
            && Sound(d) && Evolves(db, d)
            && d.intent.state == StateOfStatus(p.status) && d.intent.refs == db.intent.refs
            && d.intent.ambiguousAt == db.intent.ambiguousAt && d.intent.fencedAt == db.intent.fencedAt
            && d.outbox == db.outbox
  {
    var target := StateOfStatus(p.status);
    ConclusionPayloadReads(db, p);
    ConcludeSettles(db, p);
    SettledSound(db, target, ConclusionEvent(target), ConclusionPayload(db, p), ConclusionReason(target));
  }

  /** The rows after an answer was folded in. */
  ghost predicate Folded(a: Db, b: Db, p: Payment) {
    && Sound(b) && Evolves(a, b) && b.outbox == a.outbox
    && b.intent.ambiguousAt == a.intent.ambiguousAt && b.intent.fencedAt == a.intent.fencedAt
    && LinkJustified(a.intent, b.intent, Some(p))
  }

  /** Folding a provider answer into an intent whose state can take it never raises; it links and
      moves, or refuses without moving. */
  lemma ApplySound(db: Db, p: Payment)
    requires Sound(db)
    requires db.intent.state.Processing? || db.intent.state.ProviderPending? || IsTerminal(db.intent.state)
    ensures var r := ApplyProviderPayment(db, p);
            && !r.Raised?
            && Folded(db, r.db, p)
            && (r.Mismatch? ==> r.db.intent.state == db.intent.state)
            && (r.Done? ==> r.db.intent.refs.reference.Some?)
            && (r.Done? ==> r.db.intent.state ==
                            if IsTerminal(db.intent.state) then db.intent.state else StateOfStatus(p.status))
    ensures db.intent.refs.reference.None? && Matches(db.intent.bound, p, true) ==> ApplyProviderPayment(db, p).Done?
  {
    LinkSound(db, p);
    var linked := db.(intent := db.intent.(refs := Link(db.intent.refs, p).refs));
    if Conclude(linked, p).Some? {
      ConcludeSound(linked, p);
      EvolvesTransitive(db, linked, Conclude(linked, p).value);
    }
  }

  // ---- Sections ----------------------------------------------------------------------------

  /** What a section that handles create instruction `e` may commit. */
  ghost predicate CreateTurn(idempotent: bool, a: Db, t: Turn, e: nat, offered: Option<Payment>, now: Time)
    requires e < |a.outbox|
  {
    t.Commit? ==>
      && Advances(idempotent, a, t.db) && !t.db.intent.state.Queued?
      && CreateRetired(idempotent, a, t.db, e, now)
      && LinkJustified(a.intent, t.db.intent, offered)
  }

  ghost predicate Ready(idempotent: bool, db: Db) {
    Sound(db) && AtRest(idempotent, db.intent)
  }

  lemma EndUncertainAdvances(idempotent: bool, a: Db, mid: Db, e: nat, observed: Reason, timedOut: bool,
                             now: Time, creates: nat, offered: Option<Payment>)
    requires Ready(idempotent, a) && Sound(mid) && Evolves(a, mid)
    requires e < |a.outbox| && mid.outbox == a.outbox
    requires mid.intent.fencedAt == a.intent.fencedAt && mid.intent.ambiguousAt == a.intent.ambiguousAt
    requires LinkJustified(a.intent, mid.intent, offered)
    requires a.intent.ambiguousAt.Some? ==> mid.intent.refs == a.intent.refs
    ensures CreateTurn(idempotent, a, EndUncertain(mid, e, observed, timedOut, now, creates), e, offered, now)
    ensures EndUncertain(mid, e, observed, timedOut, now, creates).creates == creates
  {
    EndUncertainSound(mid, e, observed, timedOut, now, creates);
    var t := EndUncertain(mid, e, observed, timedOut, now, creates);
    if t.Commit? { EvolvesTransitive(a, mid, t.db); }
  }

  lemma FollowUpAdvances(idempotent: bool, a: Db, mid: Db, e: nat, now: Time)
    requires Ready(idempotent, a) && a.intent.ambiguousAt.None?
    requires Sound(mid) && Evolves(a, mid) && e < |a.outbox| && mid.outbox == a.outbox
    requires mid.intent.ambiguousAt.None? && mid.intent.fencedAt == a.intent.fencedAt
    requires mid.intent.refs.reference.Some?
    requires mid.intent.state.ProviderPending? || mid.intent.state.Succeeded? || mid.intent.state.FailedTerminal?
    ensures Advances(idempotent, a, FollowUp(mid, e, now))
    ensures CreateRetired(idempotent, a, FollowUp(mid, e, now), e, now)
  {
  }

  lemma ReconciledPayloadReads(db: Db, p: Payment, s: PaymentState)
    ensures Truthful(db.intent.bound, ReconciledPayload(db, p, s))
  {
  }

  /** Attempt, then fold: shared by an existing payment and a created one. */
  lemma AdoptSound(idempotent: bool, db: Db, p: Payment)
    requires Ready(idempotent, db)
    ensures var r := ApplyProviderPayment(RecordAttempt(db), p);
            && !r.Raised? && Sound(r.db) && Evolves(db, r.db) && r.db.outbox == db.outbox
            && r.db.intent.ambiguousAt == db.intent.ambiguousAt && r.db.intent.fencedAt == db.intent.fencedAt
            && LinkJustified(db.intent, r.db.intent, Some(p))
            && (r.Done? ==> r.db.intent.refs.reference.Some?)
            && (r.Done? ==> r.db.intent.state.ProviderPending? || r.db.intent.state.Succeeded? || r.db.intent.state.FailedTerminal?)
  {
    RecordAttemptSound(db);
    ApplySound(RecordAttempt(db), p);
    EvolvesTransitive(db, RecordAttempt(db), ApplyProviderPayment(RecordAttempt(db), p).db);
  }

  lemma ReconciledSound(a: Db, db: Db, p: Payment)
    requires Sound(db) && Evolves(a, db)
    ensures Sound(Append(db, EvReconciled, ReconciledPayload(db, p, db.intent.state)))
    ensures Evolves(a, Append(db, EvReconciled, ReconciledPayload(db, p, db.intent.state)))
  {
    ReconciledPayloadReads(db, p, db.intent.state);
    AppendNarrates(db, EvReconciled, ReconciledPayload(db, p, db.intent.state));
    EvolvesTransitive(a, db, Append(db, EvReconciled, ReconciledPayload(db, p, db.intent.state)));
  }

  /** Adopting a payment the provider already holds. */
  lemma FinishExistingAdvances(idempotent: bool, db: Db, e: nat, existing: Payment, now: Time)
    requires Ready(idempotent, db) && e < |db.outbox|
    ensures CreateTurn(idempotent, db, FinishExisting(db, e, existing, now), e, Some(existing), now)
    ensures FinishExisting(db, e, existing, now).creates == 0
  {
    if db.intent.ambiguousAt.Some? {
      EndUncertainAdvances(idempotent, db, db, e, ProviderAmbiguity, false, now, 0, Some(existing));
    } else if !Matches(db.intent.bound, existing, true) {
      EndUncertainAdvances(idempotent, db, db, e, ProviderResponseMismatch, false, now, 0, Some(existing));
    } else {
      AdoptSound(idempotent, db, existing);
      var r := ApplyProviderPayment(RecordAttempt(db), existing);
      if r.Mismatch? {
        EndUncertainAdvances(idempotent, db, r.db, e, ProviderResponseMismatch, false, now, 0, Some(existing));
      } else {
        ReconciledSound(db, r.db, existing);
        FollowUpAdvances(idempotent, db, Append(r.db, EvReconciled, ReconciledPayload(r.db, existing, r.db.intent.state)), e, now);
      }
    }
  }

  /** The search-only path creates nothing. */
  lemma RecoverFencedAdvances(idempotent: bool, db: Db, e: nat, io: Io, now: Time)
    requires Ready(idempotent, db) && e < |db.outbox|
    ensures CreateTurn(idempotent, db, RecoverFenced(db, e, io, now), e, LookupPayment(io.lookup), now)
    ensures RecoverFenced(db, e, io, now).creates == 0
  {
    match io.lookup
    case LookupCrashed =>
    case LookupFailed(error) =>
      EndUncertainAdvances(idempotent, db, db, e, ReasonOf(error), error.TimeoutError?, now, 0, None);
    case Found(existing) => FinishExistingAdvances(idempotent, db, e, existing, now);
    case NotFound => EndUncertainAdvances(idempotent, db, db, e, ProviderCreateFenced, false, now, 0, None);
  }

  /** A create that answered. */
  lemma CreateAnsweredAdvances(idempotent: bool, db: Db, e: nat, p: Payment, now: Time)
    requires Ready(idempotent, db) && e < |db.outbox| && db.intent.ambiguousAt.None?
    ensures CreateTurn(idempotent, db, CreateAnswered(RecordAttempt(db), e, p, now), e, Some(p), now)
    ensures CreateAnswered(RecordAttempt(db), e, p, now).creates == 1
  {
    RecordAttemptSound(db);
    if !Matches(db.intent.bound, p, true) {
      EndUncertainAdvances(idempotent, db, RecordAttempt(db), e, ProviderResponseMismatch, false, now, 1, Some(p));
    } else {
      AdoptSound(idempotent, db, p);
      var r := ApplyProviderPayment(RecordAttempt(db), p);
      if r.Mismatch? {
        EndUncertainAdvances(idempotent, db, r.db, e, ProviderResponseMismatch, false, now, 1, Some(p));
      } else {
        FollowUpAdvances(idempotent, db, r.db, e, now);
      }
    }
  }

  /** The row a create was attempted from. */
  ghost predicate Tried(idempotent: bool, a: Db, tried: Db) {
    && Ready(idempotent, a) && a.intent.ambiguousAt.None? && a.intent.refs.reference.None?
    && Sound(tried) && Evolves(a, tried) && tried.intent.state.Processing? && tried.outbox == a.outbox
    && tried.intent.refs == a.intent.refs && tried.intent.fencedAt == a.intent.fencedAt
    && tried.intent.ambiguousAt.None?
  }

  lemma TerminalAdvances(idempotent: bool, a: Db, tried: Db, e: nat, now: Time)
    requires e < |a.outbox| && Tried(idempotent, a, tried)
    ensures CreateTurn(idempotent, a, CreateRefused(idempotent, tried, e, TerminalError, now), e, None, now)
  {
    hide ProviderPayload, Sound, Evolves, TransitionPayload;
    UncertainPayloadsRead(tried, ProviderTimeout);
    var failed := Settled(tried, FailedTerminal, EvFailed, ProviderPayload(tried), Some(ProviderTerminalFailure));
    SettledSound(tried, FailedTerminal, EvFailed, ProviderPayload(tried), Some(ProviderTerminalFailure));
    EvolvesTransitive(a, tried, failed);
    assert CreateRefused(idempotent, tried, e, TerminalError, now) == Commit(Complete(failed, e), 1);
    OutboxOnly(a, failed, Complete(failed, e));
  }

  lemma RetryAuditSound(a: Db, db: Db, t: EventType, p: Payload)
    requires Sound(db) && Evolves(a, db) && (t.EvRetryScheduled? || t.EvDeadLettered?)
    requires State !in p && Truthful(db.intent.bound, p)
    ensures Sound(Append(db, t, p)) && Evolves(a, Append(db, t, p))
  {
  }

  lemma RetryableAdvances(a: Db, tried: Db, e: nat, error: ProviderError, now: Time)
    requires e < |a.outbox| && Tried(true, a, tried) && (error.TransientError? || error.AmbiguityError?)
    ensures CreateTurn(true, a, CreateRefused(true, tried, e, error, now), e, None, now)
  {
    hide ProviderPayload, Sound, Evolves, TransitionPayload;
    UncertainPayloadsRead(tried, ProviderTimeout);
    var failed := Settled(tried, FailedRetryable, EvFailed, ProviderPayload(tried), Some(ProviderTransientFailure));
    SettledSound(tried, FailedRetryable, EvFailed, ProviderPayload(tried), Some(ProviderTransientFailure));
    EvolvesTransitive(a, tried, failed);
    var put := Reschedule(failed, e, now);
    OutboxOnly(a, failed, put);
    var t := if Retried(failed, e) then EvRetryScheduled else EvDeadLettered;
    var p: Payload := map[IntentId := JText(tried.intent.bound.id)];
    RetryAuditSound(a, put, t, p);
    assert CreateRefused(true, tried, e, error, now) == Commit(Append(put, t, p), 1);
  }

  /** Every answer to a create, from a QUEUED row. */
  lemma AfterCreateAdvances(idempotent: bool, db: Db, e: nat, answer: Answer, now: Time)
    requires Ready(idempotent, db) && e < |db.outbox| && db.intent.state.Queued?
    ensures CreateTurn(idempotent, db, AfterCreate(idempotent, db, e, answer, now), e, AnswerPayment(answer), now)
    ensures AfterCreate(idempotent, db, e, answer, now).creates == 1
  {
    hide RecordAttempt, EndUncertain, Sound, Evolves, CreateAnswered;
    match answer
    case CreateCrashed =>
    case Answered(p) => CreateAnsweredAdvances(idempotent, db, e, p, now);
    case CreateFailed(error) =>
      RecordAttemptSound(db);
      if error.TimeoutError? {
        EndUncertainAdvances(idempotent, db, RecordAttempt(db), e, ProviderTimeout, true, now, 1, None);
      } else if error.TerminalError? {
        TerminalAdvances(idempotent, db, RecordAttempt(db), e, now);
      } else if error.TransientError? || error.AmbiguityError? {
        if idempotent { RetryableAdvances(db, RecordAttempt(db), e, error, now); }
        else { EndUncertainAdvances(idempotent, db, RecordAttempt(db), e, ReasonOf(error), false, now, 1, None); }
      }
  }

  lemma CreateSectionAdvances(idempotent: bool, db: Db, e: nat, io: Io, now: Time)
    requires Ready(idempotent, db) && e < |db.outbox| && db.intent.state.Queued?
    ensures CreateTurn(idempotent, db, CreateSection(idempotent, db, e, io, now), e, Offered(io), now)
    ensures CreateSection(idempotent, db, e, io, now).creates <= 1
  {
    match io.lookup
    case LookupCrashed =>
    case LookupFailed(error) =>
      EndUncertainAdvances(idempotent, db, db, e, ReasonOf(error), error.TimeoutError?, now, 0, None);
    case Found(existing) => FinishExistingAdvances(idempotent, db, e, existing, now);
    case NotFound => AfterCreateAdvances(idempotent, db, e, io.answer, now);
  }

  /** The first section of a create instruction; for a fenced provider it never creates. */
  lemma DispatchBeginAdvances(idempotent: bool, db: Db, e: nat, io: Io, now: Time)
    requires Sound(db) && AtRest(idempotent, db.intent) && e < |db.outbox|
    ensures var b := DispatchBegin(idempotent, db, e, io, now);
            && (b.Ended? ==> CreateTurn(idempotent, db, b.turn, e, Offered(io), now))
            && (b.Ended? && !idempotent ==> b.turn.creates == 0)
            && (b.Ended? && db.intent.ambiguousAt.Some? ==> b.turn.creates == 0)
            && (b.NeedsFence? ==> !idempotent && !b.requeue && db.intent.state.Queued?)
  {
    var current := db.intent.state;
    if io.adapter == db.intent.bound.provider && !IsTerminal(current) {
      if !idempotent && db.intent.fencedAt.Some? {
        RecoverFencedAdvances(idempotent, db, e, io, now);
      } else if current.ProviderPending? {
        assert Complete(Enqueue(db, ReconcileRequested, now), e).outbox ==
               db.outbox[e := db.outbox[e].(status := Processed)] + [NewRow(ReconcileRequested, now)];
      } else if idempotent && io.authorized {
        DispatchIdempotentAdvances(db, e, io, now);
      }
    }
  }

  lemma DispatchIdempotentAdvances(db: Db, e: nat, io: Io, now: Time)
    requires Sound(db) && AtRest(true, db.intent) && e < |db.outbox|
    requires db.intent.state.Queued? || db.intent.state.FailedRetryable?
    ensures var from := if db.intent.state.FailedRetryable? then db.(intent := WithState(db.intent, Queued)) else db;
            CreateTurn(true, db, CreateSection(true, from, e, io, now), e, Offered(io), now)
  {
    if db.intent.state.FailedRetryable? {
      var from := db.(intent := WithState(db.intent, Queued));
      RequeueGrows(db);
      CreateSectionAdvances(true, from, e, io, now);
      var t := CreateSection(true, from, e, io, now);
      if t.Commit? { RequeueCaughtUp(db, t.db); }
    } else {
      CreateSectionAdvances(true, db, e, io, now);
    }
  }

  /** The section after the fence: one create at most, and none for a loser or a moved row. */
  lemma DispatchFencedAdvances(db: Db, e: nat, acquired: bool, io: Io, now: Time)
    requires Sound(db) && AtRest(false, db.intent) && e < |db.outbox|
    ensures var t := DispatchFenced(db, e, acquired, io, now);
            && CreateTurn(false, db, t, e, Offered(io), now)
            && t.creates <= (if acquired && db.intent.state.Queued? && db.intent.fencedAt.Some? then 1 else 0)
  {
    if io.adapter == db.intent.bound.provider && db.intent.fencedAt.Some? {
      if !acquired || !db.intent.state.Queued? { RecoverFencedAdvances(false, db, e, io, now); }
      else { CreateSectionAdvances(false, db, e, io, now); }
    }
  }
}
