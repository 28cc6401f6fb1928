/** Reconciliation: what one poll of the provider's own records does to the rows. */
module Reconciliation {
  import opened Vocabulary
  import opened AuditEvents
  import opened Tables
  import opened Executor

  function RetryPayload(db: Db, reason: Reason): Payload {
    map[IntentId := JText(db.intent.bound.id), ReasonCode := JReason(Some(reason))]
  }

  /** Put the reconcile row back, or dead-letter it, and say which. */
  function RetryLater(db: Db, e: nat, reason: Reason, now: Time): Db
    requires e < |db.outbox|
  {
    Append(Reschedule(db, e, now), if Retried(db, e) then EvRetryScheduled else EvDeadLettered, RetryPayload(db, reason))
  }

  function NarrationPayload(db: Db, reason: Reason, reference: Option<string>): Payload {
    ProviderPayload(db) + RetryPayload(db, reason) +
    (if reference.None? then map[] else map[ProviderPaymentId := JText(reference.value)])
  }

  /** The provider could not be asked: only an ambiguity changes what is known. */
  function LookupUnanswered(db: Db, e: nat, error: ProviderError, now: Time): Turn
    requires e < |db.outbox|
  {
    var noted := if error.AmbiguityError?
                 then Uncertain(db.(intent := RememberAmbiguity(db.intent, now)), ProviderPayload(db), Some(ProviderAmbiguity))
                 else Some(db);
    if noted.None? then Abort(0) else Commit(RetryLater(noted.value, e, ReasonOf(error), now), 0)
  }

  /** A remembered ambiguity is never disproved by a later answer. */
  function StillAmbiguous(db: Db, e: nat, seen: Option<string>, now: Time): Turn
    requires e < |db.outbox|
  {
    var noted := if !db.intent.state.ProviderPending?
                 then Transition(db, ProviderPending, EvUncertain, ProviderPayload(db), Some(ProviderAmbiguity))
                 else Some(db.(intent := RememberAmbiguity(db.intent, now)));
    if noted.None? then Abort(0)
    else Commit(Append(Reschedule(noted.value, e, now), EvReconciled, NarrationPayload(db, ProviderAmbiguity, seen)), 0)
  }

  /** A linked reference the provider cannot find stays linked and stays uncertain. */
  function LinkedNotFound(db: Db, e: nat, now: Time): Turn
    requires e < |db.outbox|
  {
    Commit(RetryLater(Append(db, EvReconciled, NarrationPayload(db, ProviderPaymentNotFound, db.intent.refs.reference)),
                      e, ProviderPaymentNotFound, now), 0)
  }

  /** Behind the fence, an empty search proves nothing. */
  function FencedNotFound(db: Db, e: nat, now: Time): Turn
    requires e < |db.outbox|
  {
    var noted := if !db.intent.state.ProviderPending?
                 then Transition(db, ProviderPending, EvUncertain, ProviderPayload(db), Some(ProviderCreateFenced))
                 else Some(db.(intent := db.intent.(reason := Some(ProviderCreateFenced))));
    if noted.None? then Abort(0)
    else
      Commit(RetryLater(Append(noted.value, EvReconciled, NarrationPayload(db, ProviderCreateFenced, None)),
                        e, ProviderCreateFenced, now), 0)
  }

  function ReopenPayload(db: Db): Payload {
    RetryPayload(db, ProviderPaymentNotFound) + map[State := JState(FailedRetryable)]
  }

  /** An idempotent provider holding nothing: the only way back to a create. */
  function ResolveNone(db: Db, e: nat, now: Time): Turn
    requires e < |db.outbox|
  {
    if !Allowed(db.intent.state, FailedRetryable) then Abort(0)
    else
      var told := Append(db, EvReconciled, NarrationPayload(db, ProviderPaymentNotFound, None));
      var requeued := told.(intent := WithState(told.intent, FailedRetryable).(reason := Some(ProviderPaymentNotFound)));
      Commit(Append(Complete(Enqueue(requeued, CreateRequested, now), e), EvRetryScheduled,
                    ReopenPayload(db)), 0)
  }

  function AnswerFound(db: Db, e: nat, p: Payment, now: Time): Turn
    requires e < |db.outbox|
  {
    if !Matches(db.intent.bound, p, db.intent.refs.reference.None?) then
      Commit(RetryLater(db, e, ProviderResponseMismatch, now), 0)
    else
      var tried := if db.intent.state.Queued? || db.intent.state.FailedRetryable? then RecordAttempt(db) else db;
      match ApplyProviderPayment(tried, p)
      case Raised => Abort(0)
      case Mismatch(partial) => Commit(RetryLater(partial, e, ProviderResponseMismatch, now), 0)
      case Done(applied) =>
        var told := Append(applied, EvReconciled, ReconciledPayload(applied, p, applied.intent.state));
        Commit(if applied.intent.state.ProviderPending? then Reschedule(told, e, now) else Complete(told, e), 0)
  }

  /** One poll, from a locked, non-terminal, authorized intent. */
  function ReconcileSection(idempotent: bool, db: Db, e: nat, io: Io, now: Time): Turn
    requires e < |db.outbox|
  {
    match io.lookup
    case LookupCrashed => Abort(0)
    case LookupFailed(error) => LookupUnanswered(db, e, error, now)
    case Found(p) =>
      if db.intent.ambiguousAt.Some? then StillAmbiguous(db, e, Some(p.reference), now) else AnswerFound(db, e, p, now)
    case NotFound =>
      if db.intent.ambiguousAt.Some? then StillAmbiguous(db, e, None, now)
      else if db.intent.refs.reference.Some? then LinkedNotFound(db, e, now)
      else if db.intent.fencedAt.Some? && !idempotent then FencedNotFound(db, e, now)
      else ResolveNone(db, e, now)
  }

  /** The first section of a reconcile instruction; an unfenced row of a fenced provider is fenced first. */
  function ReconcileBegin(idempotent: bool, db: Db, e: nat, io: Io, now: Time): Begun
    requires e < |db.outbox|
  {
    if io.adapter != db.intent.bound.provider then Ended(Abort(0))
    else if IsTerminal(db.intent.state) then Ended(Commit(Complete(db, e), 0))
    else if !io.authorized then Ended(Abort(0))
    else if !idempotent && db.intent.fencedAt.None? then NeedsFence(false)
    else Ended(ReconcileSection(idempotent, db, e, io, now))
  }

  /** Reconciliation consumes the create permission but never wins it. */
  function SealFence(db: Db, now: Time): Db {
    if db.intent.fencedAt.None? then db.(intent := db.intent.(fencedAt := Some(now))) else db
  }

  function ReconcileFenced(db: Db, e: nat, io: Io, now: Time): Turn
    requires e < |db.outbox|
  {
    if io.adapter != db.intent.bound.provider then Abort(0)
    else if IsTerminal(db.intent.state) then Commit(Complete(db, e), 0)
    else if !io.authorized then Abort(0)
    else ReconcileSection(false, db, e, io, now)
  }
}
