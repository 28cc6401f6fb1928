/** The privileged executor: what one create instruction does to the rows between two commits.
    A section starts when the intent row is locked and ends in a commit or in a rollback. */
module Executor {
  import opened Vocabulary
  import opened AuditEvents
  import opened Tables

  /** Everything a section learns from outside: the adapter it was routed to, the authorization
      re-checks, the provider lookup and the provider create. */
  datatype Io = Io(
    adapter: string, authorized: bool, lookup: Lookup, stillAuthorized: bool, answer: Answer)

  /** How a section ends, and how many create calls reached the provider on the way. */
  datatype Turn = Commit(db: Db, creates: nat) | Abort(creates: nat)

  /** Folding a provider answer: applied, refused as not ours, or an illegal transition. */
  datatype Applied = Done(db: Db) | Mismatch(db: Db) | Raised

  // ---- Shared pieces -----------------------------------------------------------------------

  function ProviderPayload(db: Db): Payload { map[Provider := JText(db.intent.bound.provider)] }

  /** Record uncertainty: a transition if there is one to make, otherwise the same event again. */
  function Uncertain(db: Db, p: Payload, reason: Option<Reason>): Option<Db> {
    if db.intent.state.ProviderPending? then
      Some(Append(db.(intent := db.intent.(reason := reason)), EvUncertain,
                  TransitionPayload(db.intent.bound.id, ProviderPending, p, reason)))
    else Transition(db, ProviderPending, EvUncertain, p, reason)
  }

  function TimeoutPayload(db: Db, observed: Reason): Payload {
    ProviderPayload(db) + map[IntentId := JText(db.intent.bound.id), ReasonCode := JReason(Some(observed))]
  }

  /** An observed or remembered ambiguity overrides the reason being recorded. */
  function MarkUncertain(db: Db, observed: Reason, timedOut: bool, now: Time): Option<Db> {
    var ambiguous := observed.ProviderAmbiguity? || db.intent.ambiguousAt.Some?;
    var reason := if ambiguous then ProviderAmbiguity else observed;
    var noted := if ambiguous then db.(intent := RememberAmbiguity(db.intent, now)) else db;
    var heard := if timedOut
                 then Append(noted, EvProviderTimeout, TimeoutPayload(db, observed))
                 else noted;
    var marked := Uncertain(heard, ProviderPayload(db), Some(reason));
    if marked.None? then None else Some(Enqueue(marked.value, ReconcileRequested, now))
  }

  /** Uncertainty ends a create instruction: the follow-up reconcile row replaces it. */
  function EndUncertain(db: Db, e: nat, observed: Reason, timedOut: bool, now: Time, creates: nat): Turn
    requires e < |db.outbox|
  {
    var marked := MarkUncertain(db, observed, timedOut, now);
    if marked.None? then Abort(creates) else Commit(Complete(marked.value, e), creates)
  }

  /** PAYMENT_ATTEMPTED is written once per episode, from QUEUED only; FAILED_RETRYABLE re-queues first. */
  function RecordAttempt(db: Db): Db {
    var queued := if db.intent.state.FailedRetryable? then db.(intent := WithState(db.intent, Queued)) else db;
    if !queued.intent.state.Queued? then queued
    else
      var moved := Transition(queued, Processing, EvAttempted, ProviderPayload(db), None).value;
      moved.(intent := moved.intent.(attempts := moved.intent.attempts + 1))
  }

  function ConclusionPayload(db: Db, p: Payment): Payload {
    if p.status.StatusSucceeded?
    then ProviderPayload(db) + Evidence(p) +
         map[AmountInr := JInt(db.intent.bound.amount), Currency := JText(db.intent.bound.currency)]
    else ProviderPayload(db) + Evidence(p)
  }

  /** The transition a provider status asks for, with its event and mission move. */
  function Conclude(db: Db, p: Payment): Option<Db> {
    var target := StateOfStatus(p.status);
    if !Allowed(db.intent.state, target) then None
    else if target.Succeeded? then
      Some(ApplyMission(Transition(db, target, EvSucceeded, ConclusionPayload(db, p), None).value, PaymentSucceeded))
    else if target.FailedTerminal? then
      Some(ApplyMission(
        Transition(db, target, EvFailed, ConclusionPayload(db, p), Some(ProviderTerminalFailure)).value, PaymentFailed))
    else
      Transition(db, target, EvUncertain, ConclusionPayload(db, p), None)
  }

  /** Fold a provider answer into the intent: validate, link, then move if there is a move to make. */
  function ApplyProviderPayment(db: Db, p: Payment): Applied {
    if !Matches(db.intent.bound, p, db.intent.refs.reference.None?) then Mismatch(db)
    else
      var link := Link(db.intent.refs, p);
      var linked := db.(intent := db.intent.(refs := link.refs));
      if !link.linked then Mismatch(linked)
      else if db.intent.state == StateOfStatus(p.status) || IsTerminal(db.intent.state) then Done(linked)
      else
        var concluded := Conclude(linked, p);
        if concluded.None? then Raised else Done(concluded.value)
  }

  // ---- Sections of dispatch_create ---------------------------------------------------------

  function ReconciledPayload(db: Db, p: Payment, s: PaymentState): Payload {
    ProviderPayload(db) + Evidence(p) + map[IntentId := JText(db.intent.bound.id), State := JState(s)]
  }

  /** A pending answer keeps the intent alive through a reconcile row; a settled one needs none. */
  function FollowUp(db: Db, e: nat, now: Time): Db
    requires e < |db.outbox|
  {
    Complete(if db.intent.state.ProviderPending? then Enqueue(db, ReconcileRequested, now) else db, e)
  }

  function FinishExisting(db: Db, e: nat, existing: Payment, now: Time): Turn
    requires e < |db.outbox|
  {
    if db.intent.ambiguousAt.Some? then EndUncertain(db, e, ProviderAmbiguity, false, now, 0)
    else if !Matches(db.intent.bound, existing, true) then
      EndUncertain(db, e, ProviderResponseMismatch, false, now, 0)
    else
      match ApplyProviderPayment(RecordAttempt(db), existing)
      case Mismatch(partial) => EndUncertain(partial, e, ProviderResponseMismatch, false, now, 0)
      case Raised => Abort(0)
      case Done(applied) =>
        Commit(FollowUp(Append(applied, EvReconciled, ReconciledPayload(applied, existing, applied.intent.state)), e, now), 0)
  }

  /** The search-only path of a fenced intent: no branch creates. */
  function RecoverFenced(db: Db, e: nat, io: Io, now: Time): Turn
    requires e < |db.outbox|
  {
    if !io.authorized then Abort(0)
    else
      match io.lookup
      case LookupCrashed => Abort(0)
      case LookupFailed(error) => EndUncertain(db, e, ReasonOf(error), error.TimeoutError?, now, 0)
      case Found(existing) => FinishExisting(db, e, existing, now)
      case NotFound => EndUncertain(db, e, ProviderCreateFenced, false, now, 0)
  }

  /** A create that raised one of the three errors dispatch catches. */
  function CreateRefused(idempotent: bool, tried: Db, e: nat, error: ProviderError, now: Time): Turn
    requires e < |tried.outbox|
  {
    if error.TimeoutError? then EndUncertain(tried, e, ProviderTimeout, true, now, 1)
    else if error.TerminalError? then
      var failed := Transition(tried, FailedTerminal, EvFailed, ProviderPayload(tried), Some(ProviderTerminalFailure));
      if failed.None? then Abort(1) else Commit(Complete(ApplyMission(failed.value, PaymentFailed), e), 1)
    else if !idempotent then EndUncertain(tried, e, ReasonOf(error), false, now, 1)
    else
      var failed := Transition(tried, FailedRetryable, EvFailed, ProviderPayload(tried), Some(ProviderTransientFailure));
      if failed.None? then Abort(1)
      else
        Commit(Append(Reschedule(failed.value, e, now),
                      if Retried(failed.value, e) then EvRetryScheduled else EvDeadLettered,
                      map[IntentId := JText(tried.intent.bound.id)]), 1)
  }

  /** A create that answered: adopt it only if it describes this intent, key included. */
  function CreateAnswered(tried: Db, e: nat, payment: Payment, now: Time): Turn
    requires e < |tried.outbox|
  {
    if !Matches(tried.intent.bound, payment, true) then
      EndUncertain(tried, e, ProviderResponseMismatch, false, now, 1)
    else
      match ApplyProviderPayment(tried, payment)
      case Mismatch(partial) => EndUncertain(partial, e, ProviderResponseMismatch, false, now, 1)
      case Raised => Abort(1)
      case Done(applied) => Commit(FollowUp(applied, e, now), 1)
  }

  function AfterCreate(idempotent: bool, db: Db, e: nat, answer: Answer, now: Time): Turn
    requires e < |db.outbox|
  {
    match answer
    case CreateCrashed => Abort(1)
    case CreateFailed(error) =>
      if error.MismatchError? || error.OtherError? then Abort(1)
      else CreateRefused(idempotent, RecordAttempt(db), e, error, now)
    case Answered(payment) => CreateAnswered(RecordAttempt(db), e, payment, now)
  }

  /** Look first, create only on a clean not-found. */
  function CreateSection(idempotent: bool, db: Db, e: nat, io: Io, now: Time): Turn
    requires e < |db.outbox|
  {
    match io.lookup
    case LookupCrashed => Abort(0)
    case LookupFailed(error) => EndUncertain(db, e, ReasonOf(error), error.TimeoutError?, now, 0)
    case Found(existing) => FinishExisting(db, e, existing, now)
    case NotFound => if io.stillAuthorized then AfterCreate(idempotent, db, e, io.answer, now) else Abort(0)
  }

  /** Where the first section of a create instruction leads: an end, or the create fence. */
  datatype Begun = Ended(turn: Turn) | NeedsFence(requeue: bool)

  function DispatchBegin(idempotent: bool, db: Db, e: nat, io: Io, now: Time): Begun
    requires e < |db.outbox|
  {
    var current := db.intent.state;
    if io.adapter != db.intent.bound.provider then Ended(Abort(0))
    else if IsTerminal(current) then Ended(Commit(Complete(db, e), 0))
    else if !idempotent && db.intent.fencedAt.Some? then Ended(RecoverFenced(db, e, io, now))
    else if current.ProviderPending? then Ended(Commit(Complete(Enqueue(db, ReconcileRequested, now), e), 0))
    else if !current.Queued? && !current.FailedRetryable? then Ended(Abort(0))
    else if !io.authorized then Ended(Abort(0))
    else if !idempotent then NeedsFence(current.FailedRetryable?)
    else
      Ended(CreateSection(idempotent,
        if current.FailedRetryable? then db.(intent := WithState(db.intent, Queued)) else db, e, io, now))
  }

  /** The compare-and-set of the create permission: only an unfenced QUEUED row is taken. */
  predicate FenceWon(db: Db) { db.intent.state.Queued? && db.intent.fencedAt.None? }

  function AcquireFence(db: Db, requeue: bool, now: Time): Db {
    var flushed := if requeue then db.(intent := WithState(db.intent, Queued)) else db;
    if FenceWon(flushed) then flushed.(intent := flushed.intent.(fencedAt := Some(now))) else flushed
  }

  /** The section after the fence commit: only the winner, and only on a QUEUED row, may create. */
  function DispatchFenced(db: Db, e: nat, acquired: bool, io: Io, now: Time): Turn
    requires e < |db.outbox|
  {
    if io.adapter != db.intent.bound.provider then Abort(0)
    else if db.intent.fencedAt.None? then Abort(0)
    else if !acquired || !db.intent.state.Queued? then RecoverFenced(db, e, io, now)
    else if !io.authorized then Abort(0)
    else CreateSection(false, db, e, io, now)
  }
}
