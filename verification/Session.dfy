/** The executor as it runs: one session's view of the rows, updated in place statement by
    statement. Each method is proved equal to the section function that specifies it. */
module Session {
  import opened Vocabulary
  import opened AuditEvents
  import opened Tables
  import opened Executor
  import opened Reconciliation
  import opened Webhooks
  import Protocol

  class Rows {
    const bound: Bound
    // the payment_intents row
    var state: PaymentState
    var attempts: nat
    var reason: Option<Reason>
    var refs: Refs
    var fencedAt: Option<Time>
    var ambiguousAt: Option<Time>
    var history: seq<PaymentState>
    // the mission row and the tables that hang off the intent
    var mission: MissionState
    var outbox: seq<OutboxRow>
    var ledger: seq<AuditEvent>
    var deliveries: map<string, Option<PaymentState>>

    function Intent(): Intent
      reads this
    {
      Tables.Intent.Intent(bound, state, attempts, reason, refs, fencedAt, ambiguousAt, history)
    }

    /** The rows as a value. */
    function View(): Db
      reads this
    {
      Db(Intent(), mission, outbox, ledger, deliveries)
    }

    constructor (db: Db)
      ensures View() == db
    {
      bound := db.intent.bound;
      state, attempts, reason := db.intent.state, db.intent.attempts, db.intent.reason;
      refs := db.intent.refs;
      fencedAt, ambiguousAt, history := db.intent.fencedAt, db.intent.ambiguousAt, db.intent.history;
      mission, outbox, ledger, deliveries := db.mission, db.outbox, db.ledger, db.deliveries;
    }

    /** A rolled-back transaction: the session reads what was committed before it. */
    method Rollback(saved: Db)
      requires saved.intent.bound == bound
      modifies this
      ensures View() == saved
    {
      state, attempts, reason := saved.intent.state, saved.intent.attempts, saved.intent.reason;
      refs := saved.intent.refs;
      fencedAt, ambiguousAt, history := saved.intent.fencedAt, saved.intent.ambiguousAt, saved.intent.history;
      mission, outbox, ledger, deliveries := saved.mission, saved.outbox, saved.ledger, saved.deliveries;
    }

    // ---- Statements ------------------------------------------------------------------------

    method AppendEvent(t: EventType, p: Payload)
      modifies this`ledger
      ensures View() == Append(old(View()), t, p)
    {
      ledger := ledger + [AuditEvent(|ledger|, |ledger|, Known(t), ACTOR, JObject(p))];
    }

    method SetState(target: PaymentState)
      modifies this`state, this`history
      ensures View() == old(View()).(intent := WithState(old(View()).intent, target))
    {
      state := target;
      history := history + [target];
    }

    method ApplyMissionState(target: MissionState)
      modifies this`mission
      ensures View() == ApplyMission(old(View()), target)
    {
      if CanMove(mission, target) {
        mission := target;
      }
    }

    /** Raises, with nothing changed, when the table forbids the move. */
    method ApplyPaymentTransition(target: PaymentState, t: EventType, p: Payload, why: Option<Reason>) returns (raised: bool)
      modifies this`state, this`history, this`reason, this`ledger
      ensures raised <==> Transition(old(View()), target, t, p, why).None?
      ensures View() == if raised then old(View()) else Transition(old(View()), target, t, p, why).value
    {
      if !Allowed(state, target) {
        return true;
      }
      SetState(target);
      reason := why;
      AppendEvent(t, TransitionPayload(bound.id, target, p, why));
      raised := false;
    }

    /** Columns already assigned stay assigned when a later one is refused. */
    method LinkProviderPayment(p: Payment) returns (linked: bool)
      modifies this`refs
      ensures linked == Link(old(refs), p).linked && refs == Link(old(refs), p).refs
      ensures View() == old(View()).(intent := old(View()).intent.(refs := Link(old(refs), p).refs))
    {
      if Conflicts(refs.reference, Some(p.reference)) {
        return false;
      }
      refs := refs.(reference := Assigned(refs.reference, Some(p.reference)));
      if Conflicts(refs.order, p.order) {
        return false;
      }
      refs := refs.(order := Assigned(refs.order, p.order));
      if Conflicts(refs.receipt, p.receipt) {
        return false;
      }
      refs := refs.(receipt := Assigned(refs.receipt, p.receipt));
      if p.status.StatusSucceeded? {
        if Conflicts(refs.transaction, p.transaction) {
          return false;
        }
        refs := refs.(transaction := Assigned(refs.transaction, p.transaction));
      }
      if p.providerStatus.Some? {
        refs := refs.(providerStatus := p.providerStatus);
      }
      if p.providerAttempts.Some? {
        refs := refs.(providerAttempts := Some(Max(OrZero(refs.providerAttempts), p.providerAttempts.value)));
      }
      linked := true;
    }

    method RememberProviderAmbiguity(now: Time)
      modifies this`ambiguousAt, this`reason
      ensures View() == old(View()).(intent := RememberAmbiguity(old(View()).intent, now))
    {
      if ambiguousAt.None? {
        ambiguousAt := Some(now);
      }
      reason := Some(ProviderAmbiguity);
    }

    method EnqueueEvent(kind: OutboxKind, now: Time)
      modifies this`outbox
      ensures View() == Enqueue(old(View()), kind, now)
    {
      outbox := outbox + [NewRow(kind, now)];
    }

    method CompleteEvent(e: nat)
      requires e < |outbox|
      modifies this`outbox
      ensures View() == Complete(old(View()), e)
    {
      outbox := outbox[e := outbox[e].(status := Processed)];
    }

    method RescheduleEvent(e: nat, now: Time) returns (retried: bool)
      requires e < |outbox|
      modifies this`outbox
      ensures View() == Reschedule(old(View()), e, now)
      ensures retried == Retried(old(View()), e)
    {
      var row := outbox[e];
      if row.attempts >= row.maxAttempts {
        outbox := outbox[e := row.(status := DeadLettered)];
        return false;
      }
      outbox := outbox[e := row.(status := Pending, availableAt := now + BackoffFor(row.attempts))];
      retried := true;
    }

    // ---- Executor helpers ------------------------------------------------------------------

    method RecordPaymentAttempt()
      modifies this
      ensures View() == RecordAttempt(old(View())) && outbox == old(outbox)
    {
      if state.FailedRetryable? {
        SetState(Queued);
      }
      if !state.Queued? {
        return;
      }
      var raised := ApplyPaymentTransition(Processing, EvAttempted, map[Provider := JText(bound.provider)], None);
      attempts := attempts + 1;
    }

    method MarkUncertain(observed: Reason, timedOut: bool, now: Time) returns (raised: bool)
      modifies this
      ensures raised <==> Executor.MarkUncertain(old(View()), observed, timedOut, now).None?
      ensures !raised ==> View() == Executor.MarkUncertain(old(View()), observed, timedOut, now).value
    {
      var why := observed;
      if observed.ProviderAmbiguity? || ambiguousAt.Some? {
        RememberProviderAmbiguity(now);
        why := ProviderAmbiguity;
      }
      if timedOut {
        AppendEvent(EvProviderTimeout, TimeoutPayload(View(), observed));
      }
      raised := RecordUncertain(ProviderPayload(View()), Some(why));
      if raised {
        return;
      }
      EnqueueEvent(ReconcileRequested, now);
    }

    /** The same PAYMENT_PROVIDER_UNCERTAIN event, with a transition only where there is one to make. */
    method RecordUncertain(p: Payload, why: Option<Reason>) returns (raised: bool)
      modifies this
      ensures raised <==> Uncertain(old(View()), p, why).None?
      ensures View() == if raised then old(View()) else Uncertain(old(View()), p, why).value
    {
      if state.ProviderPending? {
        reason := why;
        AppendEvent(EvUncertain, TransitionPayload(bound.id, ProviderPending, p, why));
        raised := false;
      } else {
        raised := ApplyPaymentTransition(ProviderPending, EvUncertain, p, why);
      }
    }

    /** What folding a provider answer reported. */
    method ApplyProviderPayment(p: Payment) returns (mismatch: bool, raised: bool)
      modifies this
      ensures raised <==> Executor.ApplyProviderPayment(old(View()), p).Raised?
      ensures mismatch <==> Executor.ApplyProviderPayment(old(View()), p).Mismatch?
      ensures !raised ==> View() == Executor.ApplyProviderPayment(old(View()), p).db && outbox == old(outbox)
    {
      var current, target := state, StateOfStatus(p.status);
      if !Matches(bound, p, refs.reference.None?) {
        return true, false;
      }
      var linked := LinkProviderPayment(p);
      if !linked {
        return true, false;
      }
      mismatch := false;
      if current == target || IsTerminal(current) {
        return false, false;
      }
      raised := ConcludePayment(p);
    }

    method ConcludePayment(p: Payment) returns (raised: bool)
      modifies this
      ensures raised <==> Conclude(old(View()), p).None?
      ensures !raised ==> View() == Conclude(old(View()), p).value
    {
      var target := StateOfStatus(p.status);
      if target.Succeeded? {
        raised := ApplyPaymentTransition(target, EvSucceeded, ConclusionPayload(View(), p), None);
        if !raised {
          ApplyMissionState(PaymentSucceeded);
        }
      } else if target.FailedTerminal? {
        raised := ApplyPaymentTransition(target, EvFailed, ConclusionPayload(View(), p), Some(ProviderTerminalFailure));
        if !raised {
          ApplyMissionState(PaymentFailed);
        }
      } else {
        raised := ApplyPaymentTransition(target, EvUncertain, ConclusionPayload(View(), p), None);
      }
    }

    // ---- dispatch_create -------------------------------------------------------------------

    /** A section's end: what is in the session is the commit, or an exception is on its way. */
    ghost predicate EndsAs(t: Turn, committed: bool, creates: nat)
      reads this
    {
      committed == t.Commit? && creates == t.creates && (committed ==> View() == t.db)
    }

    method EndInUncertainty(e: nat, observed: Reason, timedOut: bool, now: Time, ghost creates: nat) returns (committed: bool)
      requires e < |outbox|
      modifies this
      ensures EndsAs(EndUncertain(old(View()), e, observed, timedOut, now, creates), committed, creates)
    {
      var raised := MarkUncertain(observed, timedOut, now);
      if raised {
        return false;
      }
      CompleteEvent(e);
      committed := true;
    }

    method FinishExistingBeforeCreate(e: nat, existing: Payment, now: Time) returns (committed: bool)
      requires e < |outbox|
      modifies this
      ensures EndsAs(FinishExisting(old(View()), e, existing, now), committed, 0)
    {
      if ambiguousAt.Some? {
        committed := EndInUncertainty(e, ProviderAmbiguity, false, now, 0);
        return;
      }
      if !Matches(bound, existing, true) {
        committed := EndInUncertainty(e, ProviderResponseMismatch, false, now, 0);
        return;
      }
      RecordPaymentAttempt();
      var mismatch, raised := ApplyProviderPayment(existing);
      if mismatch {
        committed := EndInUncertainty(e, ProviderResponseMismatch, false, now, 0);
        return;
      }
      if raised {
        return false;
      }
      AppendEvent(EvReconciled, ReconciledPayload(View(), existing, state));
      if state.ProviderPending? {
        EnqueueEvent(ReconcileRequested, now);
      }
      CompleteEvent(e);
      committed := true;
    }

    method RecoverFencedCreate(e: nat, io: Io, now: Time) returns (committed: bool)
      requires e < |outbox|
      modifies this
      ensures EndsAs(RecoverFenced(old(View()), e, io, now), committed, 0)
    {
      if !io.authorized || io.lookup.LookupCrashed? {
        return false;
      }
      if io.lookup.LookupFailed? {
        committed := EndInUncertainty(e, ReasonOf(io.lookup.error), io.lookup.error.TimeoutError?, now, 0);
      } else if io.lookup.Found? {
        committed := FinishExistingBeforeCreate(e, io.lookup.payment, now);
      } else {
        committed := EndInUncertainty(e, ProviderCreateFenced, false, now, 0);
      }
    }

    method HandleCreateError(idempotent: bool, e: nat, error: ProviderError, now: Time) returns (committed: bool)
      requires e < |outbox|
      modifies this
      ensures EndsAs(CreateRefused(idempotent, old(View()), e, error, now), committed, 1)
    {
      if error.TimeoutError? {
        committed := EndInUncertainty(e, ProviderTimeout, true, now, 1);
      } else if error.TerminalError? {
        var raised := ApplyPaymentTransition(FailedTerminal, EvFailed, ProviderPayload(View()), Some(ProviderTerminalFailure));
        if raised {
          return false;
        }
        ApplyMissionState(PaymentFailed);
        CompleteEvent(e);
        committed := true;
      } else if !idempotent {
        committed := EndInUncertainty(e, ReasonOf(error), false, now, 1);
      } else {
        var raised := ApplyPaymentTransition(FailedRetryable, EvFailed, ProviderPayload(View()), Some(ProviderTransientFailure));
        if raised {
          return false;
        }
        var retried := RescheduleEvent(e, now);
        AppendEvent(if retried then EvRetryScheduled else EvDeadLettered, map[IntentId := JText(bound.id)]);
        committed := true;
      }
    }

    method HandleCreateAnswer(e: nat, p: Payment, now: Time) returns (committed: bool)
      requires e < |outbox|
      modifies this
      ensures EndsAs(CreateAnswered(old(View()), e, p, now), committed, 1)
    {
      if !Matches(bound, p, true) {
        committed := EndInUncertainty(e, ProviderResponseMismatch, false, now, 1);
        return;
      }
      var mismatch, raised := ApplyProviderPayment(p);
      if mismatch {
        committed := EndInUncertainty(e, ProviderResponseMismatch, false, now, 1);
        return;
      }
      if raised {
        return false;
      }
      if state.ProviderPending? {
        EnqueueEvent(ReconcileRequested, now);
      }
      CompleteEvent(e);
      committed := true;
    }

    /** Lookup, then the create call itself; `creates` counts the calls that reached the provider. */
    method LookupAndCreate(idempotent: bool, e: nat, io: Io, now: Time) returns (committed: bool, creates: nat)
      requires e < |outbox|
      modifies this
      ensures EndsAs(CreateSection(idempotent, old(View()), e, io, now), committed, creates)
    {
      committed, creates := false, 0;
      if io.lookup.LookupCrashed? {
        return;
      }
      if io.lookup.LookupFailed? {
        committed := EndInUncertainty(e, ReasonOf(io.lookup.error), io.lookup.error.TimeoutError?, now, 0);
        return;
      }
      if io.lookup.Found? {
        committed := FinishExistingBeforeCreate(e, io.lookup.payment, now);
        return;
      }
      if !io.stillAuthorized {
        return;
      }
      creates := 1;
      if io.answer.CreateCrashed? {
        return;
      }
      if io.answer.CreateFailed? && (io.answer.error.MismatchError? || io.answer.error.OtherError?) {
        return;
      }
      RecordPaymentAttempt();
      if io.answer.CreateFailed? {
        committed := HandleCreateError(idempotent, e, io.answer.error, now);
      } else {
        committed := HandleCreateAnswer(e, io.answer.payment, now);
      }
    }

    /** The first section; `fence` says that it stopped in front of the create fence. */
    method DispatchCreate(idempotent: bool, e: nat, io: Io, now: Time)
      returns (committed: bool, creates: nat, fence: bool, requeue: bool)
      requires e < |outbox|
      modifies this
      ensures var b := DispatchBegin(idempotent, old(View()), e, io, now);
              && fence == b.NeedsFence?
              && (fence ==> requeue == b.requeue && View() == old(View()))
              && (!fence ==> EndsAs(b.turn, committed, creates))
    {
      committed, creates, fence, requeue := false, 0, false, false;
      if io.adapter != bound.provider {
        return;
      }
      if IsTerminal(state) {
        CompleteEvent(e);
        committed := true;
        return;
      }
      if !idempotent && fencedAt.Some? {
        committed := RecoverFencedCreate(e, io, now);
        return;
      }
      if state.ProviderPending? {
        EnqueueEvent(ReconcileRequested, now);
        CompleteEvent(e);
        committed := true;
        return;
      }
      if !state.Queued? && !state.FailedRetryable? {
        return;
      }
      if !io.authorized {
        return;
      }
      if !idempotent {
        fence, requeue := true, state.FailedRetryable?;
        return;
      }
      if state.FailedRetryable? {
        SetState(Queued);
      }
      committed, creates := LookupAndCreate(idempotent, e, io, now);
    }

    /** The one-way compare-and-set on the row as it is now. */
    method AcquireProviderCreateFence(requeue: bool, now: Time) returns (acquired: bool)
      modifies this
      ensures View() == AcquireFence(old(View()), requeue, now)
      ensures acquired == FenceWon(if requeue then old(View()).(intent := WithState(old(View()).intent, Queued)) else old(View()))
    {
      if requeue {
        SetState(Queued);
      }
      acquired := state.Queued? && fencedAt.None?;
      if acquired {
        fencedAt := Some(now);
      }
    }

    method DispatchAfterFence(e: nat, acquired: bool, io: Io, now: Time) returns (committed: bool, creates: nat)
      requires e < |outbox|
      modifies this
      ensures EndsAs(DispatchFenced(old(View()), e, acquired, io, now), committed, creates)
    {
      committed, creates := false, 0;
      if io.adapter != bound.provider || fencedAt.None? {
        return;
      }
      if !acquired || !state.Queued? {
        committed := RecoverFencedCreate(e, io, now);
        return;
      }
      if !io.authorized {
        return;
      }
      committed, creates := LookupAndCreate(false, e, io, now);
    }

    // ---- reconcile_intent ------------------------------------------------------------------

    method RetryReconciliation(e: nat, why: Reason, now: Time)
      requires e < |outbox|
      modifies this
      ensures View() == RetryLater(old(View()), e, why, now)
    {
      var p := RetryPayload(View(), why);
      var retried := RescheduleEvent(e, now);
      AppendEvent(if retried then EvRetryScheduled else EvDeadLettered, p);
    }

    method HandleLookupError(e: nat, error: ProviderError, now: Time) returns (committed: bool)
      requires e < |outbox|
      modifies this
      ensures EndsAs(LookupUnanswered(old(View()), e, error, now), committed, 0)
    {
      if error.AmbiguityError? {
        RememberProviderAmbiguity(now);
        var raised := RecordUncertain(ProviderPayload(View()), Some(ProviderAmbiguity));
        if raised {
          return false;
        }
      }
      RetryReconciliation(e, ReasonOf(error), now);
      committed := true;
    }

    method KeepAmbiguity(e: nat, seen: Option<string>, now: Time) returns (committed: bool)
      requires e < |outbox|
      modifies this
      ensures EndsAs(StillAmbiguous(old(View()), e, seen, now), committed, 0)
    {
      var p := NarrationPayload(View(), ProviderAmbiguity, seen);
      if !state.ProviderPending? {
        var raised := ApplyPaymentTransition(ProviderPending, EvUncertain, ProviderPayload(View()), Some(ProviderAmbiguity));
        if raised {
          return false;
        }
      } else {
        RememberProviderAmbiguity(now);
      }
      var retried := RescheduleEvent(e, now);
      AppendEvent(EvReconciled, p);
      committed := true;
    }

    method KeepFenced(e: nat, now: Time) returns (committed: bool)
      requires e < |outbox|
      modifies this
      ensures EndsAs(FencedNotFound(old(View()), e, now), committed, 0)
    {
      var p := NarrationPayload(View(), ProviderCreateFenced, None);
      if !state.ProviderPending? {
        var raised := ApplyPaymentTransition(ProviderPending, EvUncertain, ProviderPayload(View()), Some(ProviderCreateFenced));
        if raised {
          return false;
        }
      } else {
        reason := Some(ProviderCreateFenced);
      }
      AppendEvent(EvReconciled, p);
      RetryReconciliation(e, ProviderCreateFenced, now);
      committed := true;
    }

    method ResolveNoProviderPayment(e: nat, now: Time) returns (committed: bool)
      requires e < |outbox|
      modifies this
      ensures EndsAs(ResolveNone(old(View()), e, now), committed, 0)
    {
      var p := ReopenPayload(View());
      AppendEvent(EvReconciled, NarrationPayload(View(), ProviderPaymentNotFound, None));
      if !Allowed(state, FailedRetryable) {
        return false;
      }
      SetState(FailedRetryable);
      reason := Some(ProviderPaymentNotFound);
      EnqueueEvent(CreateRequested, now);
      CompleteEvent(e);
      AppendEvent(EvRetryScheduled, p);
      committed := true;
    }

    method HandleReconciledAnswer(e: nat, p: Payment, now: Time) returns (committed: bool)
      requires e < |outbox|
      modifies this
      ensures EndsAs(AnswerFound(old(View()), e, p, now), committed, 0)
    {
      hide Executor.ApplyProviderPayment, RecordAttempt;
      if !Matches(bound, p, refs.reference.None?) {
        RetryReconciliation(e, ProviderResponseMismatch, now);
        return true;
      }
      if state.Queued? || state.FailedRetryable? {
        RecordPaymentAttempt();
      }
      var mismatch, raised := ApplyProviderPayment(p);
      if mismatch {
        RetryReconciliation(e, ProviderResponseMismatch, now);
        return true;
      }
      if raised {
        return false;
      }
      AppendEvent(EvReconciled, ReconciledPayload(View(), p, state));
      if state.ProviderPending? {
        var retried := RescheduleEvent(e, now);
      } else {
        CompleteEvent(e);
      }
      committed := true;
    }

    method PollProvider(idempotent: bool, e: nat, io: Io, now: Time) returns (committed: bool)
      requires e < |outbox|
      modifies this
      ensures EndsAs(ReconcileSection(idempotent, old(View()), e, io, now), committed, 0)
    {
      if io.lookup.LookupCrashed? {
        return false;
      }
      if io.lookup.LookupFailed? {
        committed := HandleLookupError(e, io.lookup.error, now);
      } else if ambiguousAt.Some? {
        committed := KeepAmbiguity(e, if io.lookup.Found? then Some(io.lookup.payment.reference) else None, now);
      } else if io.lookup.Found? {
        committed := HandleReconciledAnswer(e, io.lookup.payment, now);
      } else if refs.reference.Some? {
        AppendEvent(EvReconciled, NarrationPayload(View(), ProviderPaymentNotFound, refs.reference));
        RetryReconciliation(e, ProviderPaymentNotFound, now);
        committed := true;
      } else if fencedAt.Some? && !idempotent {
        committed := KeepFenced(e, now);
      } else {
        committed := ResolveNoProviderPayment(e, now);
      }
    }

    method ReconcileIntent(idempotent: bool, e: nat, io: Io, now: Time) returns (committed: bool, fence: bool)
      requires e < |outbox|
      modifies this
      ensures var b := ReconcileBegin(idempotent, old(View()), e, io, now);
              && fence == b.NeedsFence?
              && (fence ==> View() == old(View()))
              && (!fence ==> EndsAs(b.turn, committed, 0))
    {
      committed, fence := false, false;
      if io.adapter != bound.provider {
        return;
      }
      if IsTerminal(state) {
        CompleteEvent(e);
        committed := true;
        return;
      }
      if !io.authorized {
        return;
      }
      if !idempotent && fencedAt.None? {
        fence := true;
        return;
      }
      committed := PollProvider(idempotent, e, io, now);
    }

    method SealCreateFence(now: Time)
      modifies this`fencedAt
      ensures View() == SealFence(old(View()), now)
    {
      if fencedAt.None? {
        fencedAt := Some(now);
      }
    }

    method ReconcileAfterFence(e: nat, io: Io, now: Time) returns (committed: bool)
      requires e < |outbox|
      modifies this
      ensures EndsAs(ReconcileFenced(old(View()), e, io, now), committed, 0)
    {
      if io.adapter != bound.provider {
        return false;
      }
      if IsTerminal(state) {
        CompleteEvent(e);
        return true;
      }
      if !io.authorized {
        return false;
      }
      committed := PollProvider(false, e, io, now);
    }

    // ---- handle_webhook --------------------------------------------------------------------

    method StoreProviderEvidence(h: Hook)
      modifies this`refs
      ensures View() == old(View()).(intent := old(View()).intent.(refs := StoreEvidence(old(refs), h)))
    {
      if h.order.Some? && refs.order.None? {
        refs := refs.(order := h.order);
      }
      if HookTarget(h.kind).Succeeded? && h.transaction.Some? {
        refs := refs.(transaction := h.transaction);
      }
      if h.providerStatus.Some? {
        refs := refs.(providerStatus := h.providerStatus);
      }
      if h.providerAttempts.Some? {
        refs := refs.(providerAttempts := Some(Max(OrZero(refs.providerAttempts), h.providerAttempts.value)));
      }
    }

    method ApplyDelivery(h: Hook) returns (applied: bool)
      modifies this
      ensures ApplyHook(old(View()), h).Accepted? && applied == ApplyHook(old(View()), h).applied
      ensures View() == ApplyHook(old(View()), h).db
    {
      var current, target := state, HookTarget(h.kind);
      applied := false;
      if ambiguousAt.Some? {
        reason := Some(ProviderAmbiguity);
        AppendEvent(EvUncertain, TransitionPayload(bound.id, current, HookPayload(h), Some(ProviderAmbiguity)));
        deliveries := deliveries[h.eventId := None];
      } else if current == target && current.ProviderPending? {
        StoreProviderEvidence(h);
        reason := HookReason(h);
        AppendEvent(EvUncertain, TransitionPayload(bound.id, current, HookPayload(h), HookReason(h)));
        deliveries := deliveries[h.eventId := Some(current)];
      } else if current == target || IsTerminal(current) || !Allowed(current, target) {
        AppendEvent(EvOutOfOrderWebhook, OutOfOrderPayload(View(), h));
        deliveries := deliveries[h.eventId := None];
      } else {
        StoreProviderEvidence(h);
        var raised := ApplyPaymentTransition(target, HookEvent(target), HookPayload(h), HookReason(h));
        if target.Succeeded? {
          ApplyMissionState(PaymentSucceeded);
        } else if target.FailedTerminal? {
          ApplyMissionState(PaymentFailed);
        }
        deliveries := deliveries[h.eventId := Some(target)];
        applied := true;
      }
    }

    /** Resolve, deduplicate, then apply; a rejected delivery leaves no trace. */
    method HandleDelivery(h: Hook) returns (accepted: bool, applied: bool)
      modifies this
      ensures accepted == HandleWebhook(old(View()), h).Accepted?
      ensures accepted ==> View() == HandleWebhook(old(View()), h).db && applied == HandleWebhook(old(View()), h).applied
      ensures !accepted ==> View() == old(View())
    {
      accepted, applied := false, false;
      if !Resolves(Intent(), h) || !EvidenceAgrees(Intent(), h) {
        return;
      }
      accepted := true;
      if h.eventId in deliveries {
        AppendEvent(EvDuplicateWebhook, DuplicatePayload(View(), h));
        return;
      }
      var p := DeliveryPayload(View(), h);
      deliveries := deliveries[h.eventId := None];
      AppendEvent(EvWebhookVerified, p);
      applied := ApplyDelivery(h);
    }

    // ---- The worker ------------------------------------------------------------------------

    /** Run the first section of a claimed instruction; an exception rolls its work back, and the
        recovery transaction puts the row back in the queue. */
    method ProcessClaimedEvent(idempotent: bool, e: nat, io: Io, now: Time)
      returns (creates: nat, fence: bool, requeue: bool, raised: bool)
      requires e < |outbox|
      modifies this
      ensures var b := Protocol.BeginHandler(idempotent, old(View()), e, io, now);
              && fence == b.NeedsFence?
              && (raised <==> !fence && b.turn.Abort?)
              && (fence ==> requeue == b.requeue && View() == old(View()))
              && (!fence ==> creates == b.turn.creates)
              && (!fence ==> View() == if b.turn.Commit? then b.turn.db else Reschedule(old(View()), e, now))
    {
      var saved := View();
      var committed := false;
      creates, fence, requeue, raised := 0, false, false, false;
      if outbox[e].kind.CreateRequested? {
        committed, creates, fence, requeue := DispatchCreate(idempotent, e, io, now);
      } else {
        committed, fence := ReconcileIntent(idempotent, e, io, now);
      }
      if !fence && !committed {
        raised := true;
        Rollback(saved);
        var retried := RescheduleEvent(e, now);
      }
    }

    /** The section behind the fence, with the same recovery. */
    method ProcessFencedEvent(e: nat, acquired: bool, io: Io, now: Time) returns (creates: nat, raised: bool)
      requires e < |outbox|
      modifies this
      ensures var t := Protocol.ResumeHandler(old(View()), e, acquired, io, now);
              && creates == t.creates && raised == t.Abort?
              && View() == if t.Commit? then t.db else Reschedule(old(View()), e, now)
    {
      var saved := View();
      var committed := false;
      creates, raised := 0, false;
      if outbox[e].kind.CreateRequested? {
        committed, creates := DispatchAfterFence(e, acquired, io, now);
      } else {
        committed := ReconcileAfterFence(e, io, now);
      }
      if !committed {
        raised := true;
        Rollback(saved);
        var retried := RescheduleEvent(e, now);
      }
    }
  }
}
