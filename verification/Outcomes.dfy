/** What each provider answer does to a payment, case by case: the state, reason, reference, mission,
    attempts and outbox row a section commits, in the vocabulary of the provider. */
module Outcomes {
  import opened Vocabulary
  import opened AuditEvents
  import opened Tables
  import opened Executor
  import opened ExecutorProofs
  import opened Reconciliation
  import opened Webhooks
  import opened WebhookProofs

  /** The columns an answer may change. */
  datatype Row = Row(
    state: PaymentState, reason: Option<Reason>, reference: Option<string>, mission: MissionState,
    attempts: nat, ambiguous: bool)

  function RowOf(db: Db): Row {
    Row(db.intent.state, db.intent.reason, db.intent.refs.reference, db.mission, db.intent.attempts, db.intent.ambiguousAt.Some?)
  }

  /** The payment is this intent's: provider, amount and currency, a key that is absent or equal and
      present while nothing is linked, and the linked reference if there is one. */
  predicate Ours(i: Intent, p: Payment) {
    && p.provider == i.bound.provider && p.amount == i.bound.amount && p.currency == i.bound.currency
    && (p.key.Some? ==> p.key.value == i.bound.key)
    && (i.refs.reference.None? ==> p.key.Some?)
    && (i.refs.reference.Some? ==> p.reference == i.refs.reference.value)
  }

  /** Nor does it contradict another identity already held. */
  predicate Consistent(r: Refs, p: Payment) {
    && (r.order.Some? && p.order.Some? ==> p.order == r.order)
    && (r.receipt.Some? && p.receipt.Some? ==> p.receipt == r.receipt)
    && (p.status == StatusSucceeded && r.transaction.Some? && p.transaction.Some? ==> p.transaction == r.transaction)
  }

  predicate StillOpen(p: Payment) { p.status == StatusCreated || p.status == StatusPending }

  function Moved(m: MissionState, target: MissionState): MissionState { if m == PaymentPending then target else m }

  /** The row after an answer that is ours was folded into an unsettled row. */
  function AfterAnswer(r: Row, p: Payment): Row {
    match p.status
    case StatusCreated => r.(state := ProviderPending, reason := if r.state.ProviderPending? then r.reason else None, reference := Some(p.reference))
    case StatusPending => r.(state := ProviderPending, reason := if r.state.ProviderPending? then r.reason else None, reference := Some(p.reference))
    case StatusSucceeded => r.(state := PaymentState.Succeeded, reason := None, reference := Some(p.reference), mission := Moved(r.mission, PaymentSucceeded))
    case StatusFailed => r.(state := FailedTerminal, reason := Some(ProviderTerminalFailure), reference := Some(p.reference), mission := Moved(r.mission, PaymentFailed))
  }

  // ---- Vocabulary --------------------------------------------------------------------------

  /** The reason code of each error class. */
  lemma ErrorReasons()
    ensures ReasonOf(TimeoutError) == ProviderTimeout && ReasonOf(TransientError) == ProviderTransientFailure
    ensures ReasonOf(AmbiguityError) == ProviderAmbiguity && ReasonOf(TerminalError) == ProviderTerminalFailure
    ensures ReasonOf(MismatchError) == ProviderResponseMismatch && ReasonOf(OtherError) == ProviderErrorCode
  {
  }

  // ---- Folding an answer -------------------------------------------------------------------

  /** Linking succeeds exactly when nothing held is contradicted; a different reference touches nothing. */
  lemma LinkTable(r: Refs, p: Payment)
    ensures var l := Link(r, p);
            && (l.linked <==> (r.reference.Some? ==> p.reference == r.reference.value) && Consistent(r, p))
            && (l.linked ==> l.refs.reference == Some(p.reference))
            && (r.reference.Some? && p.reference != r.reference.value ==> l.refs == r)
  {
  }

  lemma MatchesTable(i: Intent, p: Payment)
    ensures Matches(i.bound, p, i.refs.reference.None?) && (i.refs.reference.Some? ==> p.reference == i.refs.reference.value) <==> Ours(i, p)
  {
  }

  /** The move a status asks of an unsettled row. */
  lemma ConcludeTable(db: Db, p: Payment)
    requires db.intent.state.Processing? || (db.intent.state.ProviderPending? && !StillOpen(p))
    requires db.intent.refs.reference == Some(p.reference)
    ensures Conclude(db, p).Some? && RowOf(Conclude(db, p).value) == AfterAnswer(RowOf(db), p)
    ensures var d := Conclude(db, p).value;
            d.outbox == db.outbox && d.intent.bound == db.intent.bound && d.intent.ambiguousAt == db.intent.ambiguousAt
  {
  }

  /** Ours and consistent: folded in by its status. Anything else: the row stays as it was, and what
      is not ours leaves every provider column too. */
  lemma FoldTable(db: Db, p: Payment)
    requires db.intent.state.Processing? || db.intent.state.ProviderPending?
    ensures var r := ApplyProviderPayment(db, p);
            && (Ours(db.intent, p) && Consistent(db.intent.refs, p) ==> r.Done? && RowOf(r.db) == AfterAnswer(RowOf(db), p))
            && (!(Ours(db.intent, p) && Consistent(db.intent.refs, p)) ==> r.Mismatch? && RowOf(r.db).(reference := None) == RowOf(db).(reference := None))
            && (!Ours(db.intent, p) ==> r.db == db)
            && (!r.Raised? ==> r.db.outbox == db.outbox && r.db.intent.bound == db.intent.bound && r.db.intent.ambiguousAt == db.intent.ambiguousAt)
  {
    hide Link, Matches, Ours, Consistent, Conclude;
    LinkTable(db.intent.refs, p);
    MatchesTable(db.intent, p);
    if Ours(db.intent, p) { OursRefers(db.intent, p); }
    var linked := db.(intent := db.intent.(refs := Link(db.intent.refs, p).refs));
    if Link(db.intent.refs, p).linked && (db.intent.state.Processing? || !StillOpen(p)) {
      ConcludeTable(linked, p);
    }
  }

  lemma OursRefers(i: Intent, p: Payment)
    requires Ours(i, p)
    ensures i.refs.reference.Some? ==> p.reference == i.refs.reference.value
  {
  }

  /** What an accepted answer records besides its reference. */
  lemma FoldRecords(db: Db, p: Payment)
    requires (db.intent.state.Processing? || db.intent.state.ProviderPending?) && Ours(db.intent, p) && Consistent(db.intent.refs, p)
    ensures var r := ApplyProviderPayment(db, p);
            && r.Done?
            && r.db.intent.refs.order == (if db.intent.refs.order.Some? then db.intent.refs.order else p.order)
            && r.db.intent.refs.receipt == (if db.intent.refs.receipt.Some? then db.intent.refs.receipt else p.receipt)
            && r.db.intent.refs.transaction ==
                 (if p.status == StatusSucceeded && db.intent.refs.transaction.None? then p.transaction else db.intent.refs.transaction)
            && r.db.intent.refs.providerStatus == (if p.providerStatus.Some? then p.providerStatus else db.intent.refs.providerStatus)
  {
    hide Conclude, Matches, Ours;
    MatchesTable(db.intent, p);
    if Ours(db.intent, p) { OursRefers(db.intent, p); }
    LinkTable(db.intent.refs, p);
    var linked := db.(intent := db.intent.(refs := Link(db.intent.refs, p).refs));
    if db.intent.state.Processing? || !StillOpen(p) {
      ConcludeTable(linked, p);
      ConcludeKeepsRefs(linked, p);
    }
  }

  lemma ConcludeKeepsRefs(db: Db, p: Payment)
    requires Conclude(db, p).Some?
    ensures Conclude(db, p).value.intent.refs == db.intent.refs
  {
    hide TransitionPayload, ConclusionPayload;
  }

  // ---- Uncertainty -------------------------------------------------------------------------

  lemma MarkTable(db: Db, observed: Reason, timedOut: bool, now: Time)
    requires db.intent.state.Queued? || db.intent.state.Processing? || db.intent.state.ProviderPending? || db.intent.state.FailedRetryable?
    ensures var d := MarkUncertain(db, observed, timedOut, now);
            var ambiguous := observed == ProviderAmbiguity || db.intent.ambiguousAt.Some?;
            && d.Some?
            && RowOf(d.value) == RowOf(db).(state := ProviderPending, reason := Some(if ambiguous then ProviderAmbiguity else observed), ambiguous := ambiguous)
            && d.value.outbox == db.outbox + [NewRow(ReconcileRequested, now)]
            && d.value.intent.refs == db.intent.refs && d.value.intent.bound == db.intent.bound
  {
    hide TransitionPayload, ProviderPayload, TimeoutPayload;
  }

  /** Uncertainty is narrated once, after the timeout that caused it if one did. */
  lemma MarkEvents(db: Db, observed: Reason, timedOut: bool, now: Time)
    requires MarkUncertain(db, observed, timedOut, now).Some?
    ensures var d := MarkUncertain(db, observed, timedOut, now).value;
            && |d.ledger| == |db.ledger| + (if timedOut then 2 else 1)
            && (timedOut ==> d.ledger[|db.ledger|].tag == Known(EvProviderTimeout))
            && d.ledger[|d.ledger| - 1].tag == Known(EvUncertain)
  {
    hide TransitionPayload, ProviderPayload, TimeoutPayload;
  }

  /** An uncertain ending: pending, with the reason observed unless an ambiguity outweighs it, and a
      reconcile row in place of the create row. */
  lemma UncertainTable(db: Db, e: nat, observed: Reason, timedOut: bool, now: Time, creates: nat)
    requires e < |db.outbox|
    requires db.intent.state.Queued? || db.intent.state.Processing? || db.intent.state.ProviderPending? || db.intent.state.FailedRetryable?
    ensures var t := EndUncertain(db, e, observed, timedOut, now, creates);
            var ambiguous := observed == ProviderAmbiguity || db.intent.ambiguousAt.Some?;
            && t.Commit? && t.creates == creates
            && RowOf(t.db) == RowOf(db).(state := ProviderPending, reason := Some(if ambiguous then ProviderAmbiguity else observed), ambiguous := ambiguous)
            && Delegated(db, t.db, e, ReconcileRequested, now)
            && t.db.intent.refs == db.intent.refs && t.db.intent.bound == db.intent.bound
  {
    hide MarkUncertain;
    MarkTable(db, observed, timedOut, now);
    var d := MarkUncertain(db, observed, timedOut, now).value;
    assert Complete(d, e).outbox == db.outbox[e := db.outbox[e].(status := Processed)] + [NewRow(ReconcileRequested, now)];
  }

  // ---- Attempts ----------------------------------------------------------------------------

  lemma AttemptTable(db: Db)
    ensures var d := RecordAttempt(db);
            && RowOf(d) == (if db.intent.state.Queued? || db.intent.state.FailedRetryable?
                            then RowOf(db).(state := Processing, reason := None, attempts := db.intent.attempts + 1) else RowOf(db))
            && d.intent.refs == db.intent.refs && d.intent.bound == db.intent.bound && d.outbox == db.outbox
            && d.intent.ambiguousAt == db.intent.ambiguousAt
  {
  }

  // ---- Create instructions -----------------------------------------------------------------

  /** The row a create section starts from: queued, nothing linked, nothing ambiguous. */
  ghost predicate Unanswered(db: Db) {
    db.intent.state.Queued? && db.intent.refs.reference.None? && UnlinkedIsBlank(db.intent.refs) && db.intent.ambiguousAt.None?
  }

  predicate Attempted(tried: Db) {
    && tried.intent.state.Processing? && tried.intent.refs.reference.None? && UnlinkedIsBlank(tried.intent.refs)
    && tried.intent.ambiguousAt.None?
  }

  predicate Ends(a: Db, b: Db, e: nat, now: Time)
    requires e < |a.outbox|
  {
    if b.intent.state.ProviderPending? then Delegated(a, b, e, ReconcileRequested, now) else Closed(a, b, e)
  }

  /** The create answered. Ours: folded in by its status. Not ours: uncertain, nothing linked. */
  lemma CreateAnsweredTable(tried: Db, e: nat, p: Payment, now: Time)
    requires Attempted(tried) && e < |tried.outbox|
    ensures var t := CreateAnswered(tried, e, p, now);
            && t.Commit? && t.creates == 1 && Ends(tried, t.db, e, now)
            && RowOf(t.db) == (if Ours(tried.intent, p) then AfterAnswer(RowOf(tried), p)
                               else RowOf(tried).(state := ProviderPending, reason := Some(ProviderResponseMismatch)))
  {
    hide ApplyProviderPayment, EndUncertain, RowOf, AfterAnswer;
    FoldTable(tried, p);
    RowReads(tried);
    if !Ours(tried.intent, p) {
      UncertainTable(tried, e, ProviderResponseMismatch, false, now, 1);
      MatchesIffOurs(tried, p);
      RowReads(CreateAnswered(tried, e, p, now).db);
    } else {
      MatchesIffOurs(tried, p);
      var applied := ApplyProviderPayment(tried, p).db;
      FollowUpTable(tried, applied, e, now);
      AfterAnswerReads(RowOf(tried), p);
      RowReads(applied);
    }
  }

  lemma RowReads(db: Db)
    ensures RowOf(db).state == db.intent.state && RowOf(db).mission == db.mission && RowOf(db).reference == db.intent.refs.reference
    ensures RowOf(db).ambiguous == db.intent.ambiguousAt.Some? && RowOf(db).reason == db.intent.reason && RowOf(db).attempts == db.intent.attempts
  {
  }

  lemma AfterAnswerReads(r: Row, p: Payment)
    ensures AfterAnswer(r, p).state.ProviderPending? || AfterAnswer(r, p).state.Succeeded? || AfterAnswer(r, p).state.FailedTerminal?
    ensures AfterAnswer(r, p).attempts == r.attempts && AfterAnswer(r, p).ambiguous == r.ambiguous
  {
  }

  lemma MatchesIffOurs(db: Db, p: Payment)
    requires db.intent.refs.reference.None?
    ensures Matches(db.intent.bound, p, true) <==> Ours(db.intent, p)
  {
  }

  lemma FollowUpTable(a: Db, mid: Db, e: nat, now: Time)
    requires e < |a.outbox| && mid.outbox == a.outbox
    ensures var d := FollowUp(mid, e, now);
            RowOf(d) == RowOf(mid) && Ends(a, d, e, now)
  {
    if mid.intent.state.ProviderPending? {
      assert FollowUp(mid, e, now).outbox == a.outbox[e := a.outbox[e].(status := Processed)] + [NewRow(ReconcileRequested, now)];
    }
  }

  /** The create raised an error dispatch catches. */
  lemma CreateRefusedTable(idempotent: bool, tried: Db, e: nat, error: ProviderError, now: Time)
    requires Attempted(tried) && e < |tried.outbox|
    requires error.TimeoutError? || error.TerminalError? || error.TransientError? || error.AmbiguityError?
    ensures var t := CreateRefused(idempotent, tried, e, error, now);
            var r := RowOf(tried);
            && t.Commit? && t.creates == 1
            && (error.TimeoutError? ==>
                  RowOf(t.db) == r.(state := ProviderPending, reason := Some(ProviderTimeout)) && Delegated(tried, t.db, e, ReconcileRequested, now))
            && (error.TerminalError? ==>
                  && RowOf(t.db) == r.(state := FailedTerminal, reason := Some(ProviderTerminalFailure), mission := Moved(r.mission, PaymentFailed))
                  && Closed(tried, t.db, e))
            && (!idempotent && error.TransientError? ==>
                  RowOf(t.db) == r.(state := ProviderPending, reason := Some(ProviderTransientFailure)) && Delegated(tried, t.db, e, ReconcileRequested, now))
            && (!idempotent && error.AmbiguityError? ==>
                  RowOf(t.db) == r.(state := ProviderPending, reason := Some(ProviderAmbiguity), ambiguous := true) && Delegated(tried, t.db, e, ReconcileRequested, now))
            && (idempotent && (error.TransientError? || error.AmbiguityError?) ==>
                  RowOf(t.db) == r.(state := FailedRetryable, reason := Some(ProviderTransientFailure)) && Deferred(tried, t.db, e, now))
  {
    hide EndUncertain;
    if error.TimeoutError? {
      UncertainTable(tried, e, ProviderTimeout, true, now, 1);
    } else if !error.TerminalError? && !idempotent {
      UncertainTable(tried, e, ReasonOf(error), false, now, 1);
    }
  }

  /** A payment found before the create, or while searching behind the fence. It must name our key;
      ours and consistent, it is folded in by its status, and otherwise the payment is uncertain. */
  lemma FinishTable(db: Db, e: nat, p: Payment, now: Time)
    requires e < |db.outbox| && UnlinkedIsBlank(db.intent.refs) && db.intent.ambiguousAt.None?
    requires db.intent.state.ProviderPending? || (db.intent.state.Queued? && db.intent.refs.reference.None?)
    ensures var t := FinishExisting(db, e, p, now);
            var r := RowOf(db);
            && t.Commit? && t.creates == 0 && Ends(db, t.db, e, now)
            && (if Ours(db.intent, p) && p.key.Some? && Consistent(db.intent.refs, p) then RowOf(t.db) == AfterAnswer(RowOf(RecordAttempt(db)), p)
                else RowOf(t.db).(reference := None) == r.(state := ProviderPending, reason := Some(ProviderResponseMismatch), reference := None))
            && (!Ours(db.intent, p) || p.key.None? ==> t.db.intent.refs == db.intent.refs)
  {
    hide ApplyProviderPayment, EndUncertain, RecordAttempt, RowOf, AfterAnswer, Ours, Consistent, Matches;
    AttemptTable(db);
    KeyedMatches(db.intent, p);
    RowReads(db);
    var tried := RecordAttempt(db);
    RowReads(tried);
    SameOurs(db, tried, p);
    SameConsistent(db, tried, p);
    if !Matches(db.intent.bound, p, true) {
      UncertainTable(db, e, ProviderResponseMismatch, false, now, 0);
      RowReads(FinishExisting(db, e, p, now).db);
    } else {
      FoldTable(tried, p);
      var folded := ApplyProviderPayment(tried, p);
      RowReads(folded.db);
      if folded.Mismatch? {
        UncertainTable(folded.db, e, ProviderResponseMismatch, false, now, 0);
        RowReads(FinishExisting(db, e, p, now).db);
      } else {
        var told := Append(folded.db, EvReconciled, ReconciledPayload(folded.db, p, folded.db.intent.state));
        FollowUpTable(db, told, e, now);
        LedgerOnly(folded.db, told);
      }
    }
  }

  /** Nothing is linked yet, so a payment is either ours or leaves no trace but the uncertainty. */
  lemma FirstPayment(db: Db, e: nat, p: Payment, now: Time)
    requires e < |db.outbox| && UnlinkedIsBlank(db.intent.refs) && db.intent.ambiguousAt.None? && db.intent.refs.reference.None?
    requires db.intent.state.ProviderPending? || db.intent.state.Queued?
    ensures var t := FinishExisting(db, e, p, now);
            t.Commit? && RowOf(t.db) == (if Ours(db.intent, p) then AfterAnswer(RowOf(RecordAttempt(db)), p)
                                         else RowOf(db).(state := ProviderPending, reason := Some(ProviderResponseMismatch)))
  {
    hide FinishExisting, RecordAttempt, AfterAnswer;
    FinishTable(db, e, p, now);
    SameConsistent(db, db, p);
  }

  lemma KeyedMatches(i: Intent, p: Payment)
    ensures Matches(i.bound, p, true) && (i.refs.reference.Some? ==> p.reference == i.refs.reference.value) <==> Ours(i, p) && p.key.Some?
    ensures i.refs.reference.None? ==> (Matches(i.bound, p, true) <==> Ours(i, p))
    ensures Matches(i.bound, p, true) ==> p.key.Some?
  {
  }

  lemma LedgerOnly(a: Db, b: Db)
    requires b == a.(ledger := b.ledger)
    ensures RowOf(a) == RowOf(b)
  {
  }

  lemma SameOurs(a: Db, b: Db, p: Payment)
    requires a.intent.refs == b.intent.refs && a.intent.bound == b.intent.bound
    ensures Ours(a.intent, p) <==> Ours(b.intent, p)
    ensures a.intent.refs.reference.None? && UnlinkedIsBlank(a.intent.refs) ==> Consistent(b.intent.refs, p)
  {
  }

  /** What a create instruction commits from a row nothing is known about, for every answer. */
  lemma CreateTable(idempotent: bool, db: Db, e: nat, io: Io, now: Time)
    requires Unanswered(db) && e < |db.outbox|
    ensures var t := CreateSection(idempotent, db, e, io, now);
            var r := RowOf(db);
            var tried := r.(state := Processing, reason := None, attempts := r.attempts + 1);
            match io.lookup
            case LookupCrashed => t == Abort(0)
            case LookupFailed(error) =>
              && t.Commit? && t.creates == 0 && Delegated(db, t.db, e, ReconcileRequested, now)
              && RowOf(t.db) == r.(state := ProviderPending, reason := Some(ReasonOf(error)), ambiguous := error.AmbiguityError?)
            case Found(p) =>
              && t.Commit? && t.creates == 0 && Ends(db, t.db, e, now)
              && RowOf(t.db) == (if Ours(db.intent, p) then AfterAnswer(tried, p)
                                 else r.(state := ProviderPending, reason := Some(ProviderResponseMismatch)))
            case NotFound =>
              if !io.stillAuthorized then t == Abort(0)
              else match io.answer
              case CreateCrashed => t == Abort(1)
              case Answered(p) =>
                && t.Commit? && t.creates == 1 && Ends(db, t.db, e, now)
                && RowOf(t.db) == (if Ours(db.intent, p) then AfterAnswer(tried, p)
                                   else tried.(state := ProviderPending, reason := Some(ProviderResponseMismatch)))
              case CreateFailed(error) =>
                && t.creates == 1
                && (error.MismatchError? || error.OtherError? <==> t.Abort?)
                && (error.TimeoutError? ==>
                      RowOf(t.db) == tried.(state := ProviderPending, reason := Some(ProviderTimeout)) && Delegated(db, t.db, e, ReconcileRequested, now))
                && (error.TerminalError? ==>
                      && RowOf(t.db) == tried.(state := FailedTerminal, reason := Some(ProviderTerminalFailure), mission := Moved(r.mission, PaymentFailed))
                      && Closed(db, t.db, e))
                && (!idempotent && error.TransientError? ==>
                      RowOf(t.db) == tried.(state := ProviderPending, reason := Some(ProviderTransientFailure)) && Delegated(db, t.db, e, ReconcileRequested, now))
                && (!idempotent && error.AmbiguityError? ==>
                      RowOf(t.db) == tried.(state := ProviderPending, reason := Some(ProviderAmbiguity), ambiguous := true) && Delegated(db, t.db, e, ReconcileRequested, now))
                && (idempotent && (error.TransientError? || error.AmbiguityError?) ==>
                      RowOf(t.db) == tried.(state := FailedRetryable, reason := Some(ProviderTransientFailure)) && Deferred(db, t.db, e, now))
  {
    hide EndUncertain, FinishExisting, CreateAnswered, CreateRefused, RecordAttempt, Ours, AfterAnswer;
    AttemptTable(db);
    var tried := RecordAttempt(db);
    match io.lookup
    case LookupCrashed =>
    case LookupFailed(error) =>
      ErrorReasons();
      UncertainTable(db, e, ReasonOf(error), error.TimeoutError?, now, 0);
    case Found(p) =>
      FinishTable(db, e, p, now);
      FirstPayment(db, e, p, now);
    case NotFound =>
      match io.answer
      case CreateCrashed =>
      case Answered(p) =>
        SameOurs(db, tried, p);
        CreateAnsweredTable(tried, e, p, now);
      case CreateFailed(error) =>
        if !error.MismatchError? && !error.OtherError? { CreateRefusedTable(idempotent, tried, e, error, now); }
  }

  /** The search behind a fence nobody may pass again: the same endings, and never a create. */
  lemma RecoverTable(db: Db, e: nat, io: Io, now: Time)
    requires e < |db.outbox| && db.intent.ambiguousAt.None? && (db.intent.state.Queued? || db.intent.state.ProviderPending?)
    ensures var t := RecoverFenced(db, e, io, now);
            var r := RowOf(db);
            if !io.authorized then t == Abort(0)
            else match io.lookup
            case LookupCrashed => t == Abort(0)
            case LookupFailed(error) =>
              && t.Commit? && t.creates == 0 && Delegated(db, t.db, e, ReconcileRequested, now)
              && RowOf(t.db) == r.(state := ProviderPending, reason := Some(ReasonOf(error)), ambiguous := error.AmbiguityError?)
            case Found(p) => t == FinishExisting(db, e, p, now)
            case NotFound =>
              && t.Commit? && t.creates == 0 && Delegated(db, t.db, e, ReconcileRequested, now)
              && RowOf(t.db) == r.(state := ProviderPending, reason := Some(ProviderCreateFenced))
  {
    hide EndUncertain, FinishExisting;
    match io.lookup
    case LookupCrashed =>
    case LookupFailed(error) =>
      ErrorReasons();
      UncertainTable(db, e, ReasonOf(error), error.TimeoutError?, now, 0);
    case Found(p) =>
    case NotFound => UncertainTable(db, e, ProviderCreateFenced, false, now, 0);
  }

  /** Which of these a create instruction runs. A wrong adapter and a failed authorization check abort;
      a settled payment closes the row; a pending one hands over to a reconcile row; a fenced provider
      stops at the fence unless it is already up. */
  lemma DispatchTable(idempotent: bool, db: Db, e: nat, io: Io, now: Time)
    requires e < |db.outbox|
    ensures var b := DispatchBegin(idempotent, db, e, io, now);
            var s := db.intent.state;
            if io.adapter != db.intent.bound.provider then b == Ended(Abort(0))
            else if s.Succeeded? || s.FailedTerminal? || s.Cancelled? then
              b.Ended? && b.turn.Commit? && b.turn.creates == 0 && b.turn.db == db.(outbox := b.turn.db.outbox) && Closed(db, b.turn.db, e)
            else if !idempotent && db.intent.fencedAt.Some? then b == Ended(RecoverFenced(db, e, io, now))
            else if s.ProviderPending? then
              && b.Ended? && b.turn.Commit? && b.turn.creates == 0 && b.turn.db == db.(outbox := b.turn.db.outbox)
              && Delegated(db, b.turn.db, e, ReconcileRequested, now)
            else if s.Created? || s.Processing? || !io.authorized then b == Ended(Abort(0))
            else if !idempotent then b.NeedsFence?
            else b == Ended(CreateSection(true, if s.Queued? then db else db.(intent := WithState(db.intent, Queued)), e, io, now))
  {
    hide RecoverFenced, CreateSection;
    if db.intent.state.ProviderPending? {
      assert Complete(Enqueue(db, ReconcileRequested, now), e).outbox ==
             db.outbox[e := db.outbox[e].(status := Processed)] + [NewRow(ReconcileRequested, now)];
    }
  }

  /** Behind the fence commit only the winner, on a row still queued, goes on to create. */
  lemma FencedTable(db: Db, e: nat, acquired: bool, io: Io, now: Time)
    requires e < |db.outbox|
    ensures var t := DispatchFenced(db, e, acquired, io, now);
            if io.adapter != db.intent.bound.provider || db.intent.fencedAt.None? then t == Abort(0)
            else if acquired && db.intent.state.Queued? then t == (if io.authorized then CreateSection(false, db, e, io, now) else Abort(0))
            else t == RecoverFenced(db, e, io, now)
  {
    hide RecoverFenced, CreateSection;
  }

  // ---- Reconciliation ----------------------------------------------------------------------

  predicate Unsettled(s: PaymentState) { s.Queued? || s.ProviderPending? || s.FailedRetryable? }

  lemma RetryLaterTable(db: Db, e: nat, reason: Reason, now: Time)
    requires e < |db.outbox|
    ensures var d := RetryLater(db, e, reason, now);
            d.intent == db.intent && d.mission == db.mission && RowOf(d) == RowOf(db) && Deferred(db, d, e, now)
  {
  }

  /** A found payment: ours is folded in by its status, and the row polls on while it is open; anything
      else changes no state, reason, mission or attempt, and what is not ours no column at all. */
  lemma FoundTable(db: Db, e: nat, p: Payment, now: Time)
    requires e < |db.outbox| && Unsettled(db.intent.state) && UnlinkedIsBlank(db.intent.refs)
    requires db.intent.state.ProviderPending? || db.intent.refs.reference.None?
    ensures var t := AnswerFound(db, e, p, now);
            && t.Commit? && t.creates == 0
            && (if Ours(db.intent, p) && Consistent(db.intent.refs, p)
                then && RowOf(t.db) == AfterAnswer(RowOf(RecordAttempt(db)), p)
                     && (if StillOpen(p) then Deferred(db, t.db, e, now) else Closed(db, t.db, e))
                else && RowOf(t.db).(reference := None) == RowOf(db).(reference := None) && Deferred(db, t.db, e, now)
                     && (!Ours(db.intent, p) ==> t.db.intent == db.intent))
  {
    hide ApplyProviderPayment, RecordAttempt, RowOf, Ours, Consistent, AfterAnswer, RetryLater, ReconciledPayload;
    AttemptTable(db);
    MatchesTable(db.intent, p);
    RowReads(db);
    var tried := RecordAttempt(db);
    RowReads(tried);
    SameOurs(db, tried, p);
    if !Matches(db.intent.bound, p, db.intent.refs.reference.None?) {
      RetryLaterTable(db, e, ProviderResponseMismatch, now);
    } else {
      FoldTable(tried, p);
      AttemptUnlessPending(db);
      SameConsistent(db, tried, p);
      var r := ApplyProviderPayment(tried, p);
      if r.Mismatch? {
        RetryLaterTable(r.db, e, ProviderResponseMismatch, now);
      } else {
        RowReads(r.db);
        StillOpenStays(RowOf(tried), p);
        var told := Append(r.db, EvReconciled, ReconciledPayload(r.db, p, r.db.intent.state));
        LedgerOnly(r.db, told);
        OutboxOnlyRow(told, if r.db.intent.state.ProviderPending? then Reschedule(told, e, now) else Complete(told, e));
      }
    }
  }

  lemma AttemptUnlessPending(db: Db)
    ensures RecordAttempt(db) == if db.intent.state.Queued? || db.intent.state.FailedRetryable? then RecordAttempt(db) else db
  {
  }

  lemma SameConsistent(a: Db, b: Db, p: Payment)
    requires a.intent.refs == b.intent.refs
    ensures Consistent(a.intent.refs, p) <==> Consistent(b.intent.refs, p)
    ensures a.intent.refs.reference.None? && UnlinkedIsBlank(a.intent.refs) ==> Consistent(a.intent.refs, p)
  {
  }

  lemma StillOpenStays(r: Row, p: Payment)
    ensures AfterAnswer(r, p).state.ProviderPending? <==> StillOpen(p)
  {
  }

  lemma OutboxOnlyRow(a: Db, b: Db)
    requires b == a.(outbox := b.outbox)
    ensures RowOf(a) == RowOf(b)
  {
  }

  /** A poll that could not be answered changes only what an ambiguity changes. */
  lemma UnansweredPollTable(db: Db, e: nat, error: ProviderError, now: Time)
    requires e < |db.outbox| && Unsettled(db.intent.state)
    ensures var t := LookupUnanswered(db, e, error, now);
            && t.Commit? && t.creates == 0 && Deferred(db, t.db, e, now) && t.db.intent.refs == db.intent.refs
            && RowOf(t.db) == (if error.AmbiguityError?
                               then RowOf(db).(state := ProviderPending, reason := Some(ProviderAmbiguity), ambiguous := true) else RowOf(db))
  {
    hide RetryPayload, ProviderPayload, TransitionPayload;
  }

  /** A poll that finds nothing. Linked: nothing changes. Fenced: uncertain, and never reopened.
      Otherwise a pending row goes back to a create, with its instruction. */
  lemma NotFoundTable(idempotent: bool, db: Db, e: nat, io: Io, now: Time)
    requires e < |db.outbox| && Unsettled(db.intent.state) && db.intent.ambiguousAt.None? && io.lookup.NotFound?
    ensures var t := ReconcileSection(idempotent, db, e, io, now);
            var r := RowOf(db);
            && t.creates == 0
            && (if db.intent.refs.reference.Some? then
                  t.Commit? && t.db.intent == db.intent && RowOf(t.db) == r && Deferred(db, t.db, e, now)
                else if !idempotent && db.intent.fencedAt.Some? then
                  t.Commit? && RowOf(t.db) == r.(state := ProviderPending, reason := Some(ProviderCreateFenced)) && Deferred(db, t.db, e, now)
                else if db.intent.state.ProviderPending? then
                  t.Commit? && RowOf(t.db) == r.(state := FailedRetryable, reason := Some(ProviderPaymentNotFound)) && Delegated(db, t.db, e, CreateRequested, now)
                else t.Abort?)
  {
    hide NarrationPayload, RetryPayload, ReopenPayload, ProviderPayload, TransitionPayload;
    if db.intent.refs.reference.None? && !(!idempotent && db.intent.fencedAt.Some?) && db.intent.state.ProviderPending? {
      assert ReconcileSection(idempotent, db, e, io, now).db.outbox ==
             db.outbox[e := db.outbox[e].(status := Processed)] + [NewRow(CreateRequested, now)];
    }
  }

  /** Which of these a reconcile instruction runs. */
  lemma ReconcileTable(idempotent: bool, db: Db, e: nat, io: Io, now: Time)
    requires e < |db.outbox|
    ensures var b := ReconcileBegin(idempotent, db, e, io, now);
            var s := db.intent.state;
            if io.adapter != db.intent.bound.provider then b == Ended(Abort(0))
            else if s.Succeeded? || s.FailedTerminal? || s.Cancelled? then
              b.Ended? && b.turn.Commit? && b.turn.creates == 0 && b.turn.db == db.(outbox := b.turn.db.outbox) && Closed(db, b.turn.db, e)
            else if !io.authorized then b == Ended(Abort(0))
            else if !idempotent && db.intent.fencedAt.None? then b == NeedsFence(false)
            else
              b.Ended? &&
              match io.lookup
              case LookupCrashed => b.turn == Abort(0)
              case LookupFailed(error) => b.turn == LookupUnanswered(db, e, error, now)
              case Found(p) => db.intent.ambiguousAt.None? ==> b.turn == AnswerFound(db, e, p, now)
              case NotFound => db.intent.ambiguousAt.None? ==> b.turn == ReconcileSection(idempotent, db, e, io, now)
  {
    hide LookupUnanswered, AnswerFound;
  }

  // ---- Webhooks ----------------------------------------------------------------------------

  /** What a credible new delivery does to a pending or settled payment, by its kind. */
  lemma DeliveryTable(db: Db, h: Hook)
    requires Credible(db.intent, h) && h.eventId !in db.deliveries
    requires db.intent.state.ProviderPending? || db.intent.state.Succeeded? || db.intent.state.FailedTerminal?
    requires db.intent.ambiguousAt.Some? ==> db.intent.state.ProviderPending?
    ensures var d := DeliverOne(db, h);
            var r := RowOf(db);
            && h.eventId in d.deliveries && d.outbox == db.outbox
            && (if db.intent.ambiguousAt.Some? then
                  RowOf(d) == r.(reason := Some(ProviderAmbiguity)) && d.intent.refs == db.intent.refs && d.deliveries[h.eventId] == None
                else if !db.intent.state.ProviderPending? then
                  d.intent == db.intent && d.mission == db.mission && d.deliveries[h.eventId] == None
                else match h.kind
                case HookSucceeded =>
                  && RowOf(d) == r.(state := PaymentState.Succeeded, reason := None, mission := Moved(r.mission, PaymentSucceeded))
                  && d.deliveries[h.eventId] == Some(PaymentState.Succeeded)
                case HookFailed =>
                  && RowOf(d) == r.(state := FailedTerminal, reason := None, mission := Moved(r.mission, PaymentFailed))
                  && d.deliveries[h.eventId] == Some(FailedTerminal)
                case HookPending => RowOf(d) == r.(reason := None) && d.deliveries[h.eventId] == Some(ProviderPending)
                case HookAttemptFailed => RowOf(d) == r.(reason := Some(ProviderAttemptFailed)) && d.deliveries[h.eventId] == Some(ProviderPending))
  {
    hide TransitionPayload, HookPayload, DeliveryPayload, OutOfOrderPayload;
  }

  /** The evidence such a delivery leaves on an unambiguous pending payment. */
  lemma DeliveryRecords(db: Db, h: Hook)
    requires Credible(db.intent, h) && h.eventId !in db.deliveries && db.intent.state.ProviderPending? && db.intent.ambiguousAt.None?
    ensures var d, held := DeliverOne(db, h).intent.refs, db.intent.refs;
            && d.order == (if held.order.Some? then held.order else h.order)
            && d.receipt == held.receipt
            && d.transaction == (if h.kind == HookSucceeded && h.transaction.Some? then h.transaction else held.transaction)
            && d.providerStatus == (if h.providerStatus.Some? then h.providerStatus else held.providerStatus)
            && (h.providerAttempts.Some? ==> d.providerAttempts.Some? && d.providerAttempts.value >= h.providerAttempts.value)
  {
    hide TransitionPayload, HookPayload, DeliveryPayload, OutOfOrderPayload;
  }

  // ---- The tables the outcomes rest on ---------------------------------------------------------

  const PAYMENT_MOVES: set<(PaymentState, PaymentState)> := {
    (Created, Queued), (Created, Cancelled), (Queued, Processing), (Queued, ProviderPending), (Queued, Cancelled),
    (Processing, Succeeded), (Processing, ProviderPending), (Processing, FailedRetryable), (Processing, FailedTerminal),
    (ProviderPending, Succeeded), (ProviderPending, FailedTerminal), (ProviderPending, FailedRetryable),
    (FailedRetryable, Queued), (FailedRetryable, ProviderPending), (FailedRetryable, FailedTerminal), (FailedRetryable, Cancelled) }

  /** The sixteen permitted payment moves; no move leaves a terminal state and every other state has one. */
  lemma PaymentMovesTable(current: PaymentState, target: PaymentState)
    ensures Allowed(current, target) <==> (current, target) in PAYMENT_MOVES
    ensures IsTerminal(current) <==> current in {PaymentState.Succeeded, FailedTerminal, Cancelled}
    ensures IsTerminal(current) <==> forall next :: (current, next) !in PAYMENT_MOVES
  {
    if !IsTerminal(current) {
      assert (Created, Queued) in PAYMENT_MOVES && (Queued, Processing) in PAYMENT_MOVES && (Processing, Succeeded) in PAYMENT_MOVES;
      assert (ProviderPending, Succeeded) in PAYMENT_MOVES && (FailedRetryable, Queued) in PAYMENT_MOVES;
    }
  }

  /** Seconds of delay after so many claims. */
  function Delay(attempts: nat): nat {
    if attempts <= 1 then 1 else if attempts == 2 then 2 else if attempts == 3 then 5 else if attempts == 4 then 15
    else if attempts == 5 then 30 else if attempts == 6 then 60 else if attempts == 7 then 120 else 300
  }

  /** A rescheduled row is dead-lettered exactly when its claims have used up its budget, and otherwise waits out
      the delay of its claims; its kind, counts and schedule are otherwise its own, and so is every other row. */
  lemma RescheduleTable(db: Db, e: nat, now: Time)
    requires e < |db.outbox|
    ensures var row, after := db.outbox[e], Reschedule(db, e, now);
            && |after.outbox| == |db.outbox| && after == db.(outbox := after.outbox)
            && (forall k :: 0 <= k < |db.outbox| && k != e ==> after.outbox[k] == db.outbox[k])
            && after.outbox[e].kind == row.kind && after.outbox[e].attempts == row.attempts && after.outbox[e].maxAttempts == row.maxAttempts
            && (after.outbox[e].status == DeadLettered <==> row.attempts >= row.maxAttempts)
            && (row.attempts >= row.maxAttempts ==> after.outbox[e].availableAt == row.availableAt)
            && (row.attempts < row.maxAttempts ==> after.outbox[e].status == Pending && after.outbox[e].availableAt == now + Delay(row.attempts))
  {
    hide Delay, BackoffFor;
    BackoffTable(db.outbox[e].attempts);
  }

  lemma BackoffTable(attempts: nat)
    ensures BackoffFor(attempts) == Delay(attempts)
    ensures forall more: nat :: attempts <= more ==> Delay(attempts) <= Delay(more) <= 300
  {
  }

  /** A new instruction may be claimed eight times, at once and by anyone. */
  lemma EnqueueTable(db: Db, kind: OutboxKind, now: Time)
    ensures var after := Enqueue(db, kind, now);
            after == db.(outbox := db.outbox + [OutboxRow(kind, Pending, 0, 8, now, None)])
  {
  }

  // ---- What is narrated --------------------------------------------------------------------------

  /** The newest event: its type and the reason it gives. */
  predicate LastIs(db: Db, t: EventType, reason: Reason) {
    && |db.ledger| > 0 && db.ledger[|db.ledger| - 1].tag == Known(t) && db.ledger[|db.ledger| - 1].payload.JObject?
    && ReasonCode in db.ledger[|db.ledger| - 1].payload.fields
    && db.ledger[|db.ledger| - 1].payload.fields[ReasonCode] == JStr(ReasonName(reason))
  }

  /** A poll put off says whether it will be tried again, and why it was put off. */
  lemma RetryEvents(db: Db, e: nat, reason: Reason, now: Time)
    requires e < |db.outbox|
    ensures var d := RetryLater(db, e, reason, now);
            && |d.ledger| == |db.ledger| + 1 && db.ledger <= d.ledger
            && LastIs(d, if db.outbox[e].attempts < db.outbox[e].maxAttempts then EvRetryScheduled else EvDeadLettered, reason)
  {
  }

  /** A create an idempotent provider failed to finish records the failure, then whether it will be retried. */
  lemma CreateRetryEvents(tried: Db, e: nat, error: ProviderError, now: Time)
    requires Attempted(tried) && e < |tried.outbox| && (error.TransientError? || error.AmbiguityError?)
    ensures var t, n := CreateRefused(true, tried, e, error, now), |tried.ledger|;
            && t.Commit? && |t.db.ledger| == n + 2 && tried.ledger <= t.db.ledger
            && t.db.ledger[n].tag == Known(EvFailed)
            && t.db.ledger[n + 1].tag == Known(if tried.outbox[e].attempts < tried.outbox[e].maxAttempts then EvRetryScheduled else EvDeadLettered)
  {
    hide TransitionPayload, ProviderPayload;
  }

  /** An adopted payment is narrated last, with the state it left and its own reference. */
  lemma PollEvents(db: Db, e: nat, p: Payment, now: Time)
    requires e < |db.outbox| && Unsettled(db.intent.state) && UnlinkedIsBlank(db.intent.refs)
    requires db.intent.state.ProviderPending? || db.intent.refs.reference.None?
    requires Ours(db.intent, p) && Consistent(db.intent.refs, p)
    ensures var t := AnswerFound(db, e, p, now);
            && t.Commit? && |t.db.ledger| > 0
            && var told := t.db.ledger[|t.db.ledger| - 1];
               && told.tag == Known(EvReconciled) && told.payload.JObject?
               && State in told.payload.fields && told.payload.fields[State] == JStr(StateName(t.db.intent.state))
               && ProviderPaymentId in told.payload.fields && told.payload.fields[ProviderPaymentId] == JStr(Text(p.reference))
  {
    hide ApplyProviderPayment, RecordAttempt, RowOf, Consistent, AfterAnswer, RetryLater;
    AttemptTable(db);
    MatchesTable(db.intent, p);
    var tried := RecordAttempt(db);
    AttemptUnlessPending(db);
    RowReads(db);
    RowReads(tried);
    SameOurs(db, tried, p);
    SameConsistent(db, tried, p);
    FoldTable(tried, p);
  }

  /** What a credible delivery writes: a repetition is only noted; a new one is verified first, and then held
      against an ambiguity, ignored by a settled payment, or applied. */
  lemma DeliveryEvents(db: Db, h: Hook)
    requires Credible(db.intent, h)
    requires db.intent.state.ProviderPending? || db.intent.state.Succeeded? || db.intent.state.FailedTerminal?
    ensures var d, n := DeliverOne(db, h), |db.ledger|;
            && db.ledger <= d.ledger
            && (if h.eventId in db.deliveries then |d.ledger| == n + 1 && LastIs(d, EvDuplicateWebhook, WebhookDuplicate)
                else
                  && |d.ledger| == n + 2 && d.ledger[n].tag == Known(EvWebhookVerified)
                  && (db.intent.ambiguousAt.Some? ==> LastIs(d, EvUncertain, ProviderAmbiguity))
                  && (db.intent.ambiguousAt.None? && !db.intent.state.ProviderPending? ==> LastIs(d, EvOutOfOrderWebhook, IllegalTransition))
                  && (db.intent.ambiguousAt.None? && db.intent.state.ProviderPending? ==>
                        d.ledger[n + 1].tag == Known(if h.kind == HookSucceeded then EvSucceeded else if h.kind == HookFailed then EvFailed else EvUncertain)))
  {
    hide HookPayload, DeliveryPayload;
  }
}
