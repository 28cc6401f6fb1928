/** Who settles a payment: over every run, a payment succeeds or fails only on the provider's own word
    about this very payment, and the mission follows it. */
module Settlement {
  import opened Vocabulary
  import opened AuditEvents
  import opened Tables
  import opened Executor
  import opened ExecutorProofs
  import opened Reconciliation
  import opened Webhooks
  import opened WebhookProofs
  import opened Protocol
  import opened ProtocolProofs
  import opened ProtocolTheorems
  import opened Outcomes

  /** What the provider said in a section: nothing of use, a payment, or that it refuses the create for
      good. */
  datatype Said = Silence | Word(payment: Payment) | Refusal

  function SaidBy(io: Io): Said {
    match io.lookup
    case Found(p) => Word(p)
    case NotFound =>
      (match io.answer
       case Answered(p) => Word(p)
       case CreateFailed(error) => if error.TerminalError? then Refusal else Silence
       case CreateCrashed => Silence)
    case _ => Silence
  }

  /** The word is about this payment, and is the reference held afterwards. */
  predicate Heard(i: Intent, q: Row, said: Said, status: ProviderStatus) {
    said.Word? && said.payment.status == status && Ours(i, said.payment) && q.reference == Some(said.payment.reference)
  }

  /** From row `r` of intent `i` to row `q`: a settled row stays, an unsettled one settles only on such
      a word and takes the mission along, and otherwise the mission stays. */
  predicate Justly(i: Intent, r: Row, q: Row, said: Said) {
    if r.state.Succeeded? || r.state.FailedTerminal? then q.state == r.state && q.mission == r.mission
    else
      && (q.state.Succeeded? ==> Heard(i, q, said, StatusSucceeded) && q.mission == Moved(r.mission, PaymentSucceeded))
      && (q.state.FailedTerminal? ==>
            (said.Refusal? || Heard(i, q, said, StatusFailed)) && q.mission == Moved(r.mission, PaymentFailed))
      && (!q.state.Succeeded? && !q.state.FailedTerminal? ==> q.mission == r.mission)
  }

  predicate JustTurn(a: Db, t: Turn, said: Said) { t.Commit? ==> Justly(a.intent, RowOf(a), RowOf(t.db), said) }

  // ---- Sections ----------------------------------------------------------------------------

  lemma AnswerIsJust(i: Intent, r: Row, tried: Row, p: Payment)
    requires !r.state.Succeeded? && !r.state.FailedTerminal? && tried.mission == r.mission && Ours(i, p)
    ensures Justly(i, r, AfterAnswer(tried, p), Word(p))
  {
  }

  /** A change of state, reason, mark or attempts that is no settlement. */
  lemma PendingIsJust(i: Intent, r: Row, q: Row, said: Said)
    requires !r.state.Succeeded? && !r.state.FailedTerminal? && !q.state.Succeeded? && !q.state.FailedTerminal? && q.mission == r.mission
    ensures Justly(i, r, q, said)
  {
  }

  lemma CreateIsJust(idempotent: bool, db: Db, e: nat, io: Io, now: Time)
    requires Unanswered(db) && e < |db.outbox|
    ensures JustTurn(db, CreateSection(idempotent, db, e, io, now), SaidBy(io))
  {
    hide CreateSection;
    CreateTable(idempotent, db, e, io, now);
    var r := RowOf(db);
    if io.lookup.Found? && Ours(db.intent, io.lookup.payment) {
      AnswerIsJust(db.intent, r, r.(state := Processing, reason := None, attempts := r.attempts + 1), io.lookup.payment);
    } else if io.lookup.NotFound? && io.answer.Answered? && Ours(db.intent, io.answer.payment) {
      AnswerIsJust(db.intent, r, r.(state := Processing, reason := None, attempts := r.attempts + 1), io.answer.payment);
    }
  }

  lemma FinishIsJust(db: Db, e: nat, p: Payment, now: Time)
    requires e < |db.outbox| && UnlinkedIsBlank(db.intent.refs)
    requires db.intent.state.ProviderPending? || (db.intent.state.Queued? && db.intent.refs.reference.None?)
    ensures JustTurn(db, FinishExisting(db, e, p, now), Word(p))
  {
    hide EndUncertain, AfterAnswer, RecordAttempt, ApplyProviderPayment;
    if db.intent.ambiguousAt.Some? {
      UncertainTable(db, e, ProviderAmbiguity, false, now, 0);
    } else {
      hide FinishExisting;
      FinishTable(db, e, p, now);
      AttemptTable(db);
      if Ours(db.intent, p) { AnswerIsJust(db.intent, RowOf(db), RowOf(RecordAttempt(db)), p); }
    }
  }

  lemma RecoverIsJust(db: Db, e: nat, io: Io, now: Time)
    requires e < |db.outbox| && UnlinkedIsBlank(db.intent.refs)
    requires db.intent.state.ProviderPending? || (db.intent.state.Queued? && db.intent.refs.reference.None?)
    ensures JustTurn(db, RecoverFenced(db, e, io, now), SaidBy(io))
  {
    hide EndUncertain, FinishExisting;
    match io.lookup
    case LookupCrashed =>
    case LookupFailed(error) => UncertainTable(db, e, ReasonOf(error), error.TimeoutError?, now, 0);
    case Found(p) => FinishIsJust(db, e, p, now);
    case NotFound => UncertainTable(db, e, ProviderCreateFenced, false, now, 0);
  }

  /** A row at rest and the shapes it may have. */
  lemma RestShapes(idempotent: bool, db: Db)
    requires Sound(db) && AtRest(idempotent, db.intent)
    ensures UnlinkedIsBlank(db.intent.refs)
    ensures db.intent.state.Queued? ==> Unanswered(db)
    ensures db.intent.state.FailedRetryable? ==> idempotent && Unanswered(db.(intent := WithState(db.intent, Queued)))
    ensures Unsettled(db.intent.state) || db.intent.state.Succeeded? || db.intent.state.FailedTerminal?
    ensures db.intent.ambiguousAt.Some? ==> db.intent.state.ProviderPending?
  {
  }

  lemma StillIsJust(a: Db, b: Db, said: Said)
    requires b == a.(outbox := b.outbox)
    requires Unsettled(a.intent.state) || a.intent.state.Succeeded? || a.intent.state.FailedTerminal?
    ensures Justly(a.intent, RowOf(a), RowOf(b), said)
  {
  }

  lemma RequeuedIsJust(db: Db, t: Turn, said: Said)
    requires db.intent.state.FailedRetryable? && JustTurn(db.(intent := WithState(db.intent, Queued)), t, said)
    ensures JustTurn(db, t, said)
  {
  }

  lemma DispatchIsJust(idempotent: bool, db: Db, e: nat, io: Io, now: Time)
    requires Sound(db) && AtRest(idempotent, db.intent) && e < |db.outbox|
    ensures var b := DispatchBegin(idempotent, db, e, io, now);
            b.Ended? ==> JustTurn(db, b.turn, SaidBy(io))
  {
    hide DispatchBegin, RecoverFenced, CreateSection, Sound, Justly, RowOf, SaidBy;
    RestShapes(idempotent, db);
    DispatchTable(idempotent, db, e, io, now);
    var b := DispatchBegin(idempotent, db, e, io, now);
    if io.adapter == db.intent.bound.provider {
      var s := db.intent.state;
      if s.Succeeded? || s.FailedTerminal? {
        StillIsJust(db, b.turn.db, SaidBy(io));
      } else if !idempotent && db.intent.fencedAt.Some? {
        RecoverIsJust(db, e, io, now);
      } else if s.ProviderPending? {
        StillIsJust(db, b.turn.db, SaidBy(io));
      } else if b.Ended? && b.turn.Commit? {
        if s.Queued? {
          CreateIsJust(true, db, e, io, now);
        } else {
          CreateIsJust(true, db.(intent := WithState(db.intent, Queued)), e, io, now);
          RequeuedIsJust(db, b.turn, SaidBy(io));
        }
      }
    }
  }

  lemma FencedIsJust(db: Db, e: nat, acquired: bool, io: Io, now: Time)
    requires Sound(db) && AtRest(false, db.intent) && e < |db.outbox|
    ensures JustTurn(db, DispatchFenced(db, e, acquired, io, now), SaidBy(io))
  {
    hide DispatchFenced, RecoverFenced, CreateSection, Sound, Justly, RowOf, SaidBy;
    RestShapes(false, db);
    FencedTable(db, e, acquired, io, now);
    if io.adapter == db.intent.bound.provider && db.intent.fencedAt.Some? {
      if acquired && db.intent.state.Queued? { CreateIsJust(false, db, e, io, now); }
      else if db.intent.state.Queued? || db.intent.state.ProviderPending? { RecoverIsJust(db, e, io, now); }
      else { SettledRecovers(db, e, io, now); }
    }
  }

  /** The loser of a fence whose payment settled meanwhile: it adds evidence or aborts. */
  lemma SettledRecovers(db: Db, e: nat, io: Io, now: Time)
    requires e < |db.outbox| && AtRest(false, db.intent) && (db.intent.state.Succeeded? || db.intent.state.FailedTerminal?)
    ensures JustTurn(db, RecoverFenced(db, e, io, now), SaidBy(io))
  {
  }

  lemma PollIsJust(idempotent: bool, db: Db, e: nat, io: Io, now: Time)
    requires Sound(db) && AtRest(idempotent, db.intent) && Unsettled(db.intent.state) && e < |db.outbox|
    ensures JustTurn(db, ReconcileSection(idempotent, db, e, io, now), SaidBy(io))
  {
    hide LookupUnanswered, AnswerFound, Sound, Justly, RowOf, RecordAttempt, AfterAnswer;
    RestShapes(idempotent, db);
    var t := ReconcileSection(idempotent, db, e, io, now);
    match io.lookup
    case LookupCrashed =>
    case LookupFailed(error) =>
      UnansweredPollTable(db, e, error, now);
      RowReads(db);
      PendingIsJust(db.intent, RowOf(db), RowOf(t.db), SaidBy(io));
    case Found(p) =>
      if db.intent.ambiguousAt.Some? { AmbiguousIsJust(db, e, Some(p.reference), now, Word(p)); }
      else { FoundIsJust(db, e, p, now); }
    case NotFound =>
      if db.intent.ambiguousAt.Some? { AmbiguousIsJust(db, e, None, now, SaidBy(io)); }
      else {
        NotFoundTable(idempotent, db, e, io, now);
        RowReads(db);
        if t.Commit? { PendingIsJust(db.intent, RowOf(db), RowOf(t.db), SaidBy(io)); }
      }
  }

  lemma AmbiguousIsJust(db: Db, e: nat, seen: Option<string>, now: Time, said: Said)
    requires e < |db.outbox| && db.intent.state.ProviderPending?
    ensures JustTurn(db, StillAmbiguous(db, e, seen, now), said)
  {
  }

  lemma FoundIsJust(db: Db, e: nat, p: Payment, now: Time)
    requires e < |db.outbox| && Unsettled(db.intent.state) && UnlinkedIsBlank(db.intent.refs)
    requires db.intent.state.ProviderPending? || db.intent.refs.reference.None?
    ensures JustTurn(db, AnswerFound(db, e, p, now), Word(p))
  {
    hide AnswerFound, RecordAttempt, AfterAnswer;
    FoundTable(db, e, p, now);
    AttemptTable(db);
    if Ours(db.intent, p) { AnswerIsJust(db.intent, RowOf(db), RowOf(RecordAttempt(db)), p); }
  }

  lemma ReconcileIsJust(idempotent: bool, db: Db, e: nat, io: Io, now: Time)
    requires Sound(db) && AtRest(idempotent, db.intent) && e < |db.outbox|
    ensures var b := ReconcileBegin(idempotent, db, e, io, now);
            b.Ended? ==> JustTurn(db, b.turn, SaidBy(io))
    ensures JustTurn(db, ReconcileFenced(db, e, io, now), SaidBy(io))
  {
    hide ReconcileSection, Sound, Justly, RowOf, SaidBy;
    RestShapes(idempotent, db);
    if IsTerminal(db.intent.state) {
      StillIsJust(db, Complete(db, e), SaidBy(io));
    } else {
      PollIsJust(idempotent, db, e, io, now);
      if idempotent { PollBehindFence(db, e, io, now); } else { PollIsJust(false, db, e, io, now); }
    }
  }

  /** The fenced form of a poll is as just, whatever the provider. */
  lemma PollBehindFence(db: Db, e: nat, io: Io, now: Time)
    requires Sound(db) && AtRest(true, db.intent) && Unsettled(db.intent.state) && e < |db.outbox|
    ensures JustTurn(db, ReconcileSection(false, db, e, io, now), SaidBy(io))
  {
    hide Justly, RowOf, Sound, LookupUnanswered, AnswerFound, RecordAttempt, AfterAnswer;
    if !io.lookup.NotFound? || db.intent.ambiguousAt.Some? {
      PollIsJust(true, db, e, io, now);
      assert ReconcileSection(false, db, e, io, now) == ReconcileSection(true, db, e, io, now);
    } else {
      NotFoundTable(false, db, e, io, now);
      RowReads(db);
      var t := ReconcileSection(false, db, e, io, now);
      if t.Commit? { PendingIsJust(db.intent, RowOf(db), RowOf(t.db), SaidBy(io)); }
    }
  }

  // ---- Runs --------------------------------------------------------------------------------

  /** The mission says what the payment says. */
  predicate Paired(state: PaymentState, mission: MissionState) {
    mission == (if state.Succeeded? then PaymentSucceeded else if state.FailedTerminal? then PaymentFailed else PaymentPending)
  }

  /** What a step owes the row it found: a settlement was heard from the provider in that step, or
      delivered by it, about this payment. */
  predicate StepJust(a: Db, b: Db, step: Step) {
    if step.Handle? then Justly(a.intent, RowOf(a), RowOf(b), SaidBy(step.io))
    else if step.Resume? then Justly(a.intent, RowOf(a), RowOf(b), SaidBy(step.io))
    else if step.Deliver? then
      && (b.intent.state != a.intent.state ==>
            && Credible(a.intent, step.hook) && step.hook.eventId !in a.deliveries
            && b.intent.state == (if step.hook.kind == HookSucceeded then PaymentState.Succeeded else FailedTerminal)
            && (step.hook.kind == HookSucceeded || step.hook.kind == HookFailed))
      && (Paired(a.intent.state, a.mission) ==> Paired(b.intent.state, b.mission))
    else b.intent.state == a.intent.state && b.mission == a.mission
  }

  lemma SameRowIsJust(idempotent: bool, db: Db, b: Db, said: Said)
    requires AtRest(idempotent, db.intent) && b == db
    ensures Justly(db.intent, RowOf(db), RowOf(b), said)
  {
  }

  lemma HandleIsJust(idempotent: bool, s: Sys, p: nat, io: Io)
    requires Inv(idempotent, s)
    ensures Justly(s.db.intent, RowOf(s.db), RowOf(Next(idempotent, s, Handle(p, io)).db), SaidBy(io))
  {
    hide Justly, RowOf, SaidBy, DispatchBegin, ReconcileBegin, Sound;
    SameRowIsJust(idempotent, s.db, s.db, SaidBy(io));
    var pc := PcOf(s, p);
    if pc.Working? && pc.event < |s.db.outbox| {
      if s.db.outbox[pc.event].kind.CreateRequested? { DispatchIsJust(idempotent, s.db, pc.event, io, pc.now); }
      else { ReconcileIsJust(idempotent, s.db, pc.event, io, pc.now); }
    }
  }

  lemma ResumeIsJust(idempotent: bool, s: Sys, p: nat, io: Io)
    requires Inv(idempotent, s)
    ensures Justly(s.db.intent, RowOf(s.db), RowOf(Next(idempotent, s, Resume(p, io)).db), SaidBy(io))
  {
    hide Justly, RowOf, SaidBy, DispatchFenced, ReconcileFenced, Sound;
    SameRowIsJust(idempotent, s.db, s.db, SaidBy(io));
    var pc := PcOf(s, p);
    if pc.Fenced? && pc.event < |s.db.outbox| {
      assert PcSane(idempotent, s, s.pcs[p]);
      if s.db.outbox[pc.event].kind.CreateRequested? { FencedIsJust(s.db, pc.event, pc.acquired, io, pc.now); }
      else { ReconcileIsJust(idempotent, s.db, pc.event, io, pc.now); }
    }
  }

  lemma DeliveryIsJust(idempotent: bool, db: Db, h: Hook)
    requires Sound(db) && AtRest(idempotent, db.intent)
    ensures StepJust(db, DeliverOne(db, h), Deliver(h))
  {
    hide HandleWebhook, Sound;
    AcceptedIffCredible(db, h);
    if Credible(db.intent, h) {
      if h.eventId in db.deliveries { DuplicateChangesNothing(db, h); DuplicateKeepsRows(db, h); }
      else { DeliveryTable(db, h); }
    }
  }

  lemma DuplicateKeepsRows(db: Db, h: Hook)
    requires h.eventId in db.deliveries
    ensures DeliverOne(db, h).intent == db.intent && DeliverOne(db, h).mission == db.mission
  {
  }

  lemma StepIsJust(idempotent: bool, s: Sys, step: Step)
    requires Inv(idempotent, s)
    ensures StepJust(s.db, Next(idempotent, s, step).db, step)
  {
    if step.Handle? { HandleIsJust(idempotent, s, step.p, step.io); }
    else if step.Resume? { ResumeIsJust(idempotent, s, step.p, step.io); }
    else if step.Deliver? { DeliveryIsJust(idempotent, s.db, step.hook); }
    else if step.CommitFence? { FenceMovesNothing(idempotent, s, step.p); }
  }

  lemma FenceMovesNothing(idempotent: bool, s: Sys, p: nat)
    requires Inv(idempotent, s)
    ensures var t := Next(idempotent, s, CommitFence(p));
            t.db.intent.state == s.db.intent.state && t.db.mission == s.db.mission
  {
    var pc := PcOf(s, p);
    if pc.Fencing? { assert PcSane(idempotent, s, s.pcs[p]); }
  }

  lemma JustKeepsPairs(a: Db, b: Db, step: Step)
    requires StepJust(a, b, step) && Paired(a.intent.state, a.mission)
    ensures Paired(b.intent.state, b.mission)
  {
  }

  lemma {:induction false} RunKeepsPairs(idempotent: bool, s: Sys, steps: seq<Step>)
    requires Inv(idempotent, s) && Paired(s.db.intent.state, s.db.mission)
    ensures var t := Run(idempotent, s, steps); Paired(t.db.intent.state, t.db.mission)
    decreases |steps|
  {
    hide Next, StepJust;
    if steps != [] {
      StepIsJust(idempotent, s, steps[0]);
      StepIsSafe(idempotent, s, steps[0]);
      JustKeepsPairs(s.db, Next(idempotent, s, steps[0]).db, steps[0]);
      RunKeepsPairs(idempotent, Next(idempotent, s, steps[0]), steps[1..]);
    }
  }

  /** After every run the mission is PAYMENT_SUCCEEDED exactly for a succeeded payment, PAYMENT_FAILED
      exactly for a failed one, and PAYMENT_PENDING otherwise. */
  lemma MissionFollowsPayment(idempotent: bool, b: Bound, ledger: seq<AuditEvent>, now: Time, steps: seq<Step>)
    requires ReadyToPay(ledger)
    ensures var db := Run(idempotent, Start(b, ledger, now), steps).db; Paired(db.intent.state, db.mission)
  {
    StartIsSafe(idempotent, b, ledger, now);
    RunKeepsPairs(idempotent, Start(b, ledger, now), steps);
  }

  /** The provider's word, spelled out against the request: provider, amount and currency of the
      request, its key or none (and certainly its key while nothing was linked), and the reference the
      intent held before, if any, and holds afterwards. */
  predicate OurWord(b: Bound, before: Option<string>, after: Option<string>, said: Said, status: ProviderStatus) {
    && said.Word? && said.payment.status == status
    && said.payment.provider == b.provider && said.payment.amount == b.amount && said.payment.currency == b.currency
    && (said.payment.key.None? || said.payment.key == Some(b.key))
    && (before.None? ==> said.payment.key == Some(b.key))
    && after == Some(said.payment.reference) && (before.Some? ==> after == before)
  }

  /** In any run, a payment that a step newly makes SUCCEEDED succeeded by a worker's section in which
      the provider answered SUCCEEDED about this payment, or by a credible `payment.succeeded` delivery;
      one that it newly makes FAILED_TERMINAL failed by an answer FAILED about this payment, a create
      the provider refused for good, or a credible `payment.failed` delivery. */
  lemma SettledOnTheProvidersWord(idempotent: bool, b: Bound, ledger: seq<AuditEvent>, now: Time, steps: seq<Step>, step: Step)
    requires ReadyToPay(ledger)
    ensures var s := Run(idempotent, Start(b, ledger, now), steps);
            var t := Next(idempotent, s, step);
            var before, after := s.db.intent.refs.reference, t.db.intent.refs.reference;
            && (t.db.intent.state.Succeeded? && !s.db.intent.state.Succeeded? ==>
                  || (step.Deliver? && step.hook.kind == HookSucceeded && Credible(s.db.intent, step.hook))
                  || ((step.Handle? || step.Resume?) && OurWord(b, before, after, SaidBy(step.io), StatusSucceeded)))
            && (t.db.intent.state.FailedTerminal? && !s.db.intent.state.FailedTerminal? ==>
                  || (step.Deliver? && step.hook.kind == HookFailed && Credible(s.db.intent, step.hook))
                  || ((step.Handle? || step.Resume?) &&
                        (OurWord(b, before, after, SaidBy(step.io), StatusFailed)
                         || (step.io.lookup.NotFound? && step.io.answer == CreateFailed(TerminalError)))))
  {
    hide Run, Next, Start;
    StartIsSafe(idempotent, b, ledger, now);
    StartBound(b, ledger, now);
    RunIsSafe(idempotent, Start(b, ledger, now), steps);
    StepIsJust(idempotent, Run(idempotent, Start(b, ledger, now), steps), step);
  }

  lemma StartBound(b: Bound, ledger: seq<AuditEvent>, now: Time)
    ensures Start(b, ledger, now).db.intent.bound == b
  {
  }

  // ---- The first answer --------------------------------------------------------------------

  /** The step that asks a fenced provider to create is behind the fence; with an idempotent one it is the handler's. */
  function Asking(idempotent: bool, p: nat, io: Io): Step { if idempotent then Handle(p, io) else Resume(p, io) }

  /** A worker about to ask on a queued row, as the winner of the fence if there is one, with everything in order
      around it. */
  ghost predicate AsksFirst(idempotent: bool, s: Sys, p: nat, io: Io, b: Bound) {
    && !PcOf(s, p).Idle? && PcOf(s, p).event < |s.db.outbox| && s.db.outbox[PcOf(s, p).event].kind.CreateRequested?
    && (if idempotent then PcOf(s, p).Working? else PcOf(s, p).Fenced? && PcOf(s, p).acquired && s.db.intent.fencedAt.Some?)
    && s.db.intent.state.Queued?
    && io.adapter == b.provider && io.authorized && io.stillAuthorized && io.lookup == NotFound && io.answer.Answered?
  }

  predicate NamesUs(b: Bound, p: Payment) {
    p.provider == b.provider && p.amount == b.amount && p.currency == b.currency && p.key == Some(b.key)
  }

  /** The row is done, and one reconcile row follows it or none. */
  predicate Retired(a: Db, c: Db, e: nat, polledOn: bool) {
    && e < |c.outbox| && c.outbox[e].status.Processed?
    && |c.outbox| == |a.outbox| + (if polledOn then 1 else 0) && (polledOn ==> c.outbox[|a.outbox|].kind.ReconcileRequested?)
  }

  /** Open: pending and polled on. Succeeded or failed: settled with its mission. About another payment:
      uncertain with nothing linked, and polled on. */
  predicate Concluded(b: Bound, a: Db, c: Db, e: nat, said: Payment) {
    var i := c.intent;
    if !NamesUs(b, said) then
      i.state == ProviderPending && i.refs.reference.None? && c.mission == PaymentPending && i.reason == Some(ProviderResponseMismatch) && Retired(a, c, e, true)
    else
      && i.refs.reference == Some(said.reference)
      && match said.status
         case StatusCreated => i.state == ProviderPending && c.mission == PaymentPending && Retired(a, c, e, true)
         case StatusPending => i.state == ProviderPending && c.mission == PaymentPending && Retired(a, c, e, true)
         case StatusSucceeded => i.state == PaymentState.Succeeded && c.mission == PaymentSucceeded && Retired(a, c, e, false)
         case StatusFailed => i.state == FailedTerminal && c.mission == PaymentFailed && Retired(a, c, e, false)
  }

  /** What the answer to the first create makes of the payment, in any run. */
  lemma FirstAnswer(idempotent: bool, b: Bound, ledger: seq<AuditEvent>, now: Time, steps: seq<Step>, p: nat, io: Io)
    requires ReadyToPay(ledger)
    ensures var s := Run(idempotent, Start(b, ledger, now), steps);
            AsksFirst(idempotent, s, p, io, b) ==>
              var t := Next(idempotent, s, Asking(idempotent, p, io));
              t.creates == s.creates + 1 && Concluded(b, s.db, t.db, PcOf(s, p).event, io.answer.payment)
  {
    hide Run, Start;
    var s := Run(idempotent, Start(b, ledger, now), steps);
    if AsksFirst(idempotent, s, p, io, b) {
      StartIsSafe(idempotent, b, ledger, now);
      StartBound(b, ledger, now);
      RunIsSafe(idempotent, Start(b, ledger, now), steps);
      MissionFollowsPayment(idempotent, b, ledger, now, steps);
      FirstAnswerStep(idempotent, s, p, io, b);
    }
  }

  lemma FirstAnswerStep(idempotent: bool, s: Sys, p: nat, io: Io, b: Bound)
    requires Inv(idempotent, s) && AsksFirst(idempotent, s, p, io, b) && s.db.intent.bound == b && s.db.mission == PaymentPending
    ensures var t := Next(idempotent, s, Asking(idempotent, p, io));
            t.creates == s.creates + 1 && Concluded(b, s.db, t.db, PcOf(s, p).event, io.answer.payment)
  {
    hide DispatchFenced, DispatchBegin, CreateSection, Sound, Concluded;
    RestShapes(idempotent, s.db);
    var pc := PcOf(s, p);
    if idempotent { DispatchTable(true, s.db, pc.event, io, pc.now); } else { FencedTable(s.db, pc.event, true, io, pc.now); }
    CreateConcludes(idempotent, s.db, pc.event, io, pc.now);
  }

  lemma CreateConcludes(idempotent: bool, db: Db, e: nat, io: Io, now: Time)
    requires Unanswered(db) && e < |db.outbox| && db.mission == PaymentPending
    requires io.stillAuthorized && io.lookup.NotFound? && io.answer.Answered?
    ensures var t := CreateSection(idempotent, db, e, io, now);
            t.Commit? && t.creates == 1 && Concluded(db.intent.bound, db, t.db, e, io.answer.payment)
  {
    hide CreateSection;
    CreateTable(idempotent, db, e, io, now);
    assert NamesUs(db.intent.bound, io.answer.payment) <==> Ours(db.intent, io.answer.payment);
  }

  // ---- Foreign payments --------------------------------------------------------------------

  /** The payment differs from the intent in its provider, amount, currency or key, or from the
      reference already held. */
  predicate Foreign(b: Bound, held: Option<string>, p: Payment) {
    || p.provider != b.provider || p.amount != b.amount || p.currency != b.currency
    || (p.key.Some? && p.key != Some(b.key)) || (held.None? && p.key.None?)
    || (held.Some? && held != Some(p.reference))
  }

  /** A worker at a reconcile row finds such a payment. */
  ghost predicate FindsForeign(b: Bound, s: Sys, step: Step) {
    && (step.Handle? || step.Resume?) && step.io.lookup.Found? && Foreign(b, s.db.intent.refs.reference, step.io.lookup.payment)
    && !PcOf(s, step.p).Idle? && PcOf(s, step.p).event < |s.db.outbox| && s.db.outbox[PcOf(s, step.p).event].kind.ReconcileRequested?
  }

  predicate Untouched(a: Db, c: Db) {
    c.intent.state == a.intent.state && c.intent.refs == a.intent.refs && c.mission == a.mission && c.intent.attempts == a.intent.attempts
  }

  /** A reconciliation that finds such a payment leaves state, mission, attempts and every provider
      column as they were. */
  lemma ForeignPaymentIsNotAdopted(idempotent: bool, b: Bound, ledger: seq<AuditEvent>, now: Time, steps: seq<Step>, step: Step)
    requires ReadyToPay(ledger)
    ensures var s := Run(idempotent, Start(b, ledger, now), steps);
            FindsForeign(b, s, step) ==> Untouched(s.db, Next(idempotent, s, step).db)
  {
    hide Run, Start, Next, FindsForeign, Untouched;
    StartIsSafe(idempotent, b, ledger, now);
    StartBound(b, ledger, now);
    RunIsSafe(idempotent, Start(b, ledger, now), steps);
    var s := Run(idempotent, Start(b, ledger, now), steps);
    if FindsForeign(b, s, step) { ForeignStep(idempotent, s, step); }
  }

  lemma ForeignStep(idempotent: bool, s: Sys, step: Step)
    requires Inv(idempotent, s) && FindsForeign(s.db.intent.bound, s, step)
    ensures Untouched(s.db, Next(idempotent, s, step).db)
  {
    hide ReconcileSection, Sound, Foreign;
    RestShapes(idempotent, s.db);
    if !IsTerminal(s.db.intent.state) {
      ForeignPoll(idempotent, s.db, PcOf(s, step.p).event, step.io, PcOf(s, step.p).now);
      ForeignPoll(false, s.db, PcOf(s, step.p).event, step.io, PcOf(s, step.p).now);
    }
  }

  lemma ForeignPoll(idempotent: bool, db: Db, e: nat, io: Io, now: Time)
    requires UnlinkedIsBlank(db.intent.refs) && Unsettled(db.intent.state) && e < |db.outbox|
    requires db.intent.state.ProviderPending? || (db.intent.refs.reference.None? && db.intent.ambiguousAt.None?)
    requires io.lookup.Found? && Foreign(db.intent.bound, db.intent.refs.reference, io.lookup.payment)
    ensures var t := ReconcileSection(idempotent, db, e, io, now);
            t.Commit? && t.db.intent.state == db.intent.state && t.db.intent.refs == db.intent.refs
            && t.db.mission == db.mission && t.db.intent.attempts == db.intent.attempts
  {
    hide AnswerFound, RecordAttempt, AfterAnswer;
    if db.intent.ambiguousAt.None? { FoundTable(db, e, io.lookup.payment, now); }
  }
}
