/** The protocol's guarantees, stated over whole runs from a committed payment request. */
module ProtocolTheorems {
  import opened Vocabulary
  import opened AuditEvents
  import opened ReplayCore
  import opened Tables
  import opened Executor
  import opened ExecutorProofs
  import opened Reconciliation
  import opened ReconciliationProofs
  import opened Protocol
  import opened ProtocolProofs

  // ---- The start of a run: what a successful payment request commits -------------------------

  function NewIntent(b: Bound): Intent {
    Intent(b, Queued, 0, None, NO_REFS, None, None, [Created, Queued])
  }

  function ConsumedPayload(): Payload { map[Status := JStr(StatusName(AuthConsumed))] }

  function CreatedPayload(b: Bound): Payload {
    map[IntentId := JText(b.id), IdempotencyKey := JText(b.key), AmountInr := JInt(b.amount),
        Currency := JText(b.currency), Provider := JText(b.provider)]
  }

  function QueuedPayload(b: Bound): Payload { map[IntentId := JText(b.id), State := JState(Queued)] }

  /** One transaction: the intent, the consumed authorization, three audit events, the create
      instruction and the mission move. */
  function CommitRequest(b: Bound, mission: MissionState, ledger: seq<AuditEvent>, now: Time): Db {
    var inserted := Db(NewIntent(b), mission, [], ledger, map[]);
    var consumed := Append(inserted, EvAuthorizationConsumed, ConsumedPayload());
    var created := Append(consumed, EvIntentCreated, CreatedPayload(b));
    var queued := Append(created, EvQueued, QueuedPayload(b));
    ApplyMission(Enqueue(queued, CreateRequested, now), PaymentPending)
  }

  /** A mission ready to pay: authorized, as its ledger says too, and never attempted. */
  predicate ReadyToPay(ledger: seq<AuditEvent>) {
    CoreOf(ledger).mission == Some(Authorized) && CoreOf(ledger).attempts == 0
  }

  function Start(b: Bound, ledger: seq<AuditEvent>, now: Time): Sys {
    Sys(CommitRequest(b, Authorized, ledger, now), map[], map[], 0, 0)
  }

  lemma RequestPayloadsRead(b: Bound)
    ensures ReadablePayload(ConsumedPayload()) && ReadablePayload(CreatedPayload(b)) && ReadablePayload(QueuedPayload(b))
  {
  }

  /** The authorization and creation events name no state. */
  lemma InertEvent(ledger: seq<AuditEvent>, e: AuditEvent)
    requires e.tag == Known(EvAuthorizationConsumed) || e.tag == Known(EvIntentCreated)
    requires e.payload.JObject?
    ensures CoreOf(ledger + [e]) == CoreOf(ledger)
  {
    CoreOfAppend(ledger, e);
  }

  lemma RequestLedger(b: Bound, ledger: seq<AuditEvent>, now: Time)
    requires ReadyToPay(ledger)
    ensures Agrees(CommitRequest(b, Authorized, ledger, now))
  {
    hide ConsumedPayload, CreatedPayload;
    var e1 := AuditEvent(|ledger|, |ledger|, Known(EvAuthorizationConsumed), ACTOR, JObject(ConsumedPayload()));
    var e2 := AuditEvent(|ledger| + 1, |ledger| + 1, Known(EvIntentCreated), ACTOR, JObject(CreatedPayload(b)));
    var e3 := AuditEvent(|ledger| + 2, |ledger| + 2, Known(EvQueued), ACTOR, JObject(QueuedPayload(b)));
    InertEvent(ledger, e1);
    InertEvent(ledger + [e1], e2);
    CoreOfAppend(ledger + [e1] + [e2], e3);
    assert CommitRequest(b, Authorized, ledger, now).ledger == ledger + [e1] + [e2] + [e3];
  }

  lemma RequestLedgerGrows(b: Bound, ledger: seq<AuditEvent>, now: Time)
    ensures LedgerGrows(ledger, CommitRequest(b, Authorized, ledger, now).ledger)
  {
    RequestPayloadsRead(b);
  }

  lemma StartIsSafe(idempotent: bool, b: Bound, ledger: seq<AuditEvent>, now: Time)
    requires ReadyToPay(ledger)
    ensures Inv(idempotent, Start(b, ledger, now))
  {
    RequestLedger(b, ledger, now);
    var db := Start(b, ledger, now).db;
    assert db.intent.history[..1] == [Created];
    assert !db.outbox[0].status.Processed?;
  }

  // ---- Runs --------------------------------------------------------------------------------

  /** From any state that satisfies the invariant, hence from any point of any run. */
  lemma {:induction false} RunIsSafe(idempotent: bool, s: Sys, steps: seq<Step>)
    requires Inv(idempotent, s)
    ensures var t := Run(idempotent, s, steps);
            && Inv(idempotent, t)
            && Grows(s.db, t.db) && Frozen(s.db.intent, t.db.intent)
            && s.creates <= t.creates
            && (s.db.intent.ambiguousAt.Some? ==> t.creates == s.creates)
    decreases |steps|
  {
    if steps != [] {
      var next := Next(idempotent, s, steps[0]);
      StepIsSafe(idempotent, s, steps[0]);
      RunIsSafe(idempotent, next, steps[1..]);
      GrowsTransitive(s.db, next.db, Run(idempotent, next, steps[1..]).db);
    }
  }

  /** A fenced provider is asked to create at most once, and is never made retryable. */
  lemma AtMostOneCreate(b: Bound, ledger: seq<AuditEvent>, now: Time, steps: seq<Step>)
    requires ReadyToPay(ledger)
    ensures var s := Run(false, Start(b, ledger, now), steps);
            s.creates <= 1 && !s.db.intent.state.FailedRetryable?
  {
    StartIsSafe(false, b, ledger, now);
    RunIsSafe(false, Start(b, ledger, now), steps);
  }

  /** The fence, the ambiguity mark and every provider identity are written at most once. */
  lemma WrittenOnce(idempotent: bool, b: Bound, ledger: seq<AuditEvent>, now: Time, steps: seq<Step>, more: seq<Step>)
    requires ReadyToPay(ledger)
    ensures var s := Run(idempotent, Start(b, ledger, now), steps);
            var t := Run(idempotent, s, more);
            && Kept(s.db.intent.fencedAt, t.db.intent.fencedAt)
            && Kept(s.db.intent.ambiguousAt, t.db.intent.ambiguousAt)
            && RefsKept(s.db.intent.refs, t.db.intent.refs)
            && s.db.intent.bound == t.db.intent.bound == b
  {
    StartIsSafe(idempotent, b, ledger, now);
    RunIsSafe(idempotent, Start(b, ledger, now), steps);
    RunIsSafe(idempotent, Run(idempotent, Start(b, ledger, now), steps), more);
  }

  /** In every reachable state an unsettled intent still has a live or dead-lettered instruction. */
  lemma NoLostInstruction(idempotent: bool, b: Bound, ledger: seq<AuditEvent>, now: Time, steps: seq<Step>)
    requires ReadyToPay(ledger)
    ensures var db := Run(idempotent, Start(b, ledger, now), steps).db;
            || IsTerminal(db.intent.state)
            || exists e :: 0 <= e < |db.outbox| &&
                 (db.outbox[e].status.Pending? || db.outbox[e].status.InProgress? || db.outbox[e].status.DeadLettered?)
  {
    StartIsSafe(idempotent, b, ledger, now);
    RunIsSafe(idempotent, Start(b, ledger, now), steps);
    var db := Run(idempotent, Start(b, ledger, now), steps).db;
    if !IsTerminal(db.intent.state) {
      var e :| 0 <= e < |db.outbox| && !db.outbox[e].status.Processed?;
      assert db.outbox[e].status.Pending? || db.outbox[e].status.InProgress? || db.outbox[e].status.DeadLettered?;
    }
  }

  /** Once ambiguity was observed, nothing settles, links or creates: whatever follows. */
  lemma AmbiguityFreezes(idempotent: bool, b: Bound, ledger: seq<AuditEvent>, now: Time, steps: seq<Step>, more: seq<Step>)
    requires ReadyToPay(ledger)
    requires Run(idempotent, Start(b, ledger, now), steps).db.intent.ambiguousAt.Some?
    ensures var s := Run(idempotent, Start(b, ledger, now), steps);
            var t := Run(idempotent, s, more);
            && t.db.intent.ambiguousAt == s.db.intent.ambiguousAt
            && t.db.intent.state.ProviderPending? && t.db.intent.reason == Some(ProviderAmbiguity)
            && t.db.intent.refs == s.db.intent.refs && t.creates == s.creates
  {
    StartIsSafe(idempotent, b, ledger, now);
    RunIsSafe(idempotent, Start(b, ledger, now), steps);
    RunIsSafe(idempotent, Run(idempotent, Start(b, ledger, now), steps), more);
  }

  /** CREATED and PROCESSING are never committed; links, settlements and blanks agree. */
  lemma CommitPoint(idempotent: bool, b: Bound, ledger: seq<AuditEvent>, now: Time, steps: seq<Step>)
    requires ReadyToPay(ledger)
    ensures var i := Run(idempotent, Start(b, ledger, now), steps).db.intent;
            && !i.state.Created? && !i.state.Processing? && !i.state.Cancelled?
            && (i.refs.reference.Some? ==> i.state.ProviderPending? || IsTerminal(i.state))
            && (i.refs.reference.None? ==> i.refs.order.None? && i.refs.receipt.None? && i.refs.transaction.None?)
            && (i.state.Succeeded? ==> i.refs.reference.Some?)
  {
    StartIsSafe(idempotent, b, ledger, now);
    RunIsSafe(idempotent, Start(b, ledger, now), steps);
  }

  /** A reference appears only in a step that brought a response naming this provider, amount,
      currency and idempotency key. */
  lemma ReferenceIsOurs(idempotent: bool, b: Bound, ledger: seq<AuditEvent>, now: Time, steps: seq<Step>, step: Step)
    requires ReadyToPay(ledger)
    ensures var s := Run(idempotent, Start(b, ledger, now), steps);
            var t := Next(idempotent, s, step);
            t.db.intent.refs.reference != s.db.intent.refs.reference ==>
              && s.db.intent.refs.reference.None?
              && Brought(step).Some?
              && var p := Brought(step).value;
                 && t.db.intent.refs.reference == Some(p.reference)
                 && p.provider == b.provider && p.amount == b.amount && p.currency == b.currency && p.key == Some(b.key)
  {
    StartIsSafe(idempotent, b, ledger, now);
    RunIsSafe(idempotent, Start(b, ledger, now), steps);
    StepIsSafe(idempotent, Run(idempotent, Start(b, ledger, now), steps), step);
  }

  lemma {:induction false} PathPairs(h: seq<PaymentState>, k: nat)
    requires LawfulPath(h) && 0 < k < |h|
    ensures Allowed(h[k - 1], h[k])
  {
    if k < |h| - 1 { PathPairs(h[..|h| - 1], k); }
  }

  /** Every value ever written to the state column follows the table, and a settled payment never moves. */
  lemma HistoryIsAPath(idempotent: bool, b: Bound, ledger: seq<AuditEvent>, now: Time, steps: seq<Step>, more: seq<Step>)
    requires ReadyToPay(ledger)
    ensures var s := Run(idempotent, Start(b, ledger, now), steps);
            var t := Run(idempotent, s, more);
            && (forall j, k :: 0 <= j < k < |s.db.intent.history| && k == j + 1 ==>
                  Allowed(s.db.intent.history[j], s.db.intent.history[k]))
            && s.db.intent.history <= t.db.intent.history
            && (IsTerminal(s.db.intent.state) ==> t.db.intent.state == s.db.intent.state)
  {
    hide Run, Start;
    StartIsSafe(idempotent, b, ledger, now);
    RunIsSafe(idempotent, Start(b, ledger, now), steps);
    var s := Run(idempotent, Start(b, ledger, now), steps);
    RunIsSafe(idempotent, s, more);
    forall j, k | 0 <= j < k < |s.db.intent.history| && k == j + 1
      ensures Allowed(s.db.intent.history[j], s.db.intent.history[k])
    {
      PathPairs(s.db.intent.history, k);
    }
  }

  // ---- How far replay follows --------------------------------------------------------------

  /** Did the last event that named a payment state name a stale one? A repeated request reads the
      state, and appends its event later: it is stale when the state has moved in between. Any other
      event that names a state ends the lag. */
  ghost predicate LagAfter(idempotent: bool, s: Sys, step: Step, lag: bool) {
    if step.AppendReuse? && step.request in s.readers then s.readers[step.request] != s.db.intent.state
    else lag && CoreOf(Next(idempotent, s, step).db.ledger).told == CoreOf(s.db.ledger).told
  }

  ghost predicate Lagging(idempotent: bool, s: Sys, steps: seq<Step>, lag: bool)
    decreases |steps|
  {
    if steps == [] then lag
    else Lagging(idempotent, Next(idempotent, s, steps[0]), steps[1..], LagAfter(idempotent, s, steps[0], lag))
  }

  lemma LagStep(idempotent: bool, s: Sys, step: Step, lag: bool)
    requires Inv(idempotent, s) && (Told(s.db) <==> !lag)
    ensures Told(Next(idempotent, s, step).db) <==> !LagAfter(idempotent, s, step, lag)
  {
    if step.AppendReuse? {
      if step.request in s.readers { ReuseGrows(s.db, s.readers[step.request]); }
    } else {
      StepIsSafe(idempotent, s, step);
    }
  }

  lemma {:induction false} LagRun(idempotent: bool, s: Sys, steps: seq<Step>, lag: bool)
    requires Inv(idempotent, s) && (Told(s.db) <==> !lag)
    ensures Told(Run(idempotent, s, steps).db) <==> !Lagging(idempotent, s, steps, lag)
    decreases |steps|
  {
    if steps != [] {
      StepIsSafe(idempotent, s, steps[0]);
      LagStep(idempotent, s, steps[0], lag);
      LagRun(idempotent, Next(idempotent, s, steps[0]), steps[1..], LagAfter(idempotent, s, steps[0], lag));
    }
  }

  /** Mission and attempts are always what replay says; the payment state is, exactly unless the
      last event that named one was a repeated request's stale report. */
  lemma AgreesUnlessLagging(idempotent: bool, b: Bound, ledger: seq<AuditEvent>, now: Time, steps: seq<Step>)
    requires ReadyToPay(ledger)
    ensures var db := Run(idempotent, Start(b, ledger, now), steps).db;
            Tallies(db) && (Agrees(db) <==> !Lagging(idempotent, Start(b, ledger, now), steps, false))
  {
    RequestLedger(b, ledger, now);
    StartIsSafe(idempotent, b, ledger, now);
    RunIsSafe(idempotent, Start(b, ledger, now), steps);
    LagRun(idempotent, Start(b, ledger, now), steps, false);
  }

  /** Every repeated request that appends reports the state committed at that moment. */
  ghost predicate Timely(idempotent: bool, s: Sys, steps: seq<Step>)
    decreases |steps|
  {
    steps == [] ||
    (&& (steps[0].AppendReuse? && steps[0].request in s.readers ==> s.readers[steps[0].request] == s.db.intent.state)
     && Timely(idempotent, Next(idempotent, s, steps[0]), steps[1..]))
  }

  lemma {:induction false} TimelyNeverLags(idempotent: bool, s: Sys, steps: seq<Step>)
    requires Timely(idempotent, s, steps)
    ensures !Lagging(idempotent, s, steps, false)
    decreases |steps|
  {
    if steps != [] { TimelyNeverLags(idempotent, Next(idempotent, s, steps[0]), steps[1..]); }
  }

  /** A stale report does not outlive the payment's next move: any step that changes the committed
      state leaves replay in agreement again. */
  lemma NextMoveCatchesUp(idempotent: bool, b: Bound, ledger: seq<AuditEvent>, now: Time, steps: seq<Step>, step: Step)
    requires ReadyToPay(ledger)
    ensures var s := Run(idempotent, Start(b, ledger, now), steps);
            var t := Next(idempotent, s, step);
            t.db.intent.state != s.db.intent.state ==> Agrees(t.db)
  {
    hide Run;
    StartIsSafe(idempotent, b, ledger, now);
    RunIsSafe(idempotent, Start(b, ledger, now), steps);
    StepIsSafe(idempotent, Run(idempotent, Start(b, ledger, now), steps), step);
  }
}
