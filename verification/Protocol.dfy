/** The payment protocol as a transition system: worker processes that claim outbox rows, run the
    sections of their handlers, crash anywhere, and race with webhooks and repeated requests. */
module Protocol {
  import opened Vocabulary
  import opened AuditEvents
  import opened ReplayCore
  import opened Tables
  import opened Executor
  import opened ExecutorProofs
  import opened Reconciliation
  import opened ReconciliationProofs
  import opened Webhooks
  import opened WebhookProofs

  // ---- State -------------------------------------------------------------------------------

  /** Where a worker process stands between two commits. */
  datatype Pc =
    | Idle
    | Claimed(event: nat, worker: string, now: Time)          // claim committed, row not yet loaded
    | Working(event: nat, now: Time)                          // ownership checked, handler not started
    | Fencing(event: nat, now: Time, requeue: bool)           // first section read, fence not committed
    | Fenced(event: nat, now: Time, acquired: bool)           // fence committed, row not yet relocked
    | Failed(event: nat, now: Time)                           // handler rolled back, recovery not run

  /** The committed rows, the worker processes, the repeated requests that have read the payment
      state and not yet written their event, and two counters no code reads: create calls that
      reached the provider, and successful claims. */
  datatype Sys = Sys(db: Db, pcs: map<nat, Pc>, readers: map<nat, PaymentState>, creates: nat, claims: nat)

  function PcOf(s: Sys, p: nat): Pc { if p in s.pcs then s.pcs[p] else Idle }

  datatype Step =
    | Claim(p: nat, worker: string, event: nat, now: Time, lease: nat)
    | Load(p: nat)
    | Handle(p: nat, io: Io)
    | CommitFence(p: nat)
    | Resume(p: nat, io: Io)
    | Recover(p: nat)
    | Die(p: nat, io: Io, afterCall: bool)
    | Deliver(hook: Hook)
    | DeliverElsewhere(eventId: string)
    | ReadIntent(request: nat)
    | AppendReuse(request: nat)
    | ConflictingRequest
    | RefusedRequest(refusal: EventType)

  // ---- Steps -------------------------------------------------------------------------------

  predicate Due(row: OutboxRow, now: Time) {
    (row.status.Pending? || row.status.InProgress?) && row.availableAt <= now
  }

  function ClaimRow(row: OutboxRow, worker: string, until: Time): OutboxRow {
    row.(status := InProgress, attempts := row.attempts + 1, claimedBy := Some(worker), availableAt := until)
  }

  function BeginHandler(idempotent: bool, db: Db, e: nat, io: Io, now: Time): Begun
    requires e < |db.outbox|
  {
    if db.outbox[e].kind.CreateRequested? then DispatchBegin(idempotent, db, e, io, now)
    else ReconcileBegin(idempotent, db, e, io, now)
  }

  function ResumeHandler(db: Db, e: nat, acquired: bool, io: Io, now: Time): Turn
    requires e < |db.outbox|
  {
    if db.outbox[e].kind.CreateRequested? then DispatchFenced(db, e, acquired, io, now)
    else ReconcileFenced(db, e, io, now)
  }

  /** A section ended: its commit becomes visible, or it is rolled back and awaits recovery. */
  function EndTurn(s: Sys, p: nat, e: nat, now: Time, t: Turn): Sys {
    match t
    case Commit(db, creates) => s.(db := db, creates := s.creates + creates, pcs := s.pcs[p := Idle])
    case Abort(creates) => s.(creates := s.creates + creates, pcs := s.pcs[p := Failed(e, now)])
  }

  function FenceStep(s: Sys, p: nat, e: nat, now: Time, requeue: bool): Sys
    requires e < |s.db.outbox|
  {
    if s.db.outbox[e].kind.CreateRequested? then
      var flushed := if requeue then s.db.(intent := WithState(s.db.intent, Queued)) else s.db;
      s.(db := AcquireFence(s.db, requeue, now), pcs := s.pcs[p := Fenced(e, now, FenceWon(flushed))])
    else
      s.(db := SealFence(s.db, now), pcs := s.pcs[p := Fenced(e, now, false)])
  }

  /** The create calls a process may have made by the time it dies. */
  function CallsBeforeDeath(idempotent: bool, s: Sys, p: nat, io: Io): nat {
    match PcOf(s, p)
    case Working(e, now) =>
      if e < |s.db.outbox| && BeginHandler(idempotent, s.db, e, io, now).Ended?
      then BeginHandler(idempotent, s.db, e, io, now).turn.creates else 0
    case Fenced(e, now, acquired) =>
      if e < |s.db.outbox| then ResumeHandler(s.db, e, acquired, io, now).creates else 0
    case _ => 0
  }

  function ReusePayload(db: Db, observed: PaymentState): Payload {
    map[IntentId := JText(db.intent.bound.id), IdempotencyKey := JText(db.intent.bound.key), State := JState(observed)]
  }

  /** The events a refused request may leave on the mission's ledger. */
  predicate Refuses(t: EventType) {
    t.EvAuthorizationReplayDetected? || t.EvTransactionBindingFailure? || t.EvAuthorizationExpired?
  }

  function RefusalPayload(t: EventType): Payload {
    if t.EvAuthorizationReplayDetected? then
      map[Status := JStr(StatusName(AuthConsumed)), ReasonCode := JText("AUTHORIZATION_REPLAY_DETECTED")]
    else if t.EvTransactionBindingFailure? then map[ReasonCode := JText("TRANSACTION_BINDING_FAILURE")]
    else map[Status := JStr(StatusName(AuthExpired))]
  }

  function ConflictPayload(db: Db): Payload {
    map[ReasonCode := JReason(Some(IdempotencyConflict)), IdempotencyKey := JText(db.intent.bound.key)]
  }

  /** One step; a step whose process is not at that point, or whose row is not due, changes nothing. */
  function Next(idempotent: bool, s: Sys, step: Step): Sys {
    match step
    case Claim(p, worker, e, now, lease) =>
      if PcOf(s, p).Idle? && e < |s.db.outbox| && Due(s.db.outbox[e], now) then
        s.(db := s.db.(outbox := s.db.outbox[e := ClaimRow(s.db.outbox[e], worker, now + lease)]),
           pcs := s.pcs[p := Claimed(e, worker, now)], claims := s.claims + 1)
      else s
    case Load(p) =>
      var pc := PcOf(s, p);
      if pc.Claimed? && pc.event < |s.db.outbox| then
        s.(pcs := s.pcs[p := if s.db.outbox[pc.event].claimedBy == Some(pc.worker) then Working(pc.event, pc.now) else Idle])
      else s
    case Handle(p, io) =>
      var pc := PcOf(s, p);
      if pc.Working? && pc.event < |s.db.outbox| then
        var b := BeginHandler(idempotent, s.db, pc.event, io, pc.now);
        if b.NeedsFence? then s.(pcs := s.pcs[p := Fencing(pc.event, pc.now, b.requeue)])
        else EndTurn(s, p, pc.event, pc.now, b.turn)
      else s
    case CommitFence(p) =>
      var pc := PcOf(s, p);
      if pc.Fencing? && pc.event < |s.db.outbox| then FenceStep(s, p, pc.event, pc.now, pc.requeue) else s
    case Resume(p, io) =>
      var pc := PcOf(s, p);
      if pc.Fenced? && pc.event < |s.db.outbox|
      then EndTurn(s, p, pc.event, pc.now, ResumeHandler(s.db, pc.event, pc.acquired, io, pc.now)) else s
    case Recover(p) =>
      var pc := PcOf(s, p);
      if pc.Failed? && pc.event < |s.db.outbox|
      then s.(db := Reschedule(s.db, pc.event, pc.now), pcs := s.pcs[p := Idle]) else s
    case Die(p, io, afterCall) =>
      s.(creates := s.creates + (if afterCall then CallsBeforeDeath(idempotent, s, p, io) else 0),
         pcs := s.pcs[p := Idle])
    case Deliver(h) => s.(db := DeliverOne(s.db, h))
    case DeliverElsewhere(id) =>
      if id in s.db.deliveries then s else s.(db := s.db.(deliveries := s.db.deliveries[id := None]))
    case ReadIntent(r) => s.(readers := s.readers[r := s.db.intent.state])
    case AppendReuse(r) =>
      if r in s.readers
      then s.(db := Append(s.db, EvIntentReused, ReusePayload(s.db, s.readers[r])), readers := s.readers - {r}) else s
    case RefusedRequest(t) => if Refuses(t) then s.(db := Append(s.db, t, RefusalPayload(t))) else s
    case ConflictingRequest => s.(db := Append(s.db, EvIdempotencyConflict, ConflictPayload(s.db)))
  }

  function Run(idempotent: bool, s: Sys, steps: seq<Step>): Sys
    decreases |steps|
  {
    if steps == [] then s else Run(idempotent, Next(idempotent, s, steps[0]), steps[1..])
  }

  // ---- Invariant ---------------------------------------------------------------------------

  /** No lost instruction: an unsettled intent has an outbox row that is queued, claimed or dead-lettered. */
  predicate Instructed(db: Db) {
    IsTerminal(db.intent.state) || exists e :: 0 <= e < |db.outbox| && !db.outbox[e].status.Processed?
  }

  predicate Winner(pc: Pc) { pc.Fenced? && pc.acquired }

  /** The create permission: spent at most once, and held by at most one process. */
  ghost predicate FenceHeld(s: Sys) {
    && s.creates <= 1
    && (s.db.intent.fencedAt.None? ==> s.creates == 0)
    && (forall p | p in s.pcs && Winner(s.pcs[p]) :: s.db.intent.fencedAt.Some? && s.creates == 0)
    && (forall p, q | p in s.pcs && q in s.pcs && Winner(s.pcs[p]) && Winner(s.pcs[q]) :: p == q)
  }

  /** What a process may be waiting to do. */
  ghost predicate PcSane(idempotent: bool, s: Sys, pc: Pc) {
    && (pc.Fencing? ==> !idempotent && !pc.requeue)
    && (pc.Fenced? ==>
          && !idempotent && pc.event < |s.db.outbox|
          && (s.db.outbox[pc.event].kind.ReconcileRequested? ==> s.db.intent.fencedAt.Some?))
  }

  ghost predicate Inv(idempotent: bool, s: Sys) {
    && Sound(s.db) && AtRest(idempotent, s.db.intent) && Instructed(s.db)
    && (forall p | p in s.pcs :: PcSane(idempotent, s, s.pcs[p]))
    && (!idempotent ==> FenceHeld(s))
  }

  /** The payment a step brings in from the provider. */
  function Brought(step: Step): Option<Payment> {
    match step
    case Handle(_, io) => if io.lookup.NotFound? then AnswerPayment(io.answer) else LookupPayment(io.lookup)
    case Resume(_, io) => if io.lookup.NotFound? then AnswerPayment(io.answer) else LookupPayment(io.lookup)
    case _ => None
  }

  /** What a step owes the state it started from. */
  ghost predicate StepSafe(idempotent: bool, a: Sys, b: Sys, brought: Option<Payment>) {
    && Inv(idempotent, b)
    && Grows(a.db, b.db) && Frozen(a.db.intent, b.db.intent)
    && |a.db.outbox| <= |b.db.outbox|
    && LinkJustified(a.db.intent, b.db.intent, brought)
    && a.creates <= b.creates
    && (a.db.intent.ambiguousAt.Some? ==> b.creates == a.creates)
  }
}
