/** Safety of the payment protocol over every interleaving of its steps. */
module ProtocolProofs {
  import opened Vocabulary
  import opened AuditEvents
  import opened ReplayCore
  import opened Tables
  import opened Executor
  import opened ExecutorProofs
  import opened Reconciliation
  import opened ReconciliationProofs
  import opened Webhooks
  import opened WebhookProofs
  import opened Protocol

  // ---- Outbox bookkeeping ------------------------------------------------------------------

  predicate KindsKept(a: seq<OutboxRow>, b: seq<OutboxRow>) {
    |a| <= |b| && forall i :: 0 <= i < |a| ==> b[i].kind == a[i].kind
  }

  /** Each way a section retires its row keeps the table and leaves an unsettled intent instructed. */
  lemma RetiredIsInstructed(a: Db, b: Db, e: nat, now: Time)
    requires e < |a.outbox|
    requires || (Closed(a, b, e) && IsTerminal(b.intent.state)) || Deferred(a, b, e, now)
             || Delegated(a, b, e, CreateRequested, now) || Delegated(a, b, e, ReconcileRequested, now)
    ensures KindsKept(a.outbox, b.outbox) && Instructed(b)
  {
    if Deferred(a, b, e, now) {
      assert !b.outbox[e].status.Processed?;
    } else if !Closed(a, b, e) {
      assert !b.outbox[|a.outbox|].status.Processed?;
    }
  }

  /** Processes other than `p` are where they were, over rows that kept their kind. */
  lemma OthersStaySane(idempotent: bool, s: Sys, t: Sys, p: nat, pc: Pc)
    requires forall q | q in s.pcs :: PcSane(idempotent, s, s.pcs[q])
    requires t.pcs == s.pcs[p := pc] && PcSane(idempotent, t, pc)
    requires KindsKept(s.db.outbox, t.db.outbox) && Kept(s.db.intent.fencedAt, t.db.intent.fencedAt)
    ensures forall q | q in t.pcs :: PcSane(idempotent, t, t.pcs[q])
  {
  }

  /** A step's obligations together with replay's. */
  ghost predicate StepInStep(idempotent: bool, a: Sys, b: Sys, brought: Option<Payment>) {
    StepSafe(idempotent, a, b, brought) && InStep(a.db, b.db)
  }

  // ---- Handler sections --------------------------------------------------------------------

  /** A section's commit, as a step of process `p`. */
  ghost predicate SectionSafe(idempotent: bool, a: Db, t: Turn, e: nat, brought: Option<Payment>, now: Time)
    requires e < |a.outbox|
  {
    t.Commit? ==>
      && Advances(idempotent, a, t.db) && LinkJustified(a.intent, t.db.intent, brought)
      && KindsKept(a.outbox, t.db.outbox) && Instructed(t.db)
  }

  lemma BeginHandlerSafe(idempotent: bool, s: Sys, e: nat, io: Io, now: Time)
    requires Inv(idempotent, s) && e < |s.db.outbox|
    ensures var b := BeginHandler(idempotent, s.db, e, io, now);
            && (b.Ended? ==> SectionSafe(idempotent, s.db, b.turn, e, Offered(io), now))
            && (b.Ended? && (!idempotent || s.db.intent.ambiguousAt.Some?) ==> b.turn.creates == 0)
            && (b.NeedsFence? ==> !idempotent && !b.requeue)
  {
    var b := BeginHandler(idempotent, s.db, e, io, now);
    if s.db.outbox[e].kind.CreateRequested? { DispatchBeginAdvances(idempotent, s.db, e, io, now); }
    else { ReconcileBeginAdvances(idempotent, s.db, e, io, now); }
    if b.Ended? && b.turn.Commit? { RetiredIsInstructed(s.db, b.turn.db, e, now); }
  }

  lemma ResumeHandlerSafe(s: Sys, e: nat, acquired: bool, io: Io, now: Time)
    requires Inv(false, s) && e < |s.db.outbox|
    requires s.db.outbox[e].kind.ReconcileRequested? ==> s.db.intent.fencedAt.Some?
    ensures var t := ResumeHandler(s.db, e, acquired, io, now);
            && SectionSafe(false, s.db, t, e, Offered(io), now)
            && t.creates <= (if acquired then 1 else 0)
            && (s.db.intent.ambiguousAt.Some? || s.db.intent.fencedAt.None? ==> t.creates == 0)
  {
    var t := ResumeHandler(s.db, e, acquired, io, now);
    if s.db.outbox[e].kind.CreateRequested? { DispatchFencedAdvances(s.db, e, acquired, io, now); }
    else { ReconcileFencedAdvances(s.db, e, io, now); }
    if t.Commit? { RetiredIsInstructed(s.db, t.db, e, now); }
  }

  // ---- One lemma per step ------------------------------------------------------------------

  /** Ending a turn that made `t.creates` calls, none unless this process may make one. */
  lemma EndTurnSafe(idempotent: bool, s: Sys, p: nat, e: nat, now: Time, t: Turn, brought: Option<Payment>)
    requires Inv(idempotent, s) && e < |s.db.outbox| && p in s.pcs
    requires SectionSafe(idempotent, s.db, t, e, brought, now)
    requires !idempotent ==> t.creates <= (if Winner(s.pcs[p]) then 1 else 0)
    requires s.db.intent.ambiguousAt.Some? ==> t.creates == 0
    ensures StepInStep(idempotent, s, EndTurn(s, p, e, now, t), brought)
  {
  }

  lemma HandleSafe(idempotent: bool, s: Sys, p: nat, io: Io)
    requires Inv(idempotent, s)
    ensures StepInStep(idempotent, s, Next(idempotent, s, Handle(p, io)), Offered(io))
  {
    var pc := PcOf(s, p);
    if pc.Working? && pc.event < |s.db.outbox| {
      BeginHandlerSafe(idempotent, s, pc.event, io, pc.now);
      var b := BeginHandler(idempotent, s.db, pc.event, io, pc.now);
      if b.NeedsFence? {
        OthersStaySane(idempotent, s, Next(idempotent, s, Handle(p, io)), p, Fencing(pc.event, pc.now, b.requeue));
      } else {
        EndTurnSafe(idempotent, s, p, pc.event, pc.now, b.turn, Offered(io));
      }
    }
  }

  lemma ResumeSafe(idempotent: bool, s: Sys, p: nat, io: Io)
    requires Inv(idempotent, s)
    ensures StepInStep(idempotent, s, Next(idempotent, s, Resume(p, io)), Offered(io))
  {
    var pc := PcOf(s, p);
    if pc.Fenced? && pc.event < |s.db.outbox| {
      assert PcSane(idempotent, s, s.pcs[p]);
      ResumeHandlerSafe(s, pc.event, pc.acquired, io, pc.now);
      EndTurnSafe(idempotent, s, p, pc.event, pc.now, ResumeHandler(s.db, pc.event, pc.acquired, io, pc.now), Offered(io));
    }
  }

  /** The fence column alone changes, and only from blank. */
  lemma FenceRows(idempotent: bool, db: Db, now: Time)
    requires Sound(db) && AtRest(idempotent, db.intent)
    ensures var d := db.(intent := db.intent.(fencedAt := Some(now)));
            Sound(d) && AtRest(idempotent, d.intent) && (db.intent.fencedAt.None? ==> Evolves(db, d))
    ensures Evolves(db, db)
  {
  }

  /** The compare-and-set: a new winner exists only where there was no fence. */
  lemma FenceSafe(idempotent: bool, s: Sys, p: nat)
    requires Inv(idempotent, s)
    ensures StepInStep(idempotent, s, Next(idempotent, s, CommitFence(p)), None)
  {
    hide Sound, InStep, LedgerGrows;
    var pc := PcOf(s, p);
    FenceRows(idempotent, s.db, if pc.Fencing? then pc.now else 0);
    if pc.Fencing? && pc.event < |s.db.outbox| {
      assert PcSane(idempotent, s, s.pcs[p]);
      var s' := Next(idempotent, s, CommitFence(p));
      OthersStaySane(idempotent, s, s', p, s'.pcs[p]);
      forall q | q in s'.pcs && Winner(s'.pcs[q]) ensures s'.db.intent.fencedAt.Some? && s'.creates == 0 {
        if q != p { assert Winner(s.pcs[q]); }
      }
    }
  }

  lemma ClaimSafe(idempotent: bool, s: Sys, p: nat, worker: string, e: nat, now: Time, lease: nat)
    requires Inv(idempotent, s)
    ensures StepInStep(idempotent, s, Next(idempotent, s, Claim(p, worker, e, now, lease)), None)
  {
    if PcOf(s, p).Idle? && e < |s.db.outbox| && Due(s.db.outbox[e], now) {
      var s' := Next(idempotent, s, Claim(p, worker, e, now, lease));
      OthersStaySane(idempotent, s, s', p, Claimed(e, worker, now));
      assert !s'.db.outbox[e].status.Processed?;
    }
  }

  lemma LoadSafe(idempotent: bool, s: Sys, p: nat)
    requires Inv(idempotent, s)
    ensures StepInStep(idempotent, s, Next(idempotent, s, Load(p)), None)
  {
    var s' := Next(idempotent, s, Load(p));
    if s' != s { OthersStaySane(idempotent, s, s', p, s'.pcs[p]); }
  }

  lemma RecoverSafe(idempotent: bool, s: Sys, p: nat)
    requires Inv(idempotent, s)
    ensures StepInStep(idempotent, s, Next(idempotent, s, Recover(p)), None)
  {
    var pc := PcOf(s, p);
    if pc.Failed? && pc.event < |s.db.outbox| {
      var s' := Next(idempotent, s, Recover(p));
      OthersStaySane(idempotent, s, s', p, Idle);
      assert !s'.db.outbox[pc.event].status.Processed?;
    }
  }

  /** A process may die before or after its create call; the rows do not learn which. */
  lemma DieSafe(idempotent: bool, s: Sys, p: nat, io: Io, afterCall: bool)
    requires Inv(idempotent, s)
    ensures StepInStep(idempotent, s, Next(idempotent, s, Die(p, io, afterCall)), None)
  {
    var pc := PcOf(s, p);
    var s' := Next(idempotent, s, Die(p, io, afterCall));
    if pc.Working? && pc.event < |s.db.outbox| { BeginHandlerSafe(idempotent, s, pc.event, io, pc.now); }
    if pc.Fenced? && pc.event < |s.db.outbox| {
      assert PcSane(idempotent, s, s.pcs[p]);
      ResumeHandlerSafe(s, pc.event, pc.acquired, io, pc.now);
    }
    OthersStaySane(idempotent, s, s', p, Idle);
    if !idempotent {
      forall q | q in s'.pcs && Winner(s'.pcs[q]) ensures s'.db.intent.fencedAt.Some? && s'.creates == 0 {
        assert q != p && Winner(s.pcs[q]);
      }
    }
  }

  lemma RowsOnlySafe(idempotent: bool, s: Sys, db: Db)
    requires Inv(idempotent, s) && Advances(idempotent, s.db, db) && db.outbox == s.db.outbox
    requires db.intent.refs.reference == s.db.intent.refs.reference
    ensures StepInStep(idempotent, s, s.(db := db), None)
  {
  }

  lemma DeliverSafe(idempotent: bool, s: Sys, h: Hook)
    requires Inv(idempotent, s)
    ensures StepInStep(idempotent, s, Next(idempotent, s, Deliver(h)), None)
  {
    HandleWebhookAdvances(idempotent, s.db, h);
    RowsOnlySafe(idempotent, s, DeliverOne(s.db, h));
  }

  lemma ReusePayloadReads(db: Db, observed: PaymentState)
    ensures Truthful(db.intent.bound, ReusePayload(db, observed)) && Truthful(db.intent.bound, ConflictPayload(db))
  {
  }

  /** An event that narrates and nothing else. */
  lemma NarrationSafe(idempotent: bool, s: Sys, t: EventType, p: Payload)
    requires Inv(idempotent, s) && Narrates(t, p, s.db.intent.state) && Truthful(s.db.intent.bound, p)
    ensures StepInStep(idempotent, s, s.(db := Append(s.db, t, p)), None)
  {
    hide Sound, Evolves, Truthful;
    AppendNarrates(s.db, t, p);
    RowsOnlySafe(idempotent, s, Append(s.db, t, p));
  }

  lemma ConflictSafe(idempotent: bool, s: Sys)
    requires Inv(idempotent, s)
    ensures StepInStep(idempotent, s, Next(idempotent, s, ConflictingRequest), None)
  {
    hide StepInStep, Inv, ConflictPayload, Truthful;
    ReusePayloadReads(s.db, s.db.intent.state);
    NarrationSafe(idempotent, s, EvIdempotencyConflict, ConflictPayload(s.db));
  }

  lemma RefusalPayloadReads(b: Bound, t: EventType)
    requires Refuses(t)
    ensures Truthful(b, RefusalPayload(t)) && State !in RefusalPayload(t) && NamesStatus(t, RefusalPayload(t))
  {
  }

  lemma StandingStill(idempotent: bool, s: Sys)
    requires Inv(idempotent, s)
    ensures StepInStep(idempotent, s, s, None)
  {
  }

  /** The events of a refused request move nothing replay compares. */
  lemma RefusedSafe(idempotent: bool, s: Sys, t: EventType)
    requires Inv(idempotent, s)
    ensures StepInStep(idempotent, s, Next(idempotent, s, RefusedRequest(t)), None)
  {
    hide StepInStep, Inv, RefusalPayload, Truthful;
    StandingStill(idempotent, s);
    if Refuses(t) {
      RefusalPayloadReads(s.db.intent.bound, t);
      NarrationSafe(idempotent, s, t, RefusalPayload(t));
    }
  }

  /** A repeated request that reports a state read earlier, current or not. */
  lemma ReuseGrows(db: Db, observed: PaymentState)
    requires Sound(db)
    ensures var d := Append(db, EvIntentReused, ReusePayload(db, observed));
            && Sound(d) && Grows(db, d) && CoreOf(d.ledger).payment == Some(observed)
            && CoreOf(d.ledger).told == CoreOf(db.ledger).told + 1
  {
    ReusePayloadReads(db, observed);
    var d := Append(db, EvIntentReused, ReusePayload(db, observed));
    CoreOfAppend(db.ledger, d.ledger[|db.ledger|]);
  }

  lemma ReuseSafe(idempotent: bool, s: Sys, r: nat)
    requires Inv(idempotent, s)
    ensures StepSafe(idempotent, s, Next(idempotent, s, AppendReuse(r)), None)
  {
    if r in s.readers { ReuseGrows(s.db, s.readers[r]); }
  }

  lemma DeliverElsewhereSafe(idempotent: bool, s: Sys, id: string)
    requires Inv(idempotent, s)
    ensures StepInStep(idempotent, s, Next(idempotent, s, DeliverElsewhere(id)), None)
  {
    RowsOnlySafe(idempotent, s, Next(idempotent, s, DeliverElsewhere(id)).db);
  }

  // ---- Every step, every run ---------------------------------------------------------------

  /** Every step keeps the invariant and everything that is never undone. */
  lemma StepIsSafe(idempotent: bool, s: Sys, step: Step)
    requires Inv(idempotent, s)
    ensures StepSafe(idempotent, s, Next(idempotent, s, step), Brought(step))
    ensures !step.AppendReuse? ==> InStep(s.db, Next(idempotent, s, step).db)
  {
    match step
    case Claim(p, worker, e, now, lease) => ClaimSafe(idempotent, s, p, worker, e, now, lease);
    case Load(p) => LoadSafe(idempotent, s, p);
    case Handle(p, io) => HandleSafe(idempotent, s, p, io);
    case CommitFence(p) => FenceSafe(idempotent, s, p);
    case Resume(p, io) => ResumeSafe(idempotent, s, p, io);
    case Recover(p) => RecoverSafe(idempotent, s, p);
    case Die(p, io, afterCall) => DieSafe(idempotent, s, p, io, afterCall);
    case Deliver(h) => DeliverSafe(idempotent, s, h);
    case DeliverElsewhere(id) => DeliverElsewhereSafe(idempotent, s, id);
    case ReadIntent(r) =>
    case AppendReuse(r) => ReuseSafe(idempotent, s, r);
    case ConflictingRequest => ConflictSafe(idempotent, s);
    case RefusedRequest(t) => RefusedSafe(idempotent, s, t);
  }
}
