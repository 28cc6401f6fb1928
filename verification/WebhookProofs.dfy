/** Webhook deliveries: safe beside the workers, idempotent, and settled once. */
module WebhookProofs {
  import opened Vocabulary
  import opened AuditEvents
  import opened Tables
  import opened Executor
  import opened ExecutorProofs
  import opened Webhooks

  lemma HookPayloadsRead(db: Db, h: Hook)
    requires h.provider == db.intent.bound.provider
    ensures Truthful(db.intent.bound, DeliveryPayload(db, h)) && State !in DeliveryPayload(db, h)
    ensures Truthful(db.intent.bound, HookPayload(h)) && State !in HookPayload(h)
  {
  }

  lemma DuplicatePayloadReads(db: Db, h: Hook)
    ensures Truthful(db.intent.bound, DuplicatePayload(db, h))
  {
  }

  lemma OutOfOrderPayloadReads(db: Db, h: Hook)
    ensures Truthful(db.intent.bound, OutOfOrderPayload(db, h))
  {
  }

  lemma EvidenceKept(i: Intent, h: Hook)
    requires i.refs.reference.Some? && EvidenceAgrees(i, h)
    ensures RefsKept(i.refs, StoreEvidence(i.refs, h)) && StoreEvidence(i.refs, h).reference == i.refs.reference
  {
  }

  function Noted(db: Db, h: Hook): Db {
    Stored(db.(intent := db.intent.(refs := StoreEvidence(db.intent.refs, h))), h, Some(HookTarget(h.kind)))
  }

  lemma MoveByHookSettles(db: Db, h: Hook)
    requires Allowed(db.intent.state, HookTarget(h.kind))
    ensures var target := HookTarget(h.kind);
            MoveByHook(db, h) == Settled(Noted(db, h), target, HookEvent(target), HookPayload(h), HookReason(h))
  {
  }

  /** A webhook handler's commit: the invariants hold and the outbox is untouched. */
  ghost predicate HookStep(idempotent: bool, a: Db, b: Db, h: Hook) {
    && Advances(idempotent, a, b) && b.outbox == a.outbox
    && b.deliveries.Keys == a.deliveries.Keys + {h.eventId}
    && b.intent.refs.reference == a.intent.refs.reference
  }

  lemma NotedSound(db: Db, h: Hook)
    requires Sound(db) && Resolves(db.intent, h) && EvidenceAgrees(db.intent, h)
    ensures Sound(Noted(db, h)) && Evolves(db, Noted(db, h))
    ensures Noted(db, h).intent.refs.reference == db.intent.refs.reference
  {
    EvidenceKept(db.intent, h);
  }

  /** A delivery the state machine lets through. */
  lemma MoveByHookAdvances(idempotent: bool, db: Db, h: Hook)
    requires Sound(db) && AtRest(idempotent, db.intent) && Resolves(db.intent, h) && EvidenceAgrees(db.intent, h)
    requires db.intent.ambiguousAt.None? && Allowed(db.intent.state, HookTarget(h.kind))
    ensures HookStep(idempotent, db, MoveByHook(db, h), h)
  {
    hide HookPayload, MoveByHook, Truthful, Sound, Evolves, StoreEvidence, EvidenceAgrees, TransitionPayload;
    var target := HookTarget(h.kind);
    NotedSound(db, h);
    HookPayloadsRead(db, h);
    SettledSound(Noted(db, h), target, HookEvent(target), HookPayload(h), HookReason(h));
    MoveByHookSettles(db, h);
    EvolvesTransitive(db, Noted(db, h), MoveByHook(db, h));
  }

  /** A repeated PAYMENT_PROVIDER_UNCERTAIN moves nothing replay tracks. */
  lemma RepeatSound(db: Db, noted: Db, h: Hook, reason: Option<Reason>)
    requires Sound(noted) && Evolves(db, noted) && h.provider == noted.intent.bound.provider && noted.intent.state.ProviderPending?
    ensures var d := Append(noted, EvUncertain,
                            TransitionPayload(noted.intent.bound.id, ProviderPending, HookPayload(h), reason));
            Sound(d) && Evolves(db, d)
  {
    hide HookPayload, Sound, Evolves, Truthful, TransitionPayload;
    HookPayloadsRead(noted, h);
    var p := TransitionPayload(noted.intent.bound.id, ProviderPending, HookPayload(h), reason);
    TransitionPayloadReads(noted.intent.bound, ProviderPending, HookPayload(h), reason);
    AppendNarrates(noted, EvUncertain, p);
    EvolvesTransitive(db, noted, Append(noted, EvUncertain, p));
  }

  lemma HoldAmbiguousAdvances(idempotent: bool, db: Db, h: Hook)
    requires Sound(db) && AtRest(idempotent, db.intent) && db.intent.ambiguousAt.Some? && Resolves(db.intent, h)
    ensures HookStep(idempotent, db, HoldAmbiguous(db, h), h)
  {
    RepeatSound(db, Stored(db.(intent := db.intent.(reason := Some(ProviderAmbiguity))), h, None), h, Some(ProviderAmbiguity));
  }

  lemma NoteStillPendingAdvances(idempotent: bool, db: Db, h: Hook)
    requires Sound(db) && AtRest(idempotent, db.intent) && Resolves(db.intent, h) && EvidenceAgrees(db.intent, h)
    requires db.intent.state.ProviderPending? && db.intent.ambiguousAt.None?
    ensures HookStep(idempotent, db, NoteStillPending(db, h), h)
  {
    EvidenceKept(db.intent, h);
    RepeatSound(db,
      Stored(db.(intent := db.intent.(refs := StoreEvidence(db.intent.refs, h), reason := HookReason(h))), h, Some(ProviderPending)),
      h, HookReason(h));
  }

  lemma IgnoreHookAdvances(idempotent: bool, db: Db, h: Hook)
    requires Sound(db) && AtRest(idempotent, db.intent)
    ensures HookStep(idempotent, db, IgnoreHook(db, h), h)
  {
    OutOfOrderPayloadReads(db, h);
    AppendNarrates(Stored(db, h, None), EvOutOfOrderWebhook, OutOfOrderPayload(db, h));
  }

  lemma ApplyHookAdvances(idempotent: bool, db: Db, h: Hook)
    requires Sound(db) && AtRest(idempotent, db.intent) && Resolves(db.intent, h) && EvidenceAgrees(db.intent, h)
    ensures ApplyHook(db, h).Accepted? && HookStep(idempotent, db, ApplyHook(db, h).db, h)
  {
    hide HookStep, HoldAmbiguous, NoteStillPending, MoveByHook, IgnoreHook;
    var target := HookTarget(h.kind);
    if db.intent.ambiguousAt.Some? { HoldAmbiguousAdvances(idempotent, db, h); }
    else if db.intent.state == target && target.ProviderPending? { NoteStillPendingAdvances(idempotent, db, h); }
    else if Allowed(db.intent.state, target) { MoveByHookAdvances(idempotent, db, h); }
    else { IgnoreHookAdvances(idempotent, db, h); }
  }

  lemma VerifiedSound(idempotent: bool, db: Db, h: Hook)
    requires Sound(db) && AtRest(idempotent, db.intent) && Resolves(db.intent, h)
    ensures HookStep(idempotent, db, Append(Stored(db, h, None), EvWebhookVerified, DeliveryPayload(db, h)), h)
  {
    hide DeliveryPayload, Truthful, LawfulPath;
    HookPayloadsRead(db, h);
    AppendNarrates(Stored(db, h, None), EvWebhookVerified, DeliveryPayload(db, h));
  }

  lemma HookStepTransitive(idempotent: bool, a: Db, b: Db, c: Db, h: Hook)
    requires HookStep(idempotent, a, b, h) && HookStep(idempotent, b, c, h)
    ensures HookStep(idempotent, a, c, h)
  {
  }

  lemma DuplicateAdvances(idempotent: bool, db: Db, h: Hook)
    requires Sound(db) && AtRest(idempotent, db.intent) && h.eventId in db.deliveries
    ensures HookStep(idempotent, db, Append(db, EvDuplicateWebhook, DuplicatePayload(db, h)), h)
  {
    hide DuplicatePayload, LawfulPath;
    DuplicatePayloadReads(db, h);
    AppendNarrates(db, EvDuplicateWebhook, DuplicatePayload(db, h));
  }

  /** A delivery keeps every invariant and adds exactly its own row to the webhook table. */
  lemma HandleWebhookAdvances(idempotent: bool, db: Db, h: Hook)
    requires Sound(db) && AtRest(idempotent, db.intent)
    ensures HandleWebhook(db, h).Accepted? ==> HookStep(idempotent, db, HandleWebhook(db, h).db, h)
  {
    if Resolves(db.intent, h) && EvidenceAgrees(db.intent, h) {
      if h.eventId in db.deliveries {
        DuplicateAdvances(idempotent, db, h);
      } else {
        var told := Append(Stored(db, h, None), EvWebhookVerified, DeliveryPayload(db, h));
        VerifiedSound(idempotent, db, h);
        ApplyHookAdvances(idempotent, told, h);
        HookStepTransitive(idempotent, db, told, ApplyHook(told, h).db, h);
      }
    }
  }

  // ---- Sequences of deliveries -------------------------------------------------------------

  /** A rejected delivery is rolled back whole. */
  function DeliverOne(db: Db, h: Hook): Db {
    var r := HandleWebhook(db, h);
    if r.Accepted? then r.db else db
  }

  function DeliverAll(db: Db, hs: seq<Hook>): Db
    decreases |hs|
  {
    if hs == [] then db else DeliverAll(DeliverOne(db, hs[0]), hs[1..])
  }

  /** Every row but the audit ledger. */
  predicate SameRows(a: Db, b: Db) { a == b.(ledger := a.ledger) }

  /** The outcome of a delivery does not depend on the audit ledger. */
  lemma DeliverOneIgnoresLedger(a: Db, b: Db, h: Hook)
    requires SameRows(a, b)
    ensures SameRows(DeliverOne(a, h), DeliverOne(b, h))
    ensures HandleWebhook(a, h).Accepted? <==> HandleWebhook(b, h).Accepted?
  {
  }

  /** A delivery whose event id is already stored changes no row. */
  lemma DuplicateChangesNothing(db: Db, h: Hook)
    requires h.eventId in db.deliveries
    ensures SameRows(DeliverOne(db, h), db)
  {
  }

  /** The deliveries of a sequence that were not already stored when they arrived. */
  function Fresh(db: Db, hs: seq<Hook>): seq<Hook>
    decreases |hs|
  {
    if hs == [] then []
    else (if hs[0].eventId in db.deliveries then [] else [hs[0]]) + Fresh(DeliverOne(db, hs[0]), hs[1..])
  }

  /** Duplicates may be delivered anywhere, in any number: dropping them all gives the same rows. */
  lemma {:induction false} DuplicatesAreInert(a: Db, b: Db, hs: seq<Hook>)
    requires SameRows(a, b)
    ensures SameRows(DeliverAll(a, hs), DeliverAll(b, Fresh(a, hs)))
    decreases |hs|
  {
    if hs != [] {
      var rest := Fresh(DeliverOne(a, hs[0]), hs[1..]);
      if hs[0].eventId in a.deliveries {
        DuplicateChangesNothing(a, hs[0]);
        assert Fresh(a, hs) == rest;
        DuplicatesAreInert(DeliverOne(a, hs[0]), b, hs[1..]);
      } else {
        DeliverOneIgnoresLedger(a, b, hs[0]);
        assert Fresh(a, hs) == [hs[0]] + rest;
        assert ([hs[0]] + rest)[1..] == rest;
        DuplicatesAreInert(DeliverOne(a, hs[0]), DeliverOne(b, hs[0]), hs[1..]);
      }
    }
  }

  /** The delivery is about this payment: its provider and the reference PACTRA recorded, an amount and
      currency that are absent or equal, no other order than the one held, and for a success no other
      transaction than the one held. */
  predicate Credible(i: Intent, h: Hook) {
    && h.provider == i.bound.provider && i.refs.reference == Some(h.reference)
    && (h.amount.Some? ==> h.amount.value == i.bound.amount)
    && (h.currency.Some? ==> h.currency.value == i.bound.currency)
    && (i.refs.order.Some? && h.order.Some? ==> h.order == i.refs.order)
    && (h.kind == HookSucceeded && i.refs.transaction.Some? ==> h.transaction == i.refs.transaction)
  }

  /** Exactly the credible deliveries are accepted; any other leaves every row as it was, the ledger
      included. */
  lemma AcceptedIffCredible(db: Db, h: Hook)
    ensures HandleWebhook(db, h).Accepted? <==> Credible(db.intent, h)
    ensures !Credible(db.intent, h) ==> DeliverOne(db, h) == db
  {
    hide ApplyHook;
    if Credible(db.intent, h) && h.eventId !in db.deliveries {
      FreshIsAccepted(Append(Stored(db, h, None), EvWebhookVerified, DeliveryPayload(db, h)), h);
    }
  }

  lemma FreshIsAccepted(db: Db, h: Hook)
    ensures ApplyHook(db, h).Accepted?
  {
  }

  /** Would this delivery settle the payment if it arrived now? */
  predicate Decides(db: Db, h: Hook) {
    Credible(db.intent, h) && h.eventId !in db.deliveries && (h.kind == HookSucceeded || h.kind == HookFailed)
  }

  /** How many deliveries of the sequence moved the payment into a terminal state. */
  function Settlements(db: Db, hs: seq<Hook>): nat
    decreases |hs|
  {
    if hs == [] then 0
    else
      var next := DeliverOne(db, hs[0]);
      (if !IsTerminal(db.intent.state) && IsTerminal(next.intent.state) then 1 else 0) + Settlements(next, hs[1..])
  }

  /** The verdict of the first delivery that decides. */
  function FirstVerdict(db: Db, hs: seq<Hook>): Option<PaymentState>
    decreases |hs|
  {
    if hs == [] then None
    else if Decides(db, hs[0]) then Some(if hs[0].kind == HookSucceeded then PaymentState.Succeeded else FailedTerminal)
    else FirstVerdict(DeliverOne(db, hs[0]), hs[1..])
  }

  lemma PendingDelivery(db: Db, h: Hook)
    requires db.intent.state.ProviderPending? && db.intent.ambiguousAt.None?
    ensures DeliverOne(db, h).intent.ambiguousAt.None?
    ensures DeliverOne(db, h).intent.state ==
              if !Decides(db, h) then ProviderPending else if h.kind == HookSucceeded then PaymentState.Succeeded else FailedTerminal
  {
  }

  lemma SettledDelivery(db: Db, h: Hook)
    requires IsTerminal(db.intent.state)
    ensures DeliverOne(db, h).intent.state == db.intent.state
  {
  }

  lemma {:induction false} SettledStays(db: Db, hs: seq<Hook>)
    requires IsTerminal(db.intent.state)
    ensures DeliverAll(db, hs).intent.state == db.intent.state && Settlements(db, hs) == 0
    decreases |hs|
  {
    if hs != [] {
      SettledDelivery(db, hs[0]);
      SettledStays(DeliverOne(db, hs[0]), hs[1..]);
    }
  }

  /** Conflicting deliveries in any order settle once, with the first credible new success or failure. */
  lemma {:induction false} FirstVerdictWins(db: Db, hs: seq<Hook>)
    requires db.intent.state.ProviderPending? && db.intent.ambiguousAt.None?
    ensures var v := FirstVerdict(db, hs);
            && DeliverAll(db, hs).intent.state == (if v.Some? then v.value else ProviderPending)
            && Settlements(db, hs) == (if v.Some? then 1 else 0)
    decreases |hs|
  {
    if hs != [] {
      PendingDelivery(db, hs[0]);
      if Decides(db, hs[0]) { SettledStays(DeliverOne(db, hs[0]), hs[1..]); }
      else { FirstVerdictWins(DeliverOne(db, hs[0]), hs[1..]); }
    }
  }
}
