/** Webhook ingestion after the signature check: resolve, deduplicate, then apply what the
    transition table permits. */
module Webhooks {
  import opened Vocabulary
  import opened AuditEvents
  import opened Tables
  import opened Executor

  datatype WebhookKind = HookSucceeded | HookFailed | HookPending | HookAttemptFailed

  function HookTarget(kind: WebhookKind): PaymentState {
    match kind
    case HookSucceeded => PaymentState.Succeeded
    case HookFailed => FailedTerminal
    case HookPending => ProviderPending
    case HookAttemptFailed => ProviderPending
  }

  /** A delivery whose signature verified. */
  datatype Hook = Hook(
    provider: string, eventId: string, kind: WebhookKind, reference: string,
    order: Option<string>, transaction: Option<string>, amount: Option<int>, currency: Option<string>,
    providerStatus: Option<string>, providerAttempts: Option<nat>)

  datatype Outcome = Rejected | Accepted(db: Db, applied: bool)

  /** The delivery points at this intent: a reference PACTRA itself recorded. */
  predicate Resolves(i: Intent, h: Hook) {
    h.provider == i.bound.provider && i.refs.reference == Some(h.reference)
  }

  predicate EvidenceAgrees(i: Intent, h: Hook) {
    && (h.amount.None? || h.amount.value == i.bound.amount)
    && (h.currency.None? || h.currency.value == i.bound.currency)
    && !Conflicts(i.refs.order, h.order)
    && (HookTarget(h.kind).Succeeded? && i.refs.transaction.Some? ==> h.transaction == i.refs.transaction)
  }

  function StoreEvidence(r: Refs, h: Hook): Refs {
    r.(order := Assigned(r.order, h.order),
       transaction := if HookTarget(h.kind).Succeeded? && h.transaction.Some? then h.transaction else r.transaction,
       providerStatus := if h.providerStatus.None? then r.providerStatus else h.providerStatus,
       providerAttempts := Merged(r.providerAttempts, h.providerAttempts))
  }

  function HookReason(h: Hook): Option<Reason> {
    if h.kind.HookAttemptFailed? then Some(ProviderAttemptFailed) else None
  }

  function HookEvent(target: PaymentState): EventType {
    if target.Succeeded? then EvSucceeded else if target.FailedTerminal? then EvFailed else EvUncertain
  }

  function DeliveryPayload(db: Db, h: Hook): Payload {
    map[IntentId := JText(db.intent.bound.id), Provider := JText(h.provider), ProviderEventId := JText(h.eventId)]
  }

  function HookPayload(h: Hook): Payload {
    map[Provider := JText(h.provider), ProviderPaymentId := JText(h.reference), ProviderEventId := JText(h.eventId)]
  }

  function DuplicatePayload(db: Db, h: Hook): Payload {
    map[IntentId := JText(db.intent.bound.id), ReasonCode := JReason(Some(WebhookDuplicate)),
        ProviderEventId := JText(h.eventId), State := JState(db.intent.state)]
  }

  function OutOfOrderPayload(db: Db, h: Hook): Payload {
    map[IntentId := JText(db.intent.bound.id), ReasonCode := JReason(Some(IllegalTransition)),
        ProviderEventId := JText(h.eventId), CurrentState := JState(db.intent.state),
        RequestedState := JState(HookTarget(h.kind)), TerminalFlag := JBool(IsTerminal(db.intent.state))]
  }

  function Stored(db: Db, h: Hook, applied: Option<PaymentState>): Db {
    db.(deliveries := db.deliveries[h.eventId := applied])
  }

  /** An observed ambiguity outweighs any single delivery. */
  function HoldAmbiguous(db: Db, h: Hook): Db {
    Append(Stored(db.(intent := db.intent.(reason := Some(ProviderAmbiguity))), h, None), EvUncertain,
           TransitionPayload(db.intent.bound.id, db.intent.state, HookPayload(h), Some(ProviderAmbiguity)))
  }

  /** An observation about an order that is still open. */
  function NoteStillPending(db: Db, h: Hook): Db {
    Append(Stored(db.(intent := db.intent.(refs := StoreEvidence(db.intent.refs, h), reason := HookReason(h))),
                  h, Some(db.intent.state)),
           EvUncertain, TransitionPayload(db.intent.bound.id, db.intent.state, HookPayload(h), HookReason(h)))
  }

  function IgnoreHook(db: Db, h: Hook): Db {
    Append(Stored(db, h, None), EvOutOfOrderWebhook, OutOfOrderPayload(db, h))
  }

  function MoveByHook(db: Db, h: Hook): Db
    requires Allowed(db.intent.state, HookTarget(h.kind))
  {
    var target := HookTarget(h.kind);
    var noted := Stored(db.(intent := db.intent.(refs := StoreEvidence(db.intent.refs, h))), h, Some(target));
    var moved := Transition(noted, target, HookEvent(target), HookPayload(h), HookReason(h)).value;
    if target.Succeeded? then ApplyMission(moved, PaymentSucceeded)
    else if target.FailedTerminal? then ApplyMission(moved, PaymentFailed) else moved
  }

  /** The move a fresh delivery may make, on a row whose delivery is already recorded. */
  function ApplyHook(db: Db, h: Hook): Outcome {
    var current := db.intent.state;
    var target := HookTarget(h.kind);
    if db.intent.ambiguousAt.Some? then Accepted(HoldAmbiguous(db, h), false)
    else if current == target && current.ProviderPending? then Accepted(NoteStillPending(db, h), false)
    else if current == target || IsTerminal(current) || !Allowed(current, target) then Accepted(IgnoreHook(db, h), false)
    else Accepted(MoveByHook(db, h), true)
  }

  /** One verified delivery. */
  function HandleWebhook(db: Db, h: Hook): Outcome {
    if !Resolves(db.intent, h) || !EvidenceAgrees(db.intent, h) then Rejected
    else if h.eventId in db.deliveries then
      Accepted(Append(db, EvDuplicateWebhook, DuplicatePayload(db, h)), false)
    else
      ApplyHook(Append(Stored(db, h, None), EvWebhookVerified, DeliveryPayload(db, h)), h)
  }
}
