/** The part of the replayed state that has a persisted counterpart: mission state, payment
    state and payment attempts. `Replay` shows that the full reducer computes exactly this. */
module ReplayCore {
  import opened Vocabulary
  import opened AuditEvents

  /** `told` counts the events from which a payment state was adopted. */
  datatype Core = Core(mission: Option<MissionState>, payment: Option<PaymentState>, attempts: nat, told: nat)

  const EMPTY_CORE := Core(None, None, 0, 0)

  /** Replay moves the mission exactly when the live guard would; the first event establishes it. */
  function Advance(current: Option<MissionState>, target: MissionState): Option<MissionState> {
    if current.None? || CanMove(current.value, target) then Some(target) else current
  }

  /** The payment state a transition payload recorded, if it recorded one. */
  function Adopted(current: Option<PaymentState>, p: Payload): Option<PaymentState> {
    if NamesState(p) then Some(p[State].s.state) else current
  }

  predicate NamesState(p: Payload) { State in p && p[State].JStr? && p[State].s.StateName? }

  /** The mission state an event type asks for; payment failures depend on the payment state. */
  function MissionTarget(t: EventType, payment: Option<PaymentState>): Option<MissionState> {
    match t
    case EvMissionCreated => Some(Drafted)
    case EvIntentParsed => Some(IntentParsed)
    case EvDiscoveryStarted => Some(Discovering)
    case EvOffersReceived => Some(OffersReceived)
    case EvOffersNormalized => Some(OffersNormalized)
    case EvOffersRanked => Some(Ranked)
    case EvPolicyDecision => Some(PolicyChecked)
    case EvApprovalRequested => Some(AwaitingApproval)
    case EvMissionDenied => Some(Withdrawn)
    case EvAuthorizationActivated => Some(Authorized)
    case EvQueued => Some(PaymentPending)
    case EvSucceeded => Some(PaymentSucceeded)
    case EvFailed => if payment == Some(FailedTerminal) then Some(PaymentFailed) else None
    case _ => None
  }

  /** The payment events whose recorded state replay adopts. PAYMENT_RECONCILED is not one. */
  predicate AdoptsState(t: EventType) {
    t.EvQueued? || t.EvAttempted? || t.EvUncertain? || t.EvRetryScheduled? ||
    t.EvSucceeded? || t.EvFailed? || t.EvIntentReused?
  }

  function CoreStep(c: Core, t: EventType, p: Payload): Core {
    var payment := if AdoptsState(t) then Adopted(c.payment, p) else c.payment;
    var target := MissionTarget(t, payment);
    Core(if target.None? then c.mission else Advance(c.mission, target.value),
         payment,
         if t.EvAttempted? then c.attempts + 1 else c.attempts,
         if AdoptsState(t) && NamesState(p) then c.told + 1 else c.told)
  }

  function CoreOf(events: seq<AuditEvent>): Core {
    if events == [] then EMPTY_CORE
    else
      var last := events[|events| - 1];
      var before := CoreOf(events[..|events| - 1]);
      if last.tag.Known? && last.payload.JObject?
      then CoreStep(before, last.tag.event, last.payload.fields)
      else before
  }

  lemma CoreOfAppend(events: seq<AuditEvent>, e: AuditEvent)
    requires e.tag.Known? && e.payload.JObject?
    ensures CoreOf(events + [e]) == CoreStep(CoreOf(events), e.tag.event, e.payload.fields)
  {
  }
}
