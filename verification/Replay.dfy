/** The replay reducer over all event types: payload readers that refuse rather than guess, one
    rule per projected part, and the fold over events in sequence order. */
module Replay {
  import opened Vocabulary
  import opened AuditEvents
  import opened ReplayCore
  import Sorting

  // ---- Projection --------------------------------------------------------------------------

  datatype Admission = Admission(
    rawQuery: Option<Str>, quantity: Option<int>,
    decision: Option<PolicyOutcome>, policyVersion: Option<Str>, reasonCodes: seq<Str>,
    requestedAmount: Option<int>, softBudget: Option<int>, hardLimit: Option<int>, selectedOffer: Option<Str>,
    approvalRequired: bool, approvalGranted: bool,
    rawOffers: Option<int>, validOffers: Option<int>, invalidOffers: Option<int>, tainted: seq<Str>)

  datatype Authorization = Authorization(
    authorizationId: Option<Str>, status: Option<Str>, digestPrefix: Option<Str>,
    policyVersion: Option<Str>, offerVersion: Option<Str>, bindingVersion: Option<Str>,
    scheme: Option<Scheme>, expiresAt: Option<Str>, consumedAt: Option<Str>,
    merchant: Option<Str>, product: Option<Str>, quantity: Option<int>, amount: Option<int>, currency: Option<Str>,
    replayDetected: bool, bindingFailures: nat)

  datatype PaymentView = PaymentView(
    intentId: Option<Str>, provider: Option<Str>, providerPaymentId: Option<Str>, key: Option<Str>,
    amount: Option<int>, currency: Option<Str>, merchant: Option<Str>, lastReason: Option<Str>,
    state: Option<PaymentState>, attempts: nat,
    counters: map<EventType, nat>,  // how often each payment event type was seen
    reused: bool, deadLettered: bool)

  datatype SecurityRecord = SecurityRecord(
    sequence: int, event: EventType, actor: string, reason: Option<Str>, detail: Payload)

  datatype Skipped = Skipped(sequence: int, event: EventType, from: MissionState, to: MissionState)

  datatype Risk = Risk(
    sequence: int, assessmentId: Option<Str>, score: Option<real>, band: Option<Str>,
    recommendation: Option<Str>, engineVersion: Option<Str>, modelVersion: Option<Str>, factors: seq<Json>)

  datatype Projection = Projection(
    mission: Option<MissionState>, events: nat, admission: Admission, authorization: Authorization,
    payment: PaymentView, security: seq<SecurityRecord>, skipped: seq<Skipped>, risk: seq<Risk>)

  const EMPTY := Projection(
    None, 0,
    Admission(None, None, None, None, [], None, None, None, None, false, false, None, None, None, []),
    Authorization(None, None, None, None, None, None, None, None, None, None, None, None, None, None, false, 0),
    PaymentView(None, None, None, None, None, None, None, None, None, 0, map[], false, false),
    [], [], [])

  datatype RefusalCode = MalformedEvent | UnsupportedEventType

  /** A value, or the refusal of the whole replay at one sequence. */
  datatype Result<+T> = Ok(value: T) | Refused(code: RefusalCode, sequence: int) {
    predicate IsFailure() { Refused? }
    function PropagateFailure<U>(): Result<U> requires Refused? { Refused(code, sequence) }
    function Extract(): T requires Ok? { value }
  }

  // ---- Payload readers ---------------------------------------------------------------------

  function OptStr(p: Payload, k: Key, at: int): Result<Option<Str>> {
    if k !in p || p[k].JNull? then Ok(None)
    else if p[k].JStr? then Ok(Some(p[k].s))
    else Refused(MalformedEvent, at)
  }

  function OptInt(p: Payload, k: Key, at: int): Result<Option<int>> {
    if k !in p || p[k].JNull? then Ok(None)
    else if p[k].JInt? then Ok(Some(p[k].n))
    else Refused(MalformedEvent, at)
  }

  function OptStrList(p: Payload, k: Key, at: int): Result<Option<seq<Str>>> {
    if k !in p || p[k].JNull? then Ok(None)
    else if p[k].JList? && forall i :: 0 <= i < |p[k].items| ==> p[k].items[i].JStr? then
      Ok(Some(seq(|p[k].items|, i requires 0 <= i < |p[k].items| && p[k].items[i].JStr? => p[k].items[i].s)))
    else Refused(MalformedEvent, at)
  }

  function OptScheme(p: Payload, at: int): Result<Option<Scheme>> {
    var raw :- OptStr(p, ApprovalScheme, at);
    if raw.None? then Ok(None)
    else if raw.value.SchemeName? then Ok(Some(raw.value.scheme))
    else Refused(MalformedEvent, at)
  }

  /** Python's `new or old`: an absent or empty string keeps the held value. */
  function OrStr(seen: Option<Str>, held: Option<Str>): Option<Str> {
    if seen.Some? && seen.value != Text("") then seen else held
  }

  /** Python's `new or old`: an absent or zero integer keeps the held value. */
  function OrInt(seen: Option<int>, held: Option<int>): Option<int> {
    if seen.Some? && seen.value != 0 then seen else held
  }

  function OrEmpty(seen: Option<seq<Str>>): seq<Str> { if seen.None? then [] else seen.value }

  function Lenient(p: Payload, k: Key): Option<Str> { if k in p && p[k].JStr? then Some(p[k].s) else None }

  // ---- Payment -----------------------------------------------------------------------------

  /** Events whose handler folds the common payment fields. */
  predicate PaymentEvent(t: EventType) {
    t.EvIntentCreated? || t.EvQueued? || t.EvAttempted? || t.EvProviderTimeout? || t.EvUncertain? ||
    t.EvRetryScheduled? || t.EvReconciled? || t.EvSucceeded? || t.EvFailed? || t.EvIntentReused? ||
    t.EvDeadLettered? || t.EvWebhookVerified? || t.EvDuplicateWebhook? || t.EvOutOfOrderWebhook?
  }

  /** Adopt what is present; a reason code is adopted by presence, so a null clears it. */
  function CommonFields(v: PaymentView, p: Payload, at: int): Result<PaymentView> {
    var intentId :- OptStr(p, IntentId, at);
    var provider :- OptStr(p, Provider, at);
    var reference :- OptStr(p, ProviderPaymentId, at);
    var key :- OptStr(p, IdempotencyKey, at);
    var amount :- OptInt(p, AmountInr, at);
    var currency :- OptStr(p, Currency, at);
    var merchant :- OptStr(p, MerchantId, at);
    var reason :- OptStr(p, ReasonCode, at);
    Ok(v.(intentId := OrStr(intentId, v.intentId), provider := OrStr(provider, v.provider),
          providerPaymentId := OrStr(reference, v.providerPaymentId), key := OrStr(key, v.key),
          amount := OrInt(amount, v.amount), currency := OrStr(currency, v.currency),
          merchant := OrStr(merchant, v.merchant),
          lastReason := if ReasonCode in p then reason else v.lastReason))
  }

  function StateField(v: PaymentView, p: Payload, at: int): Result<PaymentView> {
    if State !in p || p[State].JNull? then Ok(v)
    else if p[State].JStr? && p[State].s.StateName? then Ok(v.(state := Some(p[State].s.state)))
    else Refused(MalformedEvent, at)
  }

  function Count(v: PaymentView, t: EventType): nat { if t in v.counters then v.counters[t] else 0 }

  function AdoptRule(v: PaymentView, t: EventType, p: Payload, at: int): Result<PaymentView> {
    var common :- CommonFields(v, p, at);
    if AdoptsState(t) then StateField(common, p, at) else Ok(common)
  }

  function Counted(v: PaymentView, t: EventType): PaymentView {
    v.(attempts := if t.EvAttempted? then v.attempts + 1 else v.attempts,
       counters := v.counters[t := Count(v, t) + 1],
       reused := v.reused || t.EvIntentReused?,
       deadLettered := v.deadLettered || t.EvDeadLettered?)
  }

  function PaymentRule(v: PaymentView, t: EventType, p: Payload, at: int): Result<PaymentView> {
    if !PaymentEvent(t) then Ok(v)
    else
      var adopted :- AdoptRule(v, t, p, at);
      Ok(Counted(adopted, t))
  }

  // ---- Authorization -----------------------------------------------------------------------

  function AuthorizationCreated(a: Authorization, p: Payload, at: int): Result<Authorization> {
    var id :- OptStr(p, AuthorizationId, at);
    var status :- OptStr(p, Status, at);
    var digest :- OptStr(p, DigestPrefix, at);
    var policy :- OptStr(p, PolicyVersion, at);
    var offer :- OptStr(p, OfferVersion, at);
    var binding :- OptStr(p, BindingVersion, at);
    var scheme :- OptScheme(p, at);
    var expires :- OptStr(p, ExpiresAt, at);
    var merchant :- OptStr(p, BoundMerchant, at);
    var product :- OptStr(p, BoundProduct, at);
    var quantity :- OptInt(p, BoundQuantity, at);
    var amount :- OptInt(p, BoundAmount, at);
    var currency :- OptStr(p, BoundCurrency, at);
    Ok(Authorization(
      OrStr(id, a.authorizationId), OrStr(status, Some(StatusName(AuthPending))), digest, policy, offer, binding,
      scheme, expires, a.consumedAt, merchant, product, quantity, amount, currency, a.replayDetected, a.bindingFailures))
  }

  function AuthorizationActivated(a: Authorization, p: Payload, at: int): Result<Authorization> {
    var id :- OptStr(p, AuthorizationId, at);
    var status :- OptStr(p, Status, at);
    var digest :- OptStr(p, DigestPrefix, at);
    var scheme :- OptScheme(p, at);
    Ok(a.(authorizationId := OrStr(id, a.authorizationId), status := OrStr(status, Some(StatusName(AuthActive))),
          digestPrefix := OrStr(digest, a.digestPrefix), scheme := if scheme.Some? then scheme else a.scheme))
  }

  function AuthorizationRule(a: Authorization, t: EventType, p: Payload, at: int): Result<Authorization> {
    match t
    case EvApprovalRequested =>
      var id :- OptStr(p, AuthorizationId, at);
      Ok(a.(authorizationId := OrStr(id, a.authorizationId)))
    case EvIntentCreated =>
      var id :- OptStr(p, AuthorizationId, at);
      Ok(a.(authorizationId := OrStr(id, a.authorizationId)))
    case EvAuthorizationCreated => AuthorizationCreated(a, p, at)
    case EvAuthorizationActivated => AuthorizationActivated(a, p, at)
    case EvAuthorizationConsumed =>
      var status :- OptStr(p, Status, at);
      var consumed :- OptStr(p, ConsumedAt, at);
      Ok(a.(status := OrStr(status, Some(StatusName(AuthConsumed))), consumedAt := consumed))
    case EvAuthorizationExpired =>
      var status :- OptStr(p, Status, at);
      var expires :- OptStr(p, ExpiresAt, at);
      Ok(a.(status := OrStr(status, Some(StatusName(AuthExpired))), expiresAt := OrStr(expires, a.expiresAt)))
    case EvAuthorizationRevoked =>
      var status :- OptStr(p, Status, at);
      Ok(a.(status := OrStr(status, Some(StatusName(AuthRevoked)))))
    case EvAuthorizationReplayDetected =>
      var status :- OptStr(p, Status, at);
      var consumed :- OptStr(p, ConsumedAt, at);
      Ok(a.(replayDetected := true, status := OrStr(status, a.status), consumedAt := OrStr(consumed, a.consumedAt)))
    case EvTransactionBindingFailure => Ok(a.(bindingFailures := a.bindingFailures + 1))
    case _ => Ok(a)
  }

  // ---- Admission ---------------------------------------------------------------------------

  /** Budgets inside the parsed constraints are read leniently: a non-integer is simply not adopted. */
  function ConstraintInt(fields: Payload, k: Key, held: Option<int>): Option<int> {
    if k in fields && fields[k].JInt? then Some(fields[k].n) else held
  }

  function PolicyDecided(m: Admission, p: Payload, at: int): Result<Admission> {
    var decision :- OptStr(p, Decision, at);
    var version :- OptStr(p, PolicyVersion, at);
    var codes :- OptStrList(p, ReasonCodes, at);
    var amount :- OptInt(p, RequestedAmount, at);
    var soft :- OptInt(p, SoftBudget, at);
    var hard :- OptInt(p, HardLimit, at);
    var offer :- OptStr(p, SelectedOffer, at);
    if decision.Some? && !decision.value.OutcomeName? then Refused(MalformedEvent, at)
    else
      Ok(m.(decision := if decision.Some? then Some(decision.value.outcome) else m.decision,
            policyVersion := version, reasonCodes := OrEmpty(codes), requestedAmount := amount,
            softBudget := OrInt(soft, m.softBudget), hardLimit := OrInt(hard, m.hardLimit), selectedOffer := offer))
  }

  function AdmissionRule(m: Admission, t: EventType, p: Payload, at: int): Result<Admission> {
    match t
    case EvMissionCreated =>
      var query :- OptStr(p, RawQuery, at);
      var quantity :- OptInt(p, Quantity, at);
      Ok(m.(rawQuery := query, quantity := quantity))
    case EvIntentParsed =>
      if Constraints !in p || p[Constraints].JNull? then Ok(m)
      else if !p[Constraints].JObject? then Refused(MalformedEvent, at)
      else
        Ok(m.(softBudget := ConstraintInt(p[Constraints].fields, SoftBudgetInr, m.softBudget),
              hardLimit := ConstraintInt(p[Constraints].fields, HardLimitInr, m.hardLimit)))
    case EvOffersReceived =>
      var n :- OptInt(p, RawOfferCount, at);
      Ok(m.(rawOffers := n))
    case EvOffersNormalized =>
      var valid :- OptInt(p, ValidCount, at);
      var invalid :- OptInt(p, InvalidCount, at);
      var tainted :- OptStrList(p, TaintedFields, at);
      Ok(m.(validOffers := valid, invalidOffers := invalid, tainted := OrEmpty(tainted)))
    case EvPolicyDecision => PolicyDecided(m, p, at)
    case EvApprovalRequested =>
      var amount :- OptInt(p, RequestedAmount, at);
      Ok(m.(approvalRequired := true, requestedAmount := OrInt(amount, m.requestedAmount)))
    case EvMissionDenied =>
      var codes :- OptStrList(p, ReasonCodes, at);
      Ok(m.(reasonCodes := if OrEmpty(codes) != [] then OrEmpty(codes) else m.reasonCodes))
    case EvAuthorizationActivated => Ok(m.(approvalGranted := m.approvalGranted || m.approvalRequired))
    case _ => Ok(m)
  }

  // ---- Security and risk -------------------------------------------------------------------

  predicate SecurityEvent(t: EventType) {
    t.EvSecurityViolation? || t.EvAuthorizationReplayDetected? || t.EvTransactionBindingFailure? ||
    t.EvIdempotencyConflict? || t.EvWebhookRejected? || t.EvDuplicateWebhook? ||
    t.EvOutOfOrderWebhook? || t.EvMissionDenied?
  }

  /** The allow-list of payload keys a security record may carry. */
  predicate SecurityKey(k: Key) {
    k.MerchantId? || k.Status? || k.CurrentState? || k.RequestedState? || k.ProviderEventId? ||
    k.IdempotencyKey? || k.ReasonCodes? || k.TerminalFlag? || k.OtherDetail?
  }

  function SecurityRule(log: seq<SecurityRecord>, e: AuditEvent, t: EventType, p: Payload): Result<seq<SecurityRecord>> {
    if !SecurityEvent(t) then Ok(log)
    else
      var reason :- OptStr(p, ReasonCode, e.sequence);
      Ok(log + [SecurityRecord(e.sequence, t, e.actor, reason, map k | k in p && SecurityKey(k) :: p[k])])
  }

  /** Advice is recorded leniently and read by nothing else. */
  function RiskRule(log: seq<Risk>, e: AuditEvent, t: EventType, p: Payload): seq<Risk> {
    if !t.EvRiskAssessed? then log
    else
      log + [Risk(e.sequence, Lenient(p, AssessmentId),
                  if Score !in p then None
                  else match p[Score]
                    case JInt(n) => Some(n as real)
                    case JNumber(x) => Some(x)
                    case JBool(b) => Some(if b then 1.0 else 0.0)
                    case _ => None,
                  Lenient(p, Band), Lenient(p, Recommendation), Lenient(p, EngineVersion), Lenient(p, ModelVersion),
                  if FactorCodes in p && p[FactorCodes].JList? then p[FactorCodes].items else [])]
  }

  // ---- The fold ----------------------------------------------------------------------------

  function SkipRule(log: seq<Skipped>, current: Option<MissionState>, e: AuditEvent, t: EventType, target: Option<MissionState>): seq<Skipped> {
    if target.Some? && current.Some? && current != target && !CanMove(current.value, target.value)
    then log + [Skipped(e.sequence, t, current.value, target.value)] else log
  }

  /** What one event does to everything but the mission and the advice. */
  function Parts(v: Projection, e: AuditEvent, t: EventType, p: Payload): Result<Projection> {
    var payment :- PaymentRule(v.payment, t, p, e.sequence);
    var authorization :- AuthorizationRule(v.authorization, t, p, e.sequence);
    var admission :- AdmissionRule(v.admission, t, p, e.sequence);
    var security :- SecurityRule(v.security, e, t, p);
    Ok(v.(admission := admission, authorization := authorization, payment := payment, security := security))
  }

  /** One event of a known type with an object payload. */
  function Handle(v: Projection, e: AuditEvent, t: EventType, p: Payload): Result<Projection> {
    var parts :- Parts(v, e, t, p);
    var target := MissionTarget(t, parts.payment.state);
    Ok(parts.(
      mission := if target.None? then v.mission else Advance(v.mission, target.value), events := v.events + 1,
      skipped := SkipRule(v.skipped, v.mission, e, t, target), risk := RiskRule(v.risk, e, t, p)))
  }

  /** Unknown types and non-object payloads refuse the whole replay. */
  function ApplyEvent(v: Projection, e: AuditEvent): Result<Projection> {
    if e.tag.Unknown? then Refused(UnsupportedEventType, e.sequence)
    else if !e.payload.JObject? then Refused(MalformedEvent, e.sequence)
    else Handle(v, e, e.tag.event, e.payload.fields)
  }

  function Fold(events: seq<AuditEvent>): Result<Projection> {
    if events == [] then Ok(EMPTY)
    else
      var before :- Fold(events[..|events| - 1]);
      ApplyEvent(before, events[|events| - 1])
  }

  /** The order of (sequence, event id). */
  predicate Earlier(a: AuditEvent, b: AuditEvent) {
    a.sequence < b.sequence || (a.sequence == b.sequence && a.eventId <= b.eventId)
  }

  /** Reconstruct from whatever order the rows were retrieved in. */
  function Reduce(events: seq<AuditEvent>): Result<Projection> {
    Fold(Sorting.Sort(Earlier, events))
  }
}
