/** Audit events as the ledger stores them and replay reads them. */
module AuditEvents {
  import opened Vocabulary

  datatype EventType =
    | EvMissionCreated | EvIntentParsed | EvDiscoveryStarted | EvOffersReceived
    | EvOffersNormalized | EvOffersRanked | EvPolicyDecision | EvApprovalRequested
    | EvMissionDenied | EvSecurityViolation
    | EvAuthorizationCreated | EvAuthorizationActivated | EvAuthorizationConsumed
    | EvAuthorizationExpired | EvAuthorizationRevoked | EvAuthorizationReplayDetected
    | EvTransactionBindingFailure
    | EvIntentCreated | EvQueued | EvAttempted | EvProviderTimeout
    | EvUncertain | EvRetryScheduled | EvReconciled
    | EvSucceeded | EvFailed | EvIntentReused | EvIdempotencyConflict
    | EvDeadLettered | EvWebhookVerified | EvWebhookRejected
    | EvDuplicateWebhook | EvOutOfOrderWebhook
    | EvRiskAssessed

  /** The payload keys that replay reads. */
  datatype Key =
    | RawQuery | Quantity | Constraints | SoftBudgetInr | HardLimitInr
    | RawOfferCount | ValidCount | InvalidCount | TaintedFields
    | Decision | PolicyVersion | ReasonCodes | RequestedAmount | SoftBudget | HardLimit | SelectedOffer
    | AuthorizationId | Status | DigestPrefix | OfferVersion | BindingVersion | ApprovalScheme
    | ExpiresAt | ConsumedAt | BoundMerchant | BoundProduct | BoundQuantity | BoundAmount | BoundCurrency
    | IntentId | Provider | ProviderPaymentId | IdempotencyKey | AmountInr | Currency | MerchantId
    | ReasonCode | State
    | ProviderEventId | CurrentState | RequestedState | TerminalFlag | OtherDetail(name: string)
    | AssessmentId | Score | Band | Recommendation | EngineVersion | ModelVersion | FactorCodes

  datatype PolicyOutcome = Allow | RequireApproval | Deny
  datatype Scheme = PolicyAuto | UserEd25519 | LegacyServer
  datatype AuthorizationStatus = AuthPending | AuthActive | AuthConsumed | AuthExpired | AuthRevoked

  /** A JSON string: the name of one of this build's enumeration values, or any other text. */
  datatype Str =
    | Text(text: string)
    | StateName(state: PaymentState)
    | ReasonName(reason: Reason)
    | OutcomeName(outcome: PolicyOutcome)
    | SchemeName(scheme: Scheme)
    | StatusName(status: AuthorizationStatus)

  datatype Json =
    | JNull | JBool(bool) | JInt(n: int) | JNumber(x: real) | JStr(s: Str)
    | JList(items: seq<Json>) | JObject(fields: map<Key, Json>)

  /** An event type this build declares, or a string it does not know. */
  datatype TypeTag = Known(event: EventType) | Unknown(name: string)

  /** One row of `audit_events`, less the hash columns. Event ids are compared in the order of their text. */
  datatype AuditEvent = AuditEvent(
    eventId: int, sequence: int, tag: TypeTag, actor: string, payload: Json)

  type Payload = map<Key, Json>

  function JText(s: string): Json { JStr(Text(s)) }
  function JState(s: PaymentState): Json { JStr(StateName(s)) }
  function JReason(r: Option<Reason>): Json { if r.None? then JNull else JStr(ReasonName(r.value)) }

  /** The event types that payment requests, workers and webhooks write. */
  predicate ExecutorType(t: EventType) {
    t.EvAuthorizationConsumed? || t.EvIntentCreated? || t.EvQueued? || t.EvAttempted? ||
    t.EvProviderTimeout? || t.EvUncertain? || t.EvRetryScheduled? || t.EvReconciled? ||
    t.EvSucceeded? || t.EvFailed? || t.EvIntentReused? || t.EvIdempotencyConflict? ||
    t.EvDeadLettered? || t.EvWebhookVerified? || t.EvDuplicateWebhook? || t.EvOutOfOrderWebhook? ||
    t.EvAuthorizationReplayDetected? || t.EvTransactionBindingFailure? || t.EvAuthorizationExpired?
  }

  /** The JSON type under which replay is able to read a key. */
  predicate Readable(k: Key, v: Json) {
    match k
    case State => v.JStr? && v.s.StateName?
    case AmountInr => v.JInt? || v.JNull?
    case TerminalFlag => true
    case OtherDetail(_) => true
    case _ => v.JStr? || v.JNull?
  }

  ghost predicate ReadablePayload(p: Payload) {
    forall k | k in p :: Readable(k, p[k])
  }

  /** The status an authorization event of the payment path names. */
  predicate NamesStatus(t: EventType, p: Payload) {
    && (t.EvAuthorizationConsumed? || t.EvAuthorizationReplayDetected? ==> Status in p && p[Status] == JStr(StatusName(AuthConsumed)))
    && (t.EvAuthorizationExpired? ==> Status in p && p[Status] == JStr(StatusName(AuthExpired)))
  }

  /** An event as the executor writes it: a known type, an actor and a payload every reader accepts. */
  ghost predicate Written(e: AuditEvent) {
    && e.tag.Known? && ExecutorType(e.tag.event) && e.actor != ""
    && e.payload.JObject? && ReadablePayload(e.payload.fields) && NamesStatus(e.tag.event, e.payload.fields)
  }
}
