/** What every projected field of a replay holds: what the last event that recorded it recorded, or how
    many events of a kind there were. Nothing here refers to the reducer's own rules. */
module Projections {
  import opened Vocabulary
  import opened AuditEvents
  import opened ReplayCore
  import opened Replay
  import Sorting

  // ---- Reading one event -------------------------------------------------------------------

  predicate Is(e: AuditEvent, t: EventType) { e.tag == Known(t) }

  function FieldsOf(e: AuditEvent): Payload { if e.payload.JObject? then e.payload.fields else map[] }

  function Named(e: AuditEvent, k: Key): Option<Str> {
    if k in FieldsOf(e) && FieldsOf(e)[k].JStr? then Some(FieldsOf(e)[k].s) else None
  }

  function Number(e: AuditEvent, k: Key): Option<int> {
    if k in FieldsOf(e) && FieldsOf(e)[k].JInt? then Some(FieldsOf(e)[k].n) else None
  }

  function Listed(e: AuditEvent, k: Key): seq<Str> {
    if k in FieldsOf(e) && FieldsOf(e)[k].JList? then
      seq(|FieldsOf(e)[k].items|, i requires 0 <= i < |FieldsOf(e)[k].items| =>
        if FieldsOf(e)[k].items[i].JStr? then FieldsOf(e)[k].items[i].s else Text(""))
    else []
  }

  /** Recorded if it is a non-empty string, or a non-zero number. */
  function NonEmpty(s: Option<Str>): Option<Option<Str>> { if s.Some? && s.value != Text("") then Some(s) else None }
  function NonZero(n: Option<int>): Option<Option<int>> { if n.Some? && n.value != 0 then Some(n) else None }

  function Either<T>(first: Option<T>, second: Option<T>): Option<T> { if first.Some? then first else second }
  function When<T>(c: bool, x: T): Option<T> { if c then Some(x) else None }
  function Given<T>(c: bool, x: Option<T>): Option<T> { if c then x else None }

  // ---- Reading a history -------------------------------------------------------------------

  /** What the last event that recorded something recorded. */
  function Latest<T>(first: T, records: AuditEvent -> Option<T>, events: seq<AuditEvent>): T {
    if events == [] then first
    else
      var last := records(events[|events| - 1]);
      if last.Some? then last.value else Latest(first, records, events[..|events| - 1])
  }

  function Count(t: EventType, events: seq<AuditEvent>): nat {
    if events == [] then 0 else Count(t, events[..|events| - 1]) + if Is(events[|events| - 1], t) then 1 else 0
  }

  // ---- Admission ---------------------------------------------------------------------------

  function Query(e: AuditEvent): Option<Option<Str>> { When(Is(e, EvMissionCreated), Named(e, RawQuery)) }
  function Wanted(e: AuditEvent): Option<Option<int>> { When(Is(e, EvMissionCreated), Number(e, Quantity)) }
  function Raw(e: AuditEvent): Option<Option<int>> { When(Is(e, EvOffersReceived), Number(e, RawOfferCount)) }
  function Accepted(e: AuditEvent): Option<Option<int>> { When(Is(e, EvOffersNormalized), Number(e, ValidCount)) }
  function Rejected(e: AuditEvent): Option<Option<int>> { When(Is(e, EvOffersNormalized), Number(e, InvalidCount)) }
  function Tainted(e: AuditEvent): Option<seq<Str>> { When(Is(e, EvOffersNormalized), Listed(e, TaintedFields)) }

  function Decided(e: AuditEvent): Option<Option<PolicyOutcome>> {
    if Is(e, EvPolicyDecision) && Named(e, Decision).Some? && Named(e, Decision).value.OutcomeName?
    then Some(Some(Named(e, Decision).value.outcome)) else None
  }

  function Ruleset(e: AuditEvent): Option<Option<Str>> { When(Is(e, EvPolicyDecision), Named(e, PolicyVersion)) }
  function Selected(e: AuditEvent): Option<Option<Str>> { When(Is(e, EvPolicyDecision), Named(e, SelectedOffer)) }

  function Reasons(e: AuditEvent): Option<seq<Str>> {
    Either(When(Is(e, EvPolicyDecision), Listed(e, ReasonCodes)),
           When(Is(e, EvMissionDenied) && Listed(e, ReasonCodes) != [], Listed(e, ReasonCodes)))
  }

  function Asked(e: AuditEvent): Option<Option<int>> {
    Either(When(Is(e, EvPolicyDecision), Number(e, RequestedAmount)), Given(Is(e, EvApprovalRequested), NonZero(Number(e, RequestedAmount))))
  }

  /** An integer inside the parsed constraints. */
  function Constraint(e: AuditEvent, k: Key): Option<Option<int>> {
    if Constraints in FieldsOf(e) && FieldsOf(e)[Constraints].JObject? && k in FieldsOf(e)[Constraints].fields && FieldsOf(e)[Constraints].fields[k].JInt?
    then Some(Some(FieldsOf(e)[Constraints].fields[k].n)) else None
  }

  function Soft(e: AuditEvent): Option<Option<int>> {
    Either(Given(Is(e, EvIntentParsed), Constraint(e, SoftBudgetInr)), Given(Is(e, EvPolicyDecision), NonZero(Number(e, SoftBudget))))
  }

  function Hard(e: AuditEvent): Option<Option<int>> {
    Either(Given(Is(e, EvIntentParsed), Constraint(e, HardLimitInr)), Given(Is(e, EvPolicyDecision), NonZero(Number(e, HardLimit))))
  }

  /** An approval was requested, and an authorization activated after it. */
  predicate Granted(events: seq<AuditEvent>) {
    exists i, j :: 0 <= i < j < |events| && Is(events[i], EvApprovalRequested) && Is(events[j], EvAuthorizationActivated)
  }

  // ---- Authorization -----------------------------------------------------------------------

  /** The status an event names, or the one its type stands for. */
  function OrElse(named: Option<Str>, standing: AuthorizationStatus): Option<Str> {
    if named.Some? && named.value != Text("") then named else Some(StatusName(standing))
  }

  function StatusTold(e: AuditEvent): Option<Option<Str>> {
    if Is(e, EvAuthorizationCreated) then Some(OrElse(Named(e, Status), AuthPending))
    else if Is(e, EvAuthorizationActivated) then Some(OrElse(Named(e, Status), AuthActive))
    else if Is(e, EvAuthorizationConsumed) then Some(OrElse(Named(e, Status), AuthConsumed))
    else if Is(e, EvAuthorizationExpired) then Some(OrElse(Named(e, Status), AuthExpired))
    else if Is(e, EvAuthorizationRevoked) then Some(OrElse(Named(e, Status), AuthRevoked))
    else Given(Is(e, EvAuthorizationReplayDetected), NonEmpty(Named(e, Status)))
  }

  function Artifact(e: AuditEvent): Option<Option<Str>> {
    Given(Is(e, EvApprovalRequested) || Is(e, EvIntentCreated) || Is(e, EvAuthorizationCreated) || Is(e, EvAuthorizationActivated),
          NonEmpty(Named(e, AuthorizationId)))
  }

  function Digest(e: AuditEvent): Option<Option<Str>> {
    Either(When(Is(e, EvAuthorizationCreated), Named(e, DigestPrefix)), Given(Is(e, EvAuthorizationActivated), NonEmpty(Named(e, DigestPrefix))))
  }

  function Expiry(e: AuditEvent): Option<Option<Str>> {
    Either(When(Is(e, EvAuthorizationCreated), Named(e, ExpiresAt)), Given(Is(e, EvAuthorizationExpired), NonEmpty(Named(e, ExpiresAt))))
  }

  function Spent(e: AuditEvent): Option<Option<Str>> {
    Either(When(Is(e, EvAuthorizationConsumed), Named(e, ConsumedAt)), Given(Is(e, EvAuthorizationReplayDetected), NonEmpty(Named(e, ConsumedAt))))
  }

  function SchemeNamed(e: AuditEvent): Option<Scheme> {
    if Named(e, ApprovalScheme).Some? && Named(e, ApprovalScheme).value.SchemeName? then Some(Named(e, ApprovalScheme).value.scheme) else None
  }

  function Origin(e: AuditEvent): Option<Option<Scheme>> {
    Either(When(Is(e, EvAuthorizationCreated), SchemeNamed(e)),
           When(Is(e, EvAuthorizationActivated) && SchemeNamed(e).Some?, SchemeNamed(e)))
  }

  function Issued(k: Key): AuditEvent -> Option<Option<Str>> { e => When(Is(e, EvAuthorizationCreated), Named(e, k)) }
  function IssuedNumber(k: Key): AuditEvent -> Option<Option<int>> { e => When(Is(e, EvAuthorizationCreated), Number(e, k)) }

  // ---- Payment -----------------------------------------------------------------------------

  const PAYMENT_EVENTS: set<EventType> := {
    EvIntentCreated, EvQueued, EvAttempted, EvProviderTimeout, EvUncertain, EvRetryScheduled, EvReconciled, EvSucceeded,
    EvFailed, EvIntentReused, EvDeadLettered, EvWebhookVerified, EvDuplicateWebhook, EvOutOfOrderWebhook }

  const TRANSITION_EVENTS: set<EventType> := {EvQueued, EvAttempted, EvUncertain, EvRetryScheduled, EvSucceeded, EvFailed, EvIntentReused}

  predicate OfPayment(e: AuditEvent) { e.tag.Known? && e.tag.event in PAYMENT_EVENTS }

  function Stated(k: Key): AuditEvent -> Option<Option<Str>> { e => Given(OfPayment(e), NonEmpty(Named(e, k))) }
  function Amount(e: AuditEvent): Option<Option<int>> { Given(OfPayment(e), NonZero(Number(e, AmountInr))) }

  /** A reason is recorded by presence: a null clears it. */
  function LastWord(e: AuditEvent): Option<Option<Str>> { When(OfPayment(e) && ReasonCode in FieldsOf(e), Named(e, ReasonCode)) }

  function StateTold(e: AuditEvent): Option<Option<PaymentState>> {
    if e.tag.Known? && e.tag.event in TRANSITION_EVENTS && Named(e, State).Some? && Named(e, State).value.StateName?
    then Some(Some(Named(e, State).value.state)) else None
  }

  // ---- Security ----------------------------------------------------------------------------

  const SECURITY_EVENTS: set<EventType> := {
    EvSecurityViolation, EvAuthorizationReplayDetected, EvTransactionBindingFailure, EvIdempotencyConflict, EvWebhookRejected,
    EvDuplicateWebhook, EvOutOfOrderWebhook, EvMissionDenied }

  function SecurityEntry(e: AuditEvent): seq<SecurityRecord> {
    if e.tag.Known? && e.tag.event in SECURITY_EVENTS
    then [SecurityRecord(e.sequence, e.tag.event, e.actor, Named(e, ReasonCode), map k | k in FieldsOf(e) && Carried(k) :: FieldsOf(e)[k])]
    else []
  }

  /** What a security record may carry of its payload. */
  predicate Carried(k: Key) {
    k in {MerchantId, Status, CurrentState, RequestedState, ProviderEventId, IdempotencyKey, ReasonCodes, TerminalFlag} || k.OtherDetail?
  }

  // ---- Advice ------------------------------------------------------------------------------

  function AdviceEntry(e: AuditEvent): seq<Risk> {
    if Is(e, EvRiskAssessed)
    then [Risk(e.sequence, Named(e, AssessmentId), Scored(e), Named(e, Band), Named(e, Recommendation), Named(e, EngineVersion),
               Named(e, ModelVersion), if FactorCodes in FieldsOf(e) && FieldsOf(e)[FactorCodes].JList? then FieldsOf(e)[FactorCodes].items else [])]
    else []
  }

  /** A score is any number, and Python counts a boolean as one. */
  function Scored(e: AuditEvent): Option<real> {
    if Score !in FieldsOf(e) then None
    else if FieldsOf(e)[Score].JNumber? then Some(FieldsOf(e)[Score].x)
    else if FieldsOf(e)[Score].JInt? then Some(FieldsOf(e)[Score].n as real)
    else if FieldsOf(e)[Score] == JBool(true) then Some(1.0)
    else if FieldsOf(e)[Score] == JBool(false) then Some(0.0)
    else None
  }

  // ---- The mission -------------------------------------------------------------------------

  const MISSION_ASKED: map<EventType, MissionState> := map[
    EvMissionCreated := Drafted, EvIntentParsed := IntentParsed, EvDiscoveryStarted := Discovering,
    EvOffersReceived := OffersReceived, EvOffersNormalized := OffersNormalized, EvOffersRanked := Ranked,
    EvPolicyDecision := PolicyChecked, EvApprovalRequested := AwaitingApproval, EvMissionDenied := Withdrawn,
    EvAuthorizationActivated := Authorized, EvQueued := PaymentPending, EvSucceeded := PaymentSucceeded]

  const MISSION_MOVES: set<(MissionState, MissionState)> := {
    (Drafted, IntentParsed), (IntentParsed, Discovering), (Discovering, OffersReceived), (OffersReceived, OffersNormalized),
    (OffersNormalized, Ranked), (Ranked, PolicyChecked), (PolicyChecked, AwaitingApproval), (PolicyChecked, Authorized),
    (AwaitingApproval, Authorized), (Authorized, PaymentPending), (PaymentPending, PaymentSucceeded), (PaymentPending, PaymentFailed),
    (PaymentSucceeded, Completed), (PaymentFailed, PaymentPending),
    (Drafted, Withdrawn), (IntentParsed, Withdrawn), (Discovering, Withdrawn), (OffersReceived, Withdrawn), (OffersNormalized, Withdrawn),
    (Ranked, Withdrawn), (PolicyChecked, Withdrawn), (AwaitingApproval, Withdrawn), (Authorized, Withdrawn), (PaymentFailed, Withdrawn) }

  /** The mission state an event asks for, given the payment state it leaves behind. */
  function Asks(e: AuditEvent, payment: Option<PaymentState>): Option<MissionState> {
    if Is(e, EvFailed) then When(payment == Some(FailedTerminal), PaymentFailed)
    else if e.tag.Known? && e.tag.event in MISSION_ASKED then Some(MISSION_ASKED[e.tag.event])
    else None
  }

  /** The mission's path and the moves it was refused. */
  datatype Journey = Journey(at: Option<MissionState>, skipped: seq<Skipped>)

  function Travelled(events: seq<AuditEvent>): Journey {
    if events == [] then Journey(None, [])
    else
      var before, e := Travelled(events[..|events| - 1]), events[|events| - 1];
      var asked := Asks(e, Latest(None, StateTold, events));
      if asked.None? || asked == before.at then before
      else if before.at.None? || (before.at.value, asked.value) in MISSION_MOVES then before.(at := asked)
      else before.(skipped := before.skipped + if e.tag.Known? then [Skipped(e.sequence, e.tag.event, before.at.value, asked.value)] else [])
  }

  /** One entry per event that has one, in order. */
  function Gathered<T>(entry: AuditEvent -> seq<T>, events: seq<AuditEvent>): seq<T> {
    if events == [] then [] else Gathered(entry, events[..|events| - 1]) + entry(events[|events| - 1])
  }

  // ---- The projection is that ----------------------------------------------------------------

  ghost predicate AdmissionHolds(m: Admission, events: seq<AuditEvent>) {
    && m.rawQuery == Latest(None, Query, events) && m.quantity == Latest(None, Wanted, events)
    && m.rawOffers == Latest(None, Raw, events) && m.validOffers == Latest(None, Accepted, events)
    && m.invalidOffers == Latest(None, Rejected, events) && m.tainted == Latest([], Tainted, events)
    && m.decision == Latest(None, Decided, events) && m.policyVersion == Latest(None, Ruleset, events)
    && m.reasonCodes == Latest([], Reasons, events) && m.requestedAmount == Latest(None, Asked, events)
    && m.softBudget == Latest(None, Soft, events) && m.hardLimit == Latest(None, Hard, events)
    && m.selectedOffer == Latest(None, Selected, events)
    && m.approvalRequired == (Count(EvApprovalRequested, events) > 0) && m.approvalGranted == Granted(events)
  }

  ghost predicate AuthorizationHolds(a: Authorization, events: seq<AuditEvent>) {
    && a.status == Latest(None, StatusTold, events) && a.authorizationId == Latest(None, Artifact, events)
    && a.digestPrefix == Latest(None, Digest, events) && a.expiresAt == Latest(None, Expiry, events)
    && a.consumedAt == Latest(None, Spent, events) && a.scheme == Latest(None, Origin, events)
    && a.policyVersion == Latest(None, Issued(PolicyVersion), events) && a.offerVersion == Latest(None, Issued(OfferVersion), events)
    && a.bindingVersion == Latest(None, Issued(BindingVersion), events) && a.merchant == Latest(None, Issued(BoundMerchant), events)
    && a.product == Latest(None, Issued(BoundProduct), events) && a.currency == Latest(None, Issued(BoundCurrency), events)
    && a.quantity == Latest(None, IssuedNumber(BoundQuantity), events) && a.amount == Latest(None, IssuedNumber(BoundAmount), events)
    && a.replayDetected == (Count(EvAuthorizationReplayDetected, events) > 0)
    && a.bindingFailures == Count(EvTransactionBindingFailure, events)
  }

  ghost predicate PaymentHolds(v: PaymentView, events: seq<AuditEvent>) {
    && v.intentId == Latest(None, Stated(IntentId), events) && v.provider == Latest(None, Stated(Provider), events)
    && v.providerPaymentId == Latest(None, Stated(ProviderPaymentId), events) && v.key == Latest(None, Stated(IdempotencyKey), events)
    && v.currency == Latest(None, Stated(Currency), events) && v.merchant == Latest(None, Stated(MerchantId), events)
    && v.amount == Latest(None, Amount, events) && v.lastReason == Latest(None, LastWord, events)
    && v.state == Latest(None, StateTold, events) && v.attempts == Count(EvAttempted, events)
    && v.reused == (Count(EvIntentReused, events) > 0) && v.deadLettered == (Count(EvDeadLettered, events) > 0)
    && forall t :: Replay.Count(v, t) == if t in PAYMENT_EVENTS then Count(t, events) else 0
  }

  /** One more event, for any recorded field. */
  lemma LatestAppend<T>(first: T, records: AuditEvent -> Option<T>, events: seq<AuditEvent>, e: AuditEvent)
    ensures Latest(first, records, events + [e]) == if records(e).Some? then records(e).value else Latest(first, records, events)
  {
    assert (events + [e])[..|events|] == events;
  }

  lemma CountAppend(t: EventType, events: seq<AuditEvent>, e: AuditEvent)
    ensures Count(t, events + [e]) == Count(t, events) + if Is(e, t) then 1 else 0
  {
    assert (events + [e])[..|events|] == events;
  }

  lemma GrantedAppend(events: seq<AuditEvent>, e: AuditEvent)
    ensures Granted(events + [e]) <==> Granted(events) || (Is(e, EvAuthorizationActivated) && Count(EvApprovalRequested, events) > 0)
  {
    var all := events + [e];
    CountFinds(EvApprovalRequested, events);
    if Granted(events) {
      var i, j :| 0 <= i < j < |events| && Is(events[i], EvApprovalRequested) && Is(events[j], EvAuthorizationActivated);
      assert Is(all[i], EvApprovalRequested) && Is(all[j], EvAuthorizationActivated);
    } else if Is(e, EvAuthorizationActivated) && Count(EvApprovalRequested, events) > 0 {
      var i :| 0 <= i < |events| && Is(events[i], EvApprovalRequested);
      assert Is(all[i], EvApprovalRequested) && Is(all[|events|], EvAuthorizationActivated);
    }
    if Granted(all) {
      var i, j :| 0 <= i < j < |all| && Is(all[i], EvApprovalRequested) && Is(all[j], EvAuthorizationActivated);
      assert Is(events[i], EvApprovalRequested);
      if j < |events| { assert Is(events[j], EvAuthorizationActivated); }
    }
  }

  lemma {:induction false} CountFinds(t: EventType, events: seq<AuditEvent>)
    ensures Count(t, events) > 0 <==> exists i :: 0 <= i < |events| && Is(events[i], t)
  {
    if events != [] {
      var before := events[..|events| - 1];
      CountFinds(t, before);
      if exists i :: 0 <= i < |before| && Is(before[i], t) {
        var i :| 0 <= i < |before| && Is(before[i], t);
        assert Is(events[i], t);
      }
      if exists i :: 0 <= i < |events| && Is(events[i], t) {
        var i :| 0 <= i < |events| && Is(events[i], t);
        if i < |before| { assert Is(before[i], t); }
      }
    }
  }

  /** The field after an event: what it recorded, or what was held. */
  function Pick<T>(recorded: Option<T>, held: T): T { if recorded.Some? then recorded.value else held }

  /** What the strict readers accept is what is there. */
  lemma Reads(e: AuditEvent, at: int)
    requires e.payload.JObject?
    ensures forall k :: OptStr(e.payload.fields, k, at).Ok? ==> OptStr(e.payload.fields, k, at).value == Named(e, k)
    ensures forall k :: OptInt(e.payload.fields, k, at).Ok? ==> OptInt(e.payload.fields, k, at).value == Number(e, k)
    ensures forall k :: OptStrList(e.payload.fields, k, at).Ok? ==> OrEmpty(OptStrList(e.payload.fields, k, at).value) == Listed(e, k)
  {
  }

  /** What one event does to the admission fields: each takes what the event recorded, or stays. */
  ghost predicate AdmissionMoves(m: Admission, n: Admission, e: AuditEvent) {
    && n.rawQuery == Pick(Query(e), m.rawQuery) && n.quantity == Pick(Wanted(e), m.quantity)
    && n.rawOffers == Pick(Raw(e), m.rawOffers) && n.validOffers == Pick(Accepted(e), m.validOffers)
    && n.invalidOffers == Pick(Rejected(e), m.invalidOffers) && n.tainted == Pick(Tainted(e), m.tainted)
    && n.decision == Pick(Decided(e), m.decision) && n.policyVersion == Pick(Ruleset(e), m.policyVersion)
    && n.reasonCodes == Pick(Reasons(e), m.reasonCodes) && n.requestedAmount == Pick(Asked(e), m.requestedAmount)
    && n.softBudget == Pick(Soft(e), m.softBudget) && n.hardLimit == Pick(Hard(e), m.hardLimit)
    && n.selectedOffer == Pick(Selected(e), m.selectedOffer)
    && n.approvalRequired == (m.approvalRequired || Is(e, EvApprovalRequested))
    && n.approvalGranted == (m.approvalGranted || (Is(e, EvAuthorizationActivated) && m.approvalRequired))
  }

  lemma DecisionStep(m: Admission, e: AuditEvent)
    requires Is(e, EvPolicyDecision) && e.payload.JObject? && PolicyDecided(m, e.payload.fields, e.sequence).Ok?
    ensures AdmissionMoves(m, PolicyDecided(m, e.payload.fields, e.sequence).value, e)
  {
    hide OptStr, OptInt, OptStrList, Named, Number, Listed;
    Reads(e, e.sequence);
  }

  lemma ParsedStep(m: Admission, e: AuditEvent)
    requires Is(e, EvMissionCreated) || Is(e, EvIntentParsed)
    requires e.payload.JObject? && AdmissionRule(m, e.tag.event, e.payload.fields, e.sequence).Ok?
    ensures AdmissionMoves(m, AdmissionRule(m, e.tag.event, e.payload.fields, e.sequence).value, e)
  {
    hide OptStr, OptInt, OptStrList, Named, Number, Listed;
    Reads(e, e.sequence);
  }

  lemma OfferStep(m: Admission, e: AuditEvent)
    requires Is(e, EvOffersReceived) || Is(e, EvOffersNormalized)
    requires e.payload.JObject? && AdmissionRule(m, e.tag.event, e.payload.fields, e.sequence).Ok?
    ensures AdmissionMoves(m, AdmissionRule(m, e.tag.event, e.payload.fields, e.sequence).value, e)
  {
    hide OptStr, OptInt, OptStrList, Named, Number, Listed;
    Reads(e, e.sequence);
  }

  lemma RefusalStep(m: Admission, e: AuditEvent)
    requires Is(e, EvApprovalRequested) || Is(e, EvMissionDenied)
    requires e.payload.JObject? && AdmissionRule(m, e.tag.event, e.payload.fields, e.sequence).Ok?
    ensures AdmissionMoves(m, AdmissionRule(m, e.tag.event, e.payload.fields, e.sequence).value, e)
  {
    hide OptStr, OptInt, OptStrList, Named, Number, Listed;
    Reads(e, e.sequence);
  }

  lemma AdmissionStep(m: Admission, e: AuditEvent)
    requires e.tag.Known? && e.payload.JObject? && AdmissionRule(m, e.tag.event, e.payload.fields, e.sequence).Ok?
    ensures AdmissionMoves(m, AdmissionRule(m, e.tag.event, e.payload.fields, e.sequence).value, e)
  {
    hide OptStr, OptInt, OptStrList, Named, Number, Listed, PolicyDecided;
    if Is(e, EvPolicyDecision) {
      DecisionStep(m, e);
    } else if Is(e, EvMissionCreated) || Is(e, EvIntentParsed) {
      ParsedStep(m, e);
    } else if Is(e, EvOffersReceived) || Is(e, EvOffersNormalized) {
      OfferStep(m, e);
    } else if Is(e, EvApprovalRequested) || Is(e, EvMissionDenied) {
      RefusalStep(m, e);
    }
  }

  /** What one event does to the authorization fields. */
  ghost predicate AuthorizationMoves(a: Authorization, n: Authorization, e: AuditEvent) {
    && n.status == Pick(StatusTold(e), a.status) && n.authorizationId == Pick(Artifact(e), a.authorizationId)
    && n.digestPrefix == Pick(Digest(e), a.digestPrefix) && n.expiresAt == Pick(Expiry(e), a.expiresAt)
    && n.consumedAt == Pick(Spent(e), a.consumedAt) && n.scheme == Pick(Origin(e), a.scheme)
    && n.policyVersion == Pick(Issued(PolicyVersion)(e), a.policyVersion) && n.offerVersion == Pick(Issued(OfferVersion)(e), a.offerVersion)
    && n.bindingVersion == Pick(Issued(BindingVersion)(e), a.bindingVersion) && n.merchant == Pick(Issued(BoundMerchant)(e), a.merchant)
    && n.product == Pick(Issued(BoundProduct)(e), a.product) && n.currency == Pick(Issued(BoundCurrency)(e), a.currency)
    && n.quantity == Pick(IssuedNumber(BoundQuantity)(e), a.quantity) && n.amount == Pick(IssuedNumber(BoundAmount)(e), a.amount)
    && n.replayDetected == (a.replayDetected || Is(e, EvAuthorizationReplayDetected))
    && n.bindingFailures == a.bindingFailures + (if Is(e, EvTransactionBindingFailure) then 1 else 0)
  }

  lemma IssueStep(a: Authorization, e: AuditEvent)
    requires Is(e, EvAuthorizationCreated) && e.payload.JObject? && AuthorizationCreated(a, e.payload.fields, e.sequence).Ok?
    ensures AuthorizationMoves(a, AuthorizationCreated(a, e.payload.fields, e.sequence).value, e)
  {
    hide OptStr, OptInt, Named, Number;
    Reads(e, e.sequence);
  }

  lemma ActivateStep(a: Authorization, e: AuditEvent)
    requires Is(e, EvAuthorizationActivated) && e.payload.JObject? && AuthorizationActivated(a, e.payload.fields, e.sequence).Ok?
    ensures AuthorizationMoves(a, AuthorizationActivated(a, e.payload.fields, e.sequence).value, e)
  {
    hide OptStr, OptInt, Named, Number;
    Reads(e, e.sequence);
  }

  lemma SpendStep(a: Authorization, e: AuditEvent)
    requires Is(e, EvAuthorizationConsumed) || Is(e, EvAuthorizationReplayDetected)
    requires e.payload.JObject? && AuthorizationRule(a, e.tag.event, e.payload.fields, e.sequence).Ok?
    ensures AuthorizationMoves(a, AuthorizationRule(a, e.tag.event, e.payload.fields, e.sequence).value, e)
  {
    hide OptStr, OptInt, Named, Number;
    Reads(e, e.sequence);
  }

  lemma LapseStep(a: Authorization, e: AuditEvent)
    requires Is(e, EvAuthorizationExpired) || Is(e, EvAuthorizationRevoked)
    requires e.payload.JObject? && AuthorizationRule(a, e.tag.event, e.payload.fields, e.sequence).Ok?
    ensures AuthorizationMoves(a, AuthorizationRule(a, e.tag.event, e.payload.fields, e.sequence).value, e)
  {
    hide OptStr, OptInt, Named, Number;
    Reads(e, e.sequence);
  }

  lemma AuthorizationStep(a: Authorization, e: AuditEvent)
    requires e.tag.Known? && e.payload.JObject? && AuthorizationRule(a, e.tag.event, e.payload.fields, e.sequence).Ok?
    ensures AuthorizationMoves(a, AuthorizationRule(a, e.tag.event, e.payload.fields, e.sequence).value, e)
  {
    hide OptStr, OptInt, Named, Number, AuthorizationCreated, AuthorizationActivated;
    if Is(e, EvAuthorizationCreated) {
      IssueStep(a, e);
    } else if Is(e, EvAuthorizationActivated) {
      ActivateStep(a, e);
    } else if Is(e, EvAuthorizationConsumed) || Is(e, EvAuthorizationReplayDetected) {
      SpendStep(a, e);
    } else if Is(e, EvAuthorizationExpired) || Is(e, EvAuthorizationRevoked) {
      LapseStep(a, e);
    } else {
      Reads(e, e.sequence);
    }
  }

  lemma CommonStep(v: PaymentView, e: AuditEvent)
    requires e.payload.JObject? && OfPayment(e) && CommonFields(v, e.payload.fields, e.sequence).Ok?
    ensures var n := CommonFields(v, e.payload.fields, e.sequence).value;
            && n.intentId == Pick(Stated(IntentId)(e), v.intentId) && n.provider == Pick(Stated(Provider)(e), v.provider)
            && n.providerPaymentId == Pick(Stated(ProviderPaymentId)(e), v.providerPaymentId) && n.key == Pick(Stated(IdempotencyKey)(e), v.key)
            && n.currency == Pick(Stated(Currency)(e), v.currency) && n.merchant == Pick(Stated(MerchantId)(e), v.merchant)
            && n.amount == Pick(Amount(e), v.amount) && n.lastReason == Pick(LastWord(e), v.lastReason)
            && n == v.(intentId := n.intentId, provider := n.provider, providerPaymentId := n.providerPaymentId, key := n.key,
                       currency := n.currency, merchant := n.merchant, amount := n.amount, lastReason := n.lastReason)
  {
  }

  lemma PaymentKinds(t: EventType)
    ensures PaymentEvent(t) <==> t in PAYMENT_EVENTS
  {
  }

  /** What one event does to the payment fields. */
  ghost predicate PaymentMoves(v: PaymentView, n: PaymentView, e: AuditEvent) {
    && n.intentId == Pick(Stated(IntentId)(e), v.intentId) && n.provider == Pick(Stated(Provider)(e), v.provider)
    && n.providerPaymentId == Pick(Stated(ProviderPaymentId)(e), v.providerPaymentId) && n.key == Pick(Stated(IdempotencyKey)(e), v.key)
    && n.currency == Pick(Stated(Currency)(e), v.currency) && n.merchant == Pick(Stated(MerchantId)(e), v.merchant)
    && n.amount == Pick(Amount(e), v.amount) && n.lastReason == Pick(LastWord(e), v.lastReason)
    && n.state == Pick(StateTold(e), v.state)
    && n.attempts == v.attempts + (if Is(e, EvAttempted) then 1 else 0)
    && n.reused == (v.reused || Is(e, EvIntentReused)) && n.deadLettered == (v.deadLettered || Is(e, EvDeadLettered))
    && forall t :: Replay.Count(n, t) == Replay.Count(v, t) + if Is(e, t) && t in PAYMENT_EVENTS then 1 else 0
  }

  lemma AdoptStep(v: PaymentView, e: AuditEvent)
    requires e.payload.JObject? && OfPayment(e) && AdoptRule(v, e.tag.event, e.payload.fields, e.sequence).Ok?
    ensures var n := AdoptRule(v, e.tag.event, e.payload.fields, e.sequence).value;
            CommonFields(v, e.payload.fields, e.sequence).Ok? &&
            n == CommonFields(v, e.payload.fields, e.sequence).value.(state := Pick(StateTold(e), v.state))
  {
    hide CommonFields;
    CommonStep(v, e);
  }

  lemma PaymentStep(v: PaymentView, e: AuditEvent)
    requires e.tag.Known? && e.payload.JObject? && PaymentRule(v, e.tag.event, e.payload.fields, e.sequence).Ok?
    ensures PaymentMoves(v, PaymentRule(v, e.tag.event, e.payload.fields, e.sequence).value, e)
  {
    hide CommonFields, AdoptRule;
    PaymentKinds(e.tag.event);
    if OfPayment(e) {
      AdoptStep(v, e);
      CommonStep(v, e);
    }
  }

  // ---- The mission, the security history and the advice ----------------------------------------

  lemma TargetTable(e: AuditEvent, payment: Option<PaymentState>)
    requires e.tag.Known?
    ensures MissionTarget(e.tag.event, payment) == Asks(e, payment)
  {
  }

  lemma MovesTable(current: MissionState, target: MissionState)
    ensures CanMove(current, target) <==> (current, target) in MISSION_MOVES
  {
  }

  lemma SecurityStep(log: seq<SecurityRecord>, e: AuditEvent)
    requires e.tag.Known? && e.payload.JObject? && SecurityRule(log, e, e.tag.event, e.payload.fields).Ok?
    ensures SecurityRule(log, e, e.tag.event, e.payload.fields).value == log + SecurityEntry(e)
  {
    hide OptStr, Named;
    Reads(e, e.sequence);
    var p := e.payload.fields;
    assert (map k | k in p && SecurityKey(k) :: p[k]) == (map k | k in p && Carried(k) :: p[k]);
  }

  lemma AdviceStep(log: seq<Risk>, e: AuditEvent)
    requires e.tag.Known? && e.payload.JObject?
    ensures RiskRule(log, e, e.tag.event, e.payload.fields) == log + AdviceEntry(e)
  {
  }

  // ---- Over a whole history ------------------------------------------------------------------

  /** Every projected field, told from the history alone. */
  ghost predicate Tells(v: Projection, events: seq<AuditEvent>) {
    && AdmissionHolds(v.admission, events) && AuthorizationHolds(v.authorization, events) && PaymentHolds(v.payment, events)
    && Journey(v.mission, v.skipped) == Travelled(events) && v.events == |events|
    && v.security == Gathered(SecurityEntry, events) && v.risk == Gathered(AdviceEntry, events)
  }

  lemma GatheredAppend<T>(entry: AuditEvent -> seq<T>, events: seq<AuditEvent>, e: AuditEvent)
    ensures Gathered(entry, events + [e]) == Gathered(entry, events) + entry(e)
  {
    assert (events + [e])[..|events|] == events;
  }

  lemma AdmissionAppend(m: Admission, n: Admission, events: seq<AuditEvent>, e: AuditEvent)
    requires AdmissionHolds(m, events) && AdmissionMoves(m, n, e)
    ensures AdmissionHolds(n, events + [e])
  {
    hide Latest, Count, Granted, Query, Wanted, Raw, Accepted, Rejected, Tainted, Decided, Ruleset, Reasons, Asked, Soft, Hard, Selected;
    LatestAppend(None, Query, events, e); LatestAppend(None, Wanted, events, e); LatestAppend(None, Raw, events, e);
    LatestAppend(None, Accepted, events, e); LatestAppend(None, Rejected, events, e); LatestAppend([], Tainted, events, e);
    LatestAppend(None, Decided, events, e); LatestAppend(None, Ruleset, events, e); LatestAppend([], Reasons, events, e);
    LatestAppend(None, Asked, events, e); LatestAppend(None, Soft, events, e); LatestAppend(None, Hard, events, e);
    LatestAppend(None, Selected, events, e);
    CountAppend(EvApprovalRequested, events, e);
    GrantedAppend(events, e);
  }

  lemma AuthorizationAppend(a: Authorization, n: Authorization, events: seq<AuditEvent>, e: AuditEvent)
    requires AuthorizationHolds(a, events) && AuthorizationMoves(a, n, e)
    ensures AuthorizationHolds(n, events + [e])
  {
    hide Latest, Count, StatusTold, Artifact, Digest, Expiry, Spent, Origin, Issued, IssuedNumber;
    LatestAppend(None, StatusTold, events, e); LatestAppend(None, Artifact, events, e); LatestAppend(None, Digest, events, e);
    LatestAppend(None, Expiry, events, e); LatestAppend(None, Spent, events, e); LatestAppend(None, Origin, events, e);
    LatestAppend(None, Issued(PolicyVersion), events, e); LatestAppend(None, Issued(OfferVersion), events, e);
    LatestAppend(None, Issued(BindingVersion), events, e); LatestAppend(None, Issued(BoundMerchant), events, e);
    LatestAppend(None, Issued(BoundProduct), events, e); LatestAppend(None, Issued(BoundCurrency), events, e);
    LatestAppend(None, IssuedNumber(BoundQuantity), events, e); LatestAppend(None, IssuedNumber(BoundAmount), events, e);
    CountAppend(EvAuthorizationReplayDetected, events, e);
    CountAppend(EvTransactionBindingFailure, events, e);
  }

  lemma PaymentAppend(v: PaymentView, n: PaymentView, events: seq<AuditEvent>, e: AuditEvent)
    requires PaymentHolds(v, events) && PaymentMoves(v, n, e)
    ensures PaymentHolds(n, events + [e])
  {
    hide Latest, Count, Replay.Count, Stated, Amount, LastWord, StateTold;
    LatestAppend(None, Stated(IntentId), events, e); LatestAppend(None, Stated(Provider), events, e);
    LatestAppend(None, Stated(ProviderPaymentId), events, e); LatestAppend(None, Stated(IdempotencyKey), events, e);
    LatestAppend(None, Stated(Currency), events, e); LatestAppend(None, Stated(MerchantId), events, e);
    LatestAppend(None, Amount, events, e); LatestAppend(None, LastWord, events, e); LatestAppend(None, StateTold, events, e);
    forall t ensures Count(t, events + [e]) == Count(t, events) + if Is(e, t) then 1 else 0 { CountAppend(t, events, e); }
  }

  lemma JourneyAppend(v: Projection, events: seq<AuditEvent>, e: AuditEvent)
    requires Journey(v.mission, v.skipped) == Travelled(events) && ApplyEvent(v, e).Ok?
    requires ApplyEvent(v, e).value.payment.state == Latest(None, StateTold, events + [e])
    ensures var w := ApplyEvent(v, e).value; Journey(w.mission, w.skipped) == Travelled(events + [e])
  {
    hide Parts, Latest, MissionTarget, CanMove, Asks, RiskRule;
    var all, w := events + [e], ApplyEvent(v, e).value;
    assert all[..|events|] == events;
    TargetTable(e, w.payment.state);
    var asked := Asks(e, w.payment.state);
    if asked.Some? && v.mission.Some? { MovesTable(v.mission.value, asked.value); }
  }

  /** One more event: the projection still tells the history. */
  lemma ApplyTells(v: Projection, events: seq<AuditEvent>, e: AuditEvent)
    requires Tells(v, events) && ApplyEvent(v, e).Ok?
    ensures Tells(ApplyEvent(v, e).value, events + [e])
  {
    hide PaymentRule, AdmissionRule, AuthorizationRule, SecurityRule, RiskRule, MissionTarget, Advance, SkipRule, Latest, Count, Gathered, Travelled;
    hide AdmissionHolds, AuthorizationHolds, AdmissionMoves, AuthorizationMoves, PaymentMoves, SecurityEntry, AdviceEntry;
    var w := ApplyEvent(v, e).value;
    PaymentStep(v.payment, e);
    PaymentAppend(v.payment, w.payment, events, e);
    AuthorizationStep(v.authorization, e);
    AuthorizationAppend(v.authorization, w.authorization, events, e);
    AdmissionStep(v.admission, e);
    AdmissionAppend(v.admission, w.admission, events, e);
    JourneyAppend(v, events, e);
    SecurityStep(v.security, e);
    GatheredAppend(SecurityEntry, events, e);
    AdviceStep(v.risk, e);
    GatheredAppend(AdviceEntry, events, e);
  }

  lemma NothingTells()
    ensures Tells(EMPTY, [])
  {
  }

  /** Whatever history replay accepts, its projection says of every field what the last event that recorded
      the field recorded, counts the events it counts, and follows the mission along its permitted moves. */
  lemma {:induction false} FoldTells(events: seq<AuditEvent>)
    requires Fold(events).Ok?
    ensures Tells(Fold(events).value, events)
  {
    hide ApplyEvent, Tells;
    if events == [] {
      NothingTells();
    } else {
      var before, e := events[..|events| - 1], events[|events| - 1];
      FoldTells(before);
      ApplyTells(Fold(before).value, before, e);
      assert events == before + [e];
    }
  }

  /** In whatever order the rows were retrieved. */
  lemma ReduceTells(events: seq<AuditEvent>)
    requires Reduce(events).Ok?
    ensures Tells(Reduce(events).value, Sorting.Sort(Earlier, events))
  {
    hide Tells;
    FoldTells(Sorting.Sort(Earlier, events));
  }
}
