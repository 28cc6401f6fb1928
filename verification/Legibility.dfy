/** What replay refuses: an undeclared type, a payload that is no object, or a field of the wrong shape; and
    nothing else. */
module Legibility {
  import opened Vocabulary
  import opened AuditEvents
  import opened Replay
  import opened Projections
  import opened Reducer
  import Sorting

  datatype Shape = AString | AnInteger | AListOfStrings | AnObject | AState | AnOutcome | AScheme

  /** A value of that shape; an explicit null always passes. */
  predicate Fits(shape: Shape, v: Json) {
    v.JNull? || match shape
      case AString => v.JStr?
      case AnInteger => v.JInt?
      case AListOfStrings => v.JList? && forall i :: 0 <= i < |v.items| ==> v.items[i].JStr?
      case AnObject => v.JObject?
      case AState => v.JStr? && v.s.StateName?
      case AnOutcome => v.JStr? && v.s.OutcomeName?
      case AScheme => v.JStr? && v.s.SchemeName?
  }

  const OF_A_PAYMENT: map<Key, Shape> := map[
    IntentId := AString, Provider := AString, ProviderPaymentId := AString, IdempotencyKey := AString, AmountInr := AnInteger,
    Currency := AString, MerchantId := AString, ReasonCode := AString]

  const OF_AN_ISSUE: map<Key, Shape> := map[
    AuthorizationId := AString, Status := AString, DigestPrefix := AString, PolicyVersion := AString, OfferVersion := AString,
    BindingVersion := AString, ApprovalScheme := AScheme, ExpiresAt := AString, BoundMerchant := AString, BoundProduct := AString,
    BoundQuantity := AnInteger, BoundAmount := AnInteger, BoundCurrency := AString]

  const OF_A_DECISION: map<Key, Shape> := map[
    Decision := AnOutcome, PolicyVersion := AString, ReasonCodes := AListOfStrings, RequestedAmount := AnInteger,
    SoftBudget := AnInteger, HardLimit := AnInteger, SelectedOffer := AString]

  /** The shape each kind of event must give its fields, where it has them. */
  function AuthorizationShapes(t: EventType): map<Key, Shape> {
    match t
    case EvApprovalRequested => map[AuthorizationId := AString]
    case EvIntentCreated => map[AuthorizationId := AString]
    case EvAuthorizationCreated => OF_AN_ISSUE
    case EvAuthorizationActivated => map[AuthorizationId := AString, Status := AString, DigestPrefix := AString, ApprovalScheme := AScheme]
    case EvAuthorizationConsumed => map[Status := AString, ConsumedAt := AString]
    case EvAuthorizationReplayDetected => map[Status := AString, ConsumedAt := AString]
    case EvAuthorizationExpired => map[Status := AString, ExpiresAt := AString]
    case EvAuthorizationRevoked => map[Status := AString]
    case _ => map[]
  }

  function AdmissionShapes(t: EventType): map<Key, Shape> {
    match t
    case EvMissionCreated => map[RawQuery := AString, Quantity := AnInteger]
    case EvIntentParsed => map[Constraints := AnObject]
    case EvOffersReceived => map[RawOfferCount := AnInteger]
    case EvOffersNormalized => map[ValidCount := AnInteger, InvalidCount := AnInteger, TaintedFields := AListOfStrings]
    case EvPolicyDecision => OF_A_DECISION
    case EvApprovalRequested => map[RequestedAmount := AnInteger]
    case EvMissionDenied => map[ReasonCodes := AListOfStrings]
    case _ => map[]
  }

  function SecurityShapes(t: EventType): map<Key, Shape> { if t in SECURITY_EVENTS then map[ReasonCode := AString] else map[] }

  predicate Has(p: Payload, k: Key, shape: Shape) { k in p ==> Fits(shape, p[k]) }

  ghost predicate Shaped(shapes: map<Key, Shape>, p: Payload) { forall k, s :: k in shapes && shapes[k] == s ==> Has(p, k, s) }

  ghost predicate PaymentShaped(t: EventType, p: Payload) {
    (t in PAYMENT_EVENTS ==> Shaped(OF_A_PAYMENT, p)) && (t in TRANSITION_EVENTS ==> Has(p, State, AState))
  }

  /** An event replay can read: of a declared type, with an object payload, every field of its shape. */
  ghost predicate Legible(e: AuditEvent) {
    && e.tag.Known? && e.payload.JObject?
    && PaymentShaped(e.tag.event, e.payload.fields) && Shaped(AuthorizationShapes(e.tag.event), e.payload.fields)
    && Shaped(AdmissionShapes(e.tag.event), e.payload.fields) && Shaped(SecurityShapes(e.tag.event), e.payload.fields)
  }

  /** Each strict reader refuses exactly the wrong shape. */
  lemma ReadersAreStrict(p: Payload, at: int)
    ensures forall k :: OptStr(p, k, at).Ok? <==> Has(p, k, AString)
    ensures forall k :: OptInt(p, k, at).Ok? <==> Has(p, k, AnInteger)
    ensures forall k :: OptStrList(p, k, at).Ok? <==> Has(p, k, AListOfStrings)
    ensures OptScheme(p, at).Ok? <==> Has(p, ApprovalScheme, AScheme)
  {
  }

  lemma CommonReads(v: PaymentView, p: Payload, at: int)
    ensures CommonFields(v, p, at).Ok? <==> Shaped(OF_A_PAYMENT, p)
  {
    hide OptStr, OptInt, Has;
    ReadersAreStrict(p, at);
  }

  lemma PaymentReads(v: PaymentView, t: EventType, p: Payload, at: int)
    ensures PaymentRule(v, t, p, at).Ok? <==> PaymentShaped(t, p)
  {
    hide CommonFields, Shaped;
    CommonReads(v, p, at);
    PaymentKinds(t);
  }

  lemma IssueReads(a: Authorization, p: Payload, at: int)
    ensures AuthorizationCreated(a, p, at).Ok? <==> Shaped(OF_AN_ISSUE, p)
  {
    hide OptStr, OptInt, OptScheme, Has;
    ReadersAreStrict(p, at);
  }

  lemma ActivateReads(a: Authorization, p: Payload, at: int)
    ensures AuthorizationActivated(a, p, at).Ok? <==> Shaped(AuthorizationShapes(EvAuthorizationActivated), p)
  {
    hide OptStr, OptScheme, Has;
    ReadersAreStrict(p, at);
  }

  lemma AuthorizationReads(a: Authorization, t: EventType, p: Payload, at: int)
    ensures AuthorizationRule(a, t, p, at).Ok? <==> Shaped(AuthorizationShapes(t), p)
  {
    hide AuthorizationCreated, AuthorizationActivated, OptStr, Has;
    ReadersAreStrict(p, at);
    IssueReads(a, p, at);
    ActivateReads(a, p, at);
  }

  lemma DecisionReads(m: Admission, p: Payload, at: int)
    ensures PolicyDecided(m, p, at).Ok? <==> Shaped(OF_A_DECISION, p)
  {
    hide OptInt, OptStrList;
    ReadersAreStrict(p, at);
    assert Shaped(OF_A_DECISION, p) ==> Has(p, Decision, AnOutcome);
  }

  lemma AdmissionReads(m: Admission, t: EventType, p: Payload, at: int)
    ensures AdmissionRule(m, t, p, at).Ok? <==> Shaped(AdmissionShapes(t), p)
  {
    hide PolicyDecided, OptStr, OptInt, OptStrList;
    ReadersAreStrict(p, at);
    DecisionReads(m, p, at);
    assert t.EvIntentParsed? && Shaped(AdmissionShapes(t), p) ==> Has(p, Constraints, AnObject);
  }

  lemma SecurityReads(log: seq<SecurityRecord>, e: AuditEvent, t: EventType, p: Payload)
    ensures SecurityRule(log, e, t, p).Ok? <==> Shaped(SecurityShapes(t), p)
  {
    hide OptStr, Has;
    ReadersAreStrict(p, e.sequence);
  }

  /** Whether an event is refused depends on the event alone. */
  lemma AppliesIffLegible(v: Projection, e: AuditEvent)
    ensures ApplyEvent(v, e).Ok? <==> Legible(e)
    ensures !Legible(e) ==> ApplyEvent(v, e) == Refused(if e.tag.Known? then MalformedEvent else UnsupportedEventType, e.sequence)
  {
    hide PaymentRule, AuthorizationRule, AdmissionRule, SecurityRule, Shaped, PaymentShaped;
    if e.tag.Known? && e.payload.JObject? {
      PaymentReads(v.payment, e.tag.event, e.payload.fields, e.sequence);
      AuthorizationReads(v.authorization, e.tag.event, e.payload.fields, e.sequence);
      AdmissionReads(v.admission, e.tag.event, e.payload.fields, e.sequence);
      SecurityReads(v.security, e, e.tag.event, e.payload.fields);
      HandleRefusesMalformed(v, e, e.tag.event, e.payload.fields);
    }
  }

  /** The first event that cannot be read, if there is one. */
  ghost predicate FirstIllegible(events: seq<AuditEvent>, k: nat) {
    k < |events| && !Legible(events[k]) && forall j :: 0 <= j < k ==> Legible(events[j])
  }

  /** A history is refused exactly for its first unreadable event, in that event's name. */
  lemma {:induction false} FoldsIffLegible(events: seq<AuditEvent>)
    ensures Fold(events).Ok? <==> forall k :: 0 <= k < |events| ==> Legible(events[k])
    ensures forall k: nat :: FirstIllegible(events, k) ==>
              Fold(events) == Refused(if events[k].tag.Known? then MalformedEvent else UnsupportedEventType, events[k].sequence)
  {
    hide ApplyEvent, Legible;
    if events != [] {
      var before, e := events[..|events| - 1], events[|events| - 1];
      FoldsIffLegible(before);
      assert forall k :: 0 <= k < |before| ==> before[k] == events[k];
      if Fold(before).Ok? {
        AppliesIffLegible(Fold(before).value, e);
      } else {
        FirstIsThere(before);
        var k: nat :| FirstIllegible(before, k);
        assert FirstIllegible(events, k);
      }
    }
  }

  lemma {:induction false} FirstIsThere(events: seq<AuditEvent>)
    requires exists k :: 0 <= k < |events| && !Legible(events[k])
    ensures exists k: nat :: FirstIllegible(events, k)
  {
    hide Legible;
    var before := events[..|events| - 1];
    if exists k :: 0 <= k < |before| && !Legible(before[k]) {
      FirstIsThere(before);
      var k: nat :| FirstIllegible(before, k);
      assert forall j :: 0 <= j < |before| ==> before[j] == events[j];
      assert FirstIllegible(events, k);
    } else {
      assert forall j :: 0 <= j < |before| ==> before[j] == events[j];
      assert FirstIllegible(events, |before|);
    }
  }

  /** In whatever order the rows were retrieved. */
  lemma ReducesIffLegible(events: seq<AuditEvent>)
    ensures Reduce(events).Ok? <==> forall e :: e in events ==> Legible(e)
  {
    hide Legible;
    var sorted := Sorting.Sort(Earlier, events);
    FoldsIffLegible(sorted);
    Sorting.SortPermutes(Earlier, events);
    Sorting.SameMembers(sorted, events);
    if forall k :: 0 <= k < |sorted| ==> Legible(sorted[k]) {
      forall e | e in events ensures Legible(e) { assert e in sorted; }
    } else {
      var k :| 0 <= k < |sorted| && !Legible(sorted[k]);
      assert sorted[k] in sorted;
    }
  }
}
