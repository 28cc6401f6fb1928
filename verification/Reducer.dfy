/** The replay accumulator, mutated in place event by event, and the loop over the sorted events.
    A refusal abandons the accumulator, so its fields promise nothing after one. */
module Reducer {
  import opened Vocabulary
  import opened AuditEvents
  import opened ReplayCore
  import opened Replay
  import Sorting

  class ReplayState {
    var mission: Option<MissionState>
    var events: nat
    var admission: Admission
    var authorization: Authorization
    var payment: PaymentView
    var security: seq<SecurityRecord>
    var skipped: seq<Skipped>
    var risk: seq<Risk>

    function View(): Projection
      reads this
    {
      Projection(mission, events, admission, authorization, payment, security, skipped, risk)
    }

    constructor ()
      ensures View() == EMPTY
    {
      mission, events, admission, authorization := None, 0, EMPTY.admission, EMPTY.authorization;
      payment, security, skipped, risk := EMPTY.payment, [], [], [];
    }

    /** Move the mission if the state machine permits, and record it if not. */
    method AdvanceMission(e: AuditEvent, t: EventType, target: MissionState)
      modifies this`mission, this`skipped
      ensures mission == Advance(old(mission), target)
      ensures skipped == SkipRule(old(skipped), old(mission), e, t, Some(target))
    {
      if mission.None? {
        mission := Some(target);
      } else if mission.value == target {
      } else if CanMove(mission.value, target) {
        mission := Some(target);
      } else {
        skipped := skipped + [Skipped(e.sequence, t, mission.value, target)];
      }
    }

    /** Adopt the identifiers a payment payload carries and, on a transition event, its state. */
    method AdoptPaymentFields(t: EventType, p: Payload, at: int) returns (ok: bool)
      modifies this`payment
      ensures ok <==> AdoptRule(old(payment), t, p, at).Ok?
      ensures ok ==> payment == AdoptRule(old(payment), t, p, at).value
    {
      var common := CommonFields(payment, p, at);
      if common.Refused? { return false; }
      payment := common.value;
      if AdoptsState(t) {
        var adopted := StateField(payment, p, at);
        if adopted.Refused? { return false; }
        payment := adopted.value;
      }
      return true;
    }

    method CountPayment(t: EventType)
      modifies this`payment
      ensures payment == Counted(old(payment), t)
    {
      payment := payment.(counters := payment.counters[t := Count(payment, t) + 1]);
      if t.EvAttempted? { payment := payment.(attempts := payment.attempts + 1); }
      if t.EvIntentReused? { payment := payment.(reused := true); }
      if t.EvDeadLettered? { payment := payment.(deadLettered := true); }
    }

    method FoldPayment(t: EventType, p: Payload, at: int) returns (ok: bool)
      modifies this`payment
      ensures ok <==> PaymentRule(old(payment), t, p, at).Ok?
      ensures ok ==> payment == PaymentRule(old(payment), t, p, at).value
    {
      hide AdoptRule, Counted;
      if !PaymentEvent(t) { return true; }
      ok := AdoptPaymentFields(t, p, at);
      if ok { CountPayment(t); }
    }

    method RecordSecurity(e: AuditEvent, t: EventType, p: Payload) returns (ok: bool)
      modifies this`security
      ensures ok <==> SecurityRule(old(security), e, t, p).Ok?
      ensures ok ==> security == SecurityRule(old(security), e, t, p).value
    {
      if !SecurityEvent(t) { return true; }
      var reason := OptStr(p, ReasonCode, e.sequence);
      if reason.Refused? { return false; }
      security := security + [SecurityRecord(e.sequence, t, e.actor, reason.value, map k | k in p && SecurityKey(k) :: p[k])];
      return true;
    }

    method FoldAdmission(e: AuditEvent, t: EventType, p: Payload) returns (ok: bool)
      modifies this`admission, this`authorization
      ensures ok <==> AdmissionRule(old(admission), t, p, e.sequence).Ok? && AuthorizationRule(old(authorization), t, p, e.sequence).Ok?
      ensures ok ==> admission == AdmissionRule(old(admission), t, p, e.sequence).value
      ensures ok ==> authorization == AuthorizationRule(old(authorization), t, p, e.sequence).value
    {
      var a := AuthorizationRule(authorization, t, p, e.sequence);
      if a.Refused? { return false; }
      authorization := a.value;
      var m := AdmissionRule(admission, t, p, e.sequence);
      if m.Refused? { return false; }
      admission := m.value;
      return true;
    }

    method FoldParts(e: AuditEvent, t: EventType, p: Payload) returns (ok: bool)
      modifies this`payment, this`admission, this`authorization, this`security
      ensures ok <==> Parts(old(View()), e, t, p).Ok?
      ensures ok ==> View() == Parts(old(View()), e, t, p).value
    {
      hide PaymentRule, AdmissionRule, AuthorizationRule, SecurityRule;
      ok := FoldPayment(t, p, e.sequence);
      if !ok { return; }
      ok := FoldAdmission(e, t, p);
      if !ok { return; }
      ok := RecordSecurity(e, t, p);
    }

    method ApplyKnown(e: AuditEvent, t: EventType, p: Payload) returns (ok: bool)
      modifies this
      ensures ok <==> Handle(old(View()), e, t, p).Ok?
      ensures ok ==> View() == Handle(old(View()), e, t, p).value
    {
      hide Parts;
      ok := FoldParts(e, t, p);
      if !ok { return; }
      var target := MissionTarget(t, payment.state);
      if target.Some? {
        AdvanceMission(e, t, target.value);
      }
      risk := RiskRule(risk, e, t, p);
      events := events + 1;
    }

    /** Fold one event into the accumulator, or say why the whole replay is refused. */
    method Apply(e: AuditEvent) returns (refusal: Option<RefusalCode>)
      modifies this
      ensures refusal.None? ==> ApplyEvent(old(View()), e) == Ok(View())
      ensures refusal.Some? ==> ApplyEvent(old(View()), e) == Refused(refusal.value, e.sequence)
    {
      if e.tag.Unknown? { return Some(UnsupportedEventType); }
      if !e.payload.JObject? { return Some(MalformedEvent); }
      HandleRefusesMalformed(View(), e, e.tag.event, e.payload.fields);
      var ok := ApplyKnown(e, e.tag.event, e.payload.fields);
      return if ok then None else Some(MalformedEvent);
    }
  }

  lemma PaymentRefusal(v: PaymentView, t: EventType, p: Payload, at: int)
    ensures PaymentRule(v, t, p, at).Refused? ==> PaymentRule(v, t, p, at) == Refused(MalformedEvent, at)
  {
  }

  lemma AuthorizationRefusal(a: Authorization, t: EventType, p: Payload, at: int)
    ensures AuthorizationRule(a, t, p, at).Refused? ==> AuthorizationRule(a, t, p, at) == Refused(MalformedEvent, at)
  {
  }

  lemma AdmissionRefusal(m: Admission, t: EventType, p: Payload, at: int)
    ensures AdmissionRule(m, t, p, at).Refused? ==> AdmissionRule(m, t, p, at) == Refused(MalformedEvent, at)
  {
  }

  /** A handler refuses in one way only: malformed, at the event's own sequence. */
  lemma HandleRefusesMalformed(v: Projection, e: AuditEvent, t: EventType, p: Payload)
    ensures Handle(v, e, t, p).Refused? ==> Handle(v, e, t, p) == Refused(MalformedEvent, e.sequence)
  {
    PaymentRefusal(v.payment, t, p, e.sequence);
    AuthorizationRefusal(v.authorization, t, p, e.sequence);
    AdmissionRefusal(v.admission, t, p, e.sequence);
  }

  /** A refusal anywhere refuses the whole fold with the same words. */
  lemma {:induction false} RefusalSticks(events: seq<AuditEvent>, k: nat)
    requires k <= |events| && Fold(events[..k]).Refused?
    ensures Fold(events) == Fold(events[..k])
    decreases |events|
  {
    if k == |events| {
      assert events[..k] == events;
    } else {
      var shorter := events[..|events| - 1];
      assert shorter[..k] == events[..k];
      RefusalSticks(shorter, k);
    }
  }

  /** Reconstruct a mission from whatever order its events were retrieved in. */
  method ReduceEvents(events: seq<AuditEvent>) returns (r: Result<Projection>)
    ensures r == Reduce(events)
  {
    var ordered := Sorting.Sort(Earlier, events);
    var state := new ReplayState();
    var i := 0;
    while i < |ordered|
      invariant 0 <= i <= |ordered|
      invariant Fold(ordered[..i]) == Ok(state.View())
    {
      assert ordered[..i + 1][..i] == ordered[..i];
      var refusal := state.Apply(ordered[i]);
      if refusal.Some? {
        RefusalSticks(ordered, i + 1);
        return Refused(refusal.value, ordered[i].sequence);
      }
      i := i + 1;
    }
    assert ordered[..i] == ordered;
    r := Ok(state.View());
  }
}
