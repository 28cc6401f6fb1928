/** What replay guarantees: it agrees with the live machine, does not depend on retrieval order,
    and takes no advice. */
module ReplayProofs {
  import opened Vocabulary
  import opened AuditEvents
  import opened ReplayCore
  import opened Replay
  import opened Tables
  import opened Protocol
  import opened ProtocolProofs
  import opened ProtocolTheorems
  import Sorting

  // ---- Replay refines execution ------------------------------------------------------------

  /** The three facts that are persisted too. */
  datatype Facts = Facts(mission: Option<MissionState>, payment: Option<PaymentState>, attempts: nat)

  function FactsOf(c: Core): Facts { Facts(c.mission, c.payment, c.attempts) }
  function FactsOfView(v: Projection): Facts { Facts(v.mission, v.payment.state, v.payment.attempts) }

  lemma PaymentRuleCore(v: PaymentView, t: EventType, p: Payload, at: int)
    requires PaymentRule(v, t, p, at).Ok?
    ensures var w := PaymentRule(v, t, p, at).value;
            && w.state == (if AdoptsState(t) then Adopted(v.state, p) else v.state)
            && w.attempts == (if t.EvAttempted? then v.attempts + 1 else v.attempts)
  {
  }

  lemma ApplyEventCore(v: Projection, e: AuditEvent)
    requires ApplyEvent(v, e).Ok?
    ensures e.tag.Known? && e.payload.JObject?
    ensures forall c :: FactsOf(c) == FactsOfView(v) ==>
              FactsOfView(ApplyEvent(v, e).value) == FactsOf(CoreStep(c, e.tag.event, e.payload.fields))
  {
    PaymentRuleCore(v.payment, e.tag.event, e.payload.fields, e.sequence);
  }

  /** The full reducer and the three persisted facts tell the same story. */
  lemma {:induction false} FoldHasCore(events: seq<AuditEvent>)
    requires Fold(events).Ok?
    ensures FactsOfView(Fold(events).value) == FactsOf(CoreOf(events))
  {
    if events != [] {
      FoldHasCore(events[..|events| - 1]);
      ApplyEventCore(Fold(events[..|events| - 1]).value, events[|events| - 1]);
    }
  }

  lemma ReadablePayment(v: PaymentView, t: EventType, p: Payload, at: int)
    requires ReadablePayload(p)
    ensures PaymentRule(v, t, p, at).Ok?
  {
  }

  lemma ReadableAuthorization(a: Authorization, t: EventType, p: Payload, at: int)
    requires ReadablePayload(p) && ExecutorType(t)
    ensures AuthorizationRule(a, t, p, at).Ok?
  {
  }

  /** Replay never refuses what the executor wrote. */
  lemma WrittenIsApplied(v: Projection, e: AuditEvent)
    requires Written(e)
    ensures ApplyEvent(v, e).Ok?
  {
    ReadablePayment(v.payment, e.tag.event, e.payload.fields, e.sequence);
    ReadableAuthorization(v.authorization, e.tag.event, e.payload.fields, e.sequence);
  }

  lemma {:induction false} GrownLedgerFolds(a: seq<AuditEvent>, b: seq<AuditEvent>)
    requires Fold(a).Ok? && LedgerGrows(a, b)
    ensures Fold(b).Ok?
    decreases |b|
  {
    if |a| == |b| {
      assert a == b;
    } else {
      var c := b[..|b| - 1];
      GrownLedgerFolds(a, c);
      WrittenIsApplied(Fold(c).value, b[|b| - 1]);
    }
  }

  /** Sequences as `append_event` hands them out. */
  predicate Numbered(events: seq<AuditEvent>) {
    forall k :: 0 <= k < |events| ==> events[k].sequence == k
  }

  lemma EarlierIsTotal()
    ensures Sorting.TotalPreorder(Earlier)
  {
  }

  lemma NumberedIsSorted(events: seq<AuditEvent>)
    requires Numbered(events)
    ensures Sorting.Sort(Earlier, events) == events
  {
    EarlierIsTotal();
    Sorting.SortOfSorted(Earlier, events);
  }

  lemma NumberedGrows(a: seq<AuditEvent>, b: seq<AuditEvent>)
    requires Numbered(a) && LedgerGrows(a, b)
    ensures Numbered(b)
  {
    forall k | 0 <= k < |b| ensures b[k].sequence == k {
      if k < |a| { assert b[k] == a[k]; }
    }
  }

  /** The ledger of any run reduces, and to the facts of the small fold. */
  lemma RunReduces(idempotent: bool, b: Bound, ledger: seq<AuditEvent>, now: Time, steps: seq<Step>)
    requires ReadyToPay(ledger) && Numbered(ledger) && Reduce(ledger).Ok?
    ensures var db := Run(idempotent, Start(b, ledger, now), steps).db;
            && Numbered(db.ledger) && Reduce(db.ledger).Ok?
            && FactsOfView(Reduce(db.ledger).value) == FactsOf(CoreOf(db.ledger))
  {
    hide Run, Start;
    var s := Start(b, ledger, now);
    StartIsSafe(idempotent, b, ledger, now);
    RunIsSafe(idempotent, s, steps);
    var db := Run(idempotent, s, steps).db;
    RequestLedgerGrows(b, ledger, now);
    assert s.db == CommitRequest(b, Authorized, ledger, now) by { StartRows(b, ledger, now); }
    LedgerGrowsTransitive(ledger, s.db.ledger, db.ledger);
    NumberedGrows(ledger, db.ledger);
    NumberedIsSorted(ledger);
    NumberedIsSorted(db.ledger);
    GrownLedgerFolds(ledger, db.ledger);
    FoldHasCore(db.ledger);
  }

  lemma StartRows(b: Bound, ledger: seq<AuditEvent>, now: Time)
    ensures Start(b, ledger, now).db == CommitRequest(b, Authorized, ledger, now)
  {
  }

  /** From an authorized mission whose ledger replays, after any run of requests, claims, handler
      sections, crashes and webhooks, reducing the ledger succeeds and gives exactly the persisted
      mission state and attempt count; and the persisted payment state too, exactly unless a stale
      repeated request was the last to name one. */
  lemma ReplayRefinesExecution(idempotent: bool, b: Bound, ledger: seq<AuditEvent>, now: Time, steps: seq<Step>)
    requires ReadyToPay(ledger) && Numbered(ledger) && Reduce(ledger).Ok?
    ensures var db := Run(idempotent, Start(b, ledger, now), steps).db;
            && Reduce(db.ledger).Ok?
            && var v := Reduce(db.ledger).value;
               && v.mission == Some(db.mission)
               && v.payment.attempts == db.intent.attempts
               && (v.payment.state == Some(db.intent.state) <==> !Lagging(idempotent, Start(b, ledger, now), steps, false))
  {
    hide Run, Start, Reduce, Lagging;
    RunReduces(idempotent, b, ledger, now, steps);
    AgreesUnlessLagging(idempotent, b, ledger, now, steps);
  }

  /** When every repeated request reports the current state, replay is the persisted state. */
  lemma TimelyReplayIsExact(idempotent: bool, b: Bound, ledger: seq<AuditEvent>, now: Time, steps: seq<Step>)
    requires ReadyToPay(ledger) && Numbered(ledger) && Reduce(ledger).Ok?
    requires Timely(idempotent, Start(b, ledger, now), steps)
    ensures var db := Run(idempotent, Start(b, ledger, now), steps).db;
            && Reduce(db.ledger).Ok?
            && FactsOfView(Reduce(db.ledger).value) == Facts(Some(db.mission), Some(db.intent.state), db.intent.attempts)
  {
    hide Run, Start, Reduce, Lagging, Timely;
    TimelyNeverLags(idempotent, Start(b, ledger, now), steps);
    ReplayRefinesExecution(idempotent, b, ledger, now, steps);
  }

  // ---- Order independence ------------------------------------------------------------------

  predicate DistinctIds(events: seq<AuditEvent>) {
    forall x, y :: x in events && y in events && x.eventId == y.eventId ==> x == y
  }

  /** The projection, or the refusal, is the same for every retrieval order. */
  lemma ReduceForgetsOrder(xs: seq<AuditEvent>, ys: seq<AuditEvent>)
    requires multiset(xs) == multiset(ys) && DistinctIds(xs)
    ensures Reduce(xs) == Reduce(ys)
  {
    EarlierIsTotal();
    Sorting.SortForgetsOrder(Earlier, xs, ys);
  }

  // ---- Advice is inert ---------------------------------------------------------------------

  /** An advisory event replay can read at all. */
  predicate Advice(e: AuditEvent) { e.tag == Known(EvRiskAssessed) && e.payload.JObject? }

  function Unadvised(events: seq<AuditEvent>): seq<AuditEvent> {
    if events == [] then []
    else
      var last := events[|events| - 1];
      Unadvised(events[..|events| - 1]) + if Advice(last) then [] else [last]
  }

  /** Everything but the advice list and the event count. */
  function Authority(v: Projection): Projection { v.(risk := [], events := 0) }

  /** Both refuse alike, or both agree on everything but the advice list and the event count. */
  predicate SameAuthority(a: Result<Projection>, b: Result<Projection>) {
    if a.Ok? && b.Ok? then Authority(a.value) == Authority(b.value) else a == b
  }

  lemma HandleIgnoresAdvice(v: Projection, w: Projection, e: AuditEvent)
    requires Authority(v) == Authority(w) && !Advice(e)
    ensures SameAuthority(ApplyEvent(v, e), ApplyEvent(w, e))
    ensures ApplyEvent(v, e).Ok? ==> ApplyEvent(v, e).value.risk == v.risk && ApplyEvent(v, e).value.events == v.events + 1
  {
  }

  /** The two folds side by side: same authority, no advice on the right, every event counted. */
  ghost predicate InStep(events: seq<AuditEvent>, a: Result<Projection>, b: Result<Projection>) {
    && SameAuthority(a, b)
    && (a.Ok? <==> b.Ok?)
    && (a.Ok? ==> a.value.events == |events| && b.value.risk == [] && b.value.events == |Unadvised(events)|)
  }

  lemma FoldSnoc(events: seq<AuditEvent>, e: AuditEvent)
    ensures Fold(events + [e]) == if Fold(events).Ok? then ApplyEvent(Fold(events).value, e) else Fold(events)
  {
  }

  lemma AdviceKeepsStep(before: seq<AuditEvent>, e: AuditEvent, v: Projection, w: Projection)
    requires InStep(before, Ok(v), Ok(w)) && Advice(e)
    ensures InStep(before + [e], ApplyEvent(v, e), Ok(w)) && Unadvised(before + [e]) == Unadvised(before)
  {
  }

  lemma OrdinaryKeepsStep(before: seq<AuditEvent>, e: AuditEvent, v: Projection, w: Projection)
    requires InStep(before, Ok(v), Ok(w)) && !Advice(e)
    ensures InStep(before + [e], ApplyEvent(v, e), ApplyEvent(w, e)) && Unadvised(before + [e]) == Unadvised(before) + [e]
  {
    assert (before + [e])[..|before|] == before;
    HandleIgnoresAdvice(v, w, e);
    HandleIgnoresAdvice(w, v, e);
  }

  lemma AdviceCase(before: seq<AuditEvent>, e: AuditEvent)
    requires InStep(before, Fold(before), Fold(Unadvised(before))) && Fold(before).Ok? && Advice(e)
    ensures InStep(before + [e], Fold(before + [e]), Fold(Unadvised(before + [e])))
  {
    FoldSnoc(before, e);
    AdviceKeepsStep(before, e, Fold(before).value, Fold(Unadvised(before)).value);
  }

  lemma OrdinaryCase(before: seq<AuditEvent>, e: AuditEvent)
    requires InStep(before, Fold(before), Fold(Unadvised(before))) && Fold(before).Ok? && !Advice(e)
    ensures InStep(before + [e], Fold(before + [e]), Fold(Unadvised(before + [e])))
  {
    FoldSnoc(before, e);
    FoldSnoc(Unadvised(before), e);
    OrdinaryKeepsStep(before, e, Fold(before).value, Fold(Unadvised(before)).value);
  }

  lemma RefusalStays(events: seq<AuditEvent>, e: AuditEvent)
    requires Fold(events).Refused?
    ensures Fold(events + [e]) == Fold(events)
  {
  }

  lemma RefusedCase(before: seq<AuditEvent>, e: AuditEvent)
    requires InStep(before, Fold(before), Fold(Unadvised(before))) && Fold(before).Refused?
    ensures InStep(before + [e], Fold(before + [e]), Fold(Unadvised(before + [e])))
  {
    RefusalStays(before, e);
    RefusalStays(Unadvised(before), e);
    assert (before + [e])[..|before|] == before;
    assert Unadvised(before + [e]) == if Advice(e) then Unadvised(before) else Unadvised(before) + [e];
  }

  lemma {:induction false} FoldIgnoresAdvice(events: seq<AuditEvent>)
    ensures InStep(events, Fold(events), Fold(Unadvised(events)))
  {
    if events != [] {
      var before, last := events[..|events| - 1], events[|events| - 1];
      FoldIgnoresAdvice(before);
      if Fold(before).Refused? { RefusedCase(before, last); }
      else if Advice(last) { AdviceCase(before, last); }
      else { OrdinaryCase(before, last); }
      assert events == before + [last];
    }
  }

  lemma {:induction false} UnadvisedMembers(events: seq<AuditEvent>)
    ensures forall e :: multiset(Unadvised(events))[e] == if Advice(e) then 0 else multiset(events)[e]
  {
    if events != [] {
      var before, last := events[..|events| - 1], events[|events| - 1];
      UnadvisedMembers(before);
      assert events == before + [last];
      assert multiset(events) == multiset(before) + multiset{last};
    }
  }

  lemma {:induction false} UnadvisedSorted(events: seq<AuditEvent>)
    requires Sorting.Sorted(Earlier, events)
    ensures Sorting.Sorted(Earlier, Unadvised(events))
  {
    if events != [] {
      var before, last := events[..|events| - 1], events[|events| - 1];
      UnadvisedSorted(before);
      UnadvisedMembers(before);
      forall i | 0 <= i < |Unadvised(before)| ensures Earlier(Unadvised(before)[i], last) {
        assert Unadvised(before)[i] in multiset(Unadvised(before));
        assert Unadvised(before)[i] in multiset(before);
        var j :| 0 <= j < |before| && before[j] == Unadvised(before)[i];
        assert Earlier(events[j], last);
      }
    }
  }

  /** Erasing every advisory event changes only the advice list and the event count, never a refusal. */
  lemma ReduceIgnoresAdvice(events: seq<AuditEvent>)
    requires DistinctIds(events)
    ensures SameAuthority(Reduce(events), Reduce(Unadvised(events)))
    ensures Reduce(events).Ok? ==>
              && Reduce(events).value.events == |events|
              && Reduce(Unadvised(events)).value.events == |Unadvised(events)|
              && Reduce(Unadvised(events)).value.risk == []
  {
    var sorted := Sorting.Sort(Earlier, events);
    EarlierIsTotal();
    Sorting.SortSorts(Earlier, events);
    Sorting.SortPermutes(Earlier, events);
    Sorting.SortSorts(Earlier, Unadvised(events));
    Sorting.SortPermutes(Earlier, Unadvised(events));
    UnadvisedSorted(sorted);
    UnadvisedMembers(sorted);
    UnadvisedMembers(events);
    assert multiset(Unadvised(sorted)) == multiset(Unadvised(events));
    UnadvisedDistinct(events, sorted);
    Sorting.SortedUnique(Earlier, Unadvised(sorted), Sorting.Sort(Earlier, Unadvised(events)));
    FoldIgnoresAdvice(sorted);
    Sorting.SameMembers(sorted, events);
    Sorting.SameMembers(Unadvised(sorted), Unadvised(events));
  }

  lemma UnadvisedDistinct(events: seq<AuditEvent>, sorted: seq<AuditEvent>)
    requires DistinctIds(events) && multiset(sorted) == multiset(events)
    ensures Sorting.DistinctKeys(Earlier, Unadvised(sorted))
  {
    Sorting.SameMembers(sorted, events);
    UnadvisedMembers(sorted);
    forall x | x in Unadvised(sorted) ensures x in events {
      assert x in multiset(Unadvised(sorted));
      assert x in multiset(sorted);
    }
  }
}
