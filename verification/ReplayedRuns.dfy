/** What replaying the ledger of a whole run says of the fields no row repeats: the authorization is spent, and
    the payment is the one that was requested. */
module ReplayedRuns {
  import opened Vocabulary
  import opened AuditEvents
  import opened Replay
  import opened Tables
  import opened Protocol
  import opened ProtocolProofs
  import opened ProtocolTheorems
  import opened Projections
  import opened ReplayProofs

  /** A field recorded, and since then only ever with that value, holds that value. */
  lemma {:induction false} LatestSince<T>(first: T, records: AuditEvent -> Option<T>, events: seq<AuditEvent>, k: nat, x: T)
    requires k < |events| && records(events[k]) == Some(x)
    requires forall j :: k < j < |events| ==> records(events[j]).None? || records(events[j]) == Some(x)
    ensures Latest(first, records, events) == x
    decreases |events|
  {
    var before := events[..|events| - 1];
    if k < |before| && records(events[|before|]).None? {
      LatestSince(first, records, before, k, x);
    }
  }

  /** A field nothing recorded since keeps what it had. */
  lemma {:induction false} LatestKept<T>(first: T, records: AuditEvent -> Option<T>, events: seq<AuditEvent>, from: nat)
    requires from <= |events| && forall j :: from <= j < |events| ==> records(events[j]).None?
    ensures Latest(first, records, events) == Latest(first, records, events[..from])
    decreases |events|
  {
    if from < |events| {
      var before := events[..|events| - 1];
      LatestKept(first, records, before, from);
      assert before[..from] == events[..from];
    } else {
      assert events[..from] == events;
    }
  }

  /** The ledger of a run: what was there, the three events of the request, and events that are written by the
      payment path and speak of this payment. */
  ghost predicate RunLedger(b: Bound, ledger: seq<AuditEvent>, all: seq<AuditEvent>) {
    && LedgerGrows(ledger, all) && LedgerSpeaksOf(b, ledger, all) && |all| >= |ledger| + 3
    && Is(all[|ledger|], EvAuthorizationConsumed)
    && Is(all[|ledger| + 1], EvIntentCreated) && all[|ledger| + 1].payload == JObject(CreatedPayload(b))
  }

  lemma StartSpeaks(b: Bound, ledger: seq<AuditEvent>, now: Time)
    ensures RunLedger(b, ledger, Start(b, ledger, now).db.ledger) && Start(b, ledger, now).db.intent.bound == b
  {
    RequestLedgerGrows(b, ledger, now);
  }

  lemma RunSpeaks(idempotent: bool, b: Bound, ledger: seq<AuditEvent>, now: Time, steps: seq<Step>)
    requires ReadyToPay(ledger)
    ensures RunLedger(b, ledger, Run(idempotent, Start(b, ledger, now), steps).db.ledger)
  {
    hide Run, Start, Inv, SpeaksOf, CreatedPayload;
    var s := Start(b, ledger, now);
    StartSpeaks(b, ledger, now);
    StartIsSafe(idempotent, b, ledger, now);
    RunIsSafe(idempotent, s, steps);
    LedgerGrowsTransitive(ledger, s.db.ledger, Run(idempotent, s, steps).db.ledger);
  }

  // ---- The authorization is spent -------------------------------------------------------------

  /** An expiry was recorded since, and no consumption or refused replay after it. */
  ghost predicate ExpiredLast(all: seq<AuditEvent>, from: nat) {
    exists k :: from <= k < |all| && Is(all[k], EvAuthorizationExpired) &&
      forall j :: k < j < |all| ==> !Is(all[j], EvAuthorizationConsumed) && !Is(all[j], EvAuthorizationReplayDetected)
  }

  lemma ToldByPaymentPath(e: AuditEvent)
    requires Written(e)
    ensures StatusTold(e) ==
      if Is(e, EvAuthorizationConsumed) || Is(e, EvAuthorizationReplayDetected) then Some(Some(StatusName(AuthConsumed)))
      else if Is(e, EvAuthorizationExpired) then Some(Some(StatusName(AuthExpired)))
      else None
  {
  }

  lemma {:induction false} StatusSince(all: seq<AuditEvent>, from: nat)
    requires from < |all| && Is(all[from], EvAuthorizationConsumed)
    requires forall k :: from <= k < |all| ==> Written(all[k])
    ensures Latest(None, StatusTold, all) == Some(StatusName(if ExpiredLast(all, from) then AuthExpired else AuthConsumed))
    decreases |all|
  {
    hide Written, StatusTold;
    var before, e := all[..|all| - 1], all[|all| - 1];
    ToldByPaymentPath(e);
    if Is(e, EvAuthorizationExpired) {
      assert ExpiredLast(all, from);
    } else if StatusTold(e).None? {
      StatusSince(before, from);
      if ExpiredLast(before, from) {
        var k :| from <= k < |before| && Is(before[k], EvAuthorizationExpired) &&
          forall j :: k < j < |before| ==> !Is(before[j], EvAuthorizationConsumed) && !Is(before[j], EvAuthorizationReplayDetected);
        assert Is(all[k], EvAuthorizationExpired);
        assert forall j :: k < j < |before| ==> all[j] == before[j];
        assert ExpiredLast(all, from);
      }
      if ExpiredLast(all, from) {
        var k :| from <= k < |all| && Is(all[k], EvAuthorizationExpired) &&
          forall j :: k < j < |all| ==> !Is(all[j], EvAuthorizationConsumed) && !Is(all[j], EvAuthorizationReplayDetected);
        assert Is(before[k], EvAuthorizationExpired);
        assert forall j :: k < j < |before| ==> all[j] == before[j];
        assert ExpiredLast(before, from);
      }
    }
  }

  /** After every run, replay says the authorization is CONSUMED, exactly unless an expiry was the last to
      name a status since the request. */
  lemma ReplayedAuthorizationIsSpent(idempotent: bool, b: Bound, ledger: seq<AuditEvent>, now: Time, steps: seq<Step>)
    requires ReadyToPay(ledger) && Numbered(ledger) && Reduce(ledger).Ok?
    ensures var db := Run(idempotent, Start(b, ledger, now), steps).db;
            && Reduce(db.ledger).Ok?
            && Reduce(db.ledger).value.authorization.status ==
               Some(StatusName(if ExpiredLast(db.ledger, |ledger|) then AuthExpired else AuthConsumed))
  {
    hide Run, Start, Reduce, Written, LedgerSpeaksOf, CreatedPayload, ExpiredLast, PaymentHolds, AdmissionHolds;
    var all := Run(idempotent, Start(b, ledger, now), steps).db.ledger;
    RunTells(idempotent, b, ledger, now, steps);
    RunSpeaks(idempotent, b, ledger, now, steps);
    StatusSince(all, |ledger|);
  }

  /** After every run the reduction succeeds and every projected field tells the whole ledger. */
  lemma RunTells(idempotent: bool, b: Bound, ledger: seq<AuditEvent>, now: Time, steps: seq<Step>)
    requires ReadyToPay(ledger) && Numbered(ledger) && Reduce(ledger).Ok?
    ensures var db := Run(idempotent, Start(b, ledger, now), steps).db;
            Reduce(db.ledger).Ok? && Tells(Reduce(db.ledger).value, db.ledger)
  {
    hide Run, Start, Tells, Reduce;
    var db := Run(idempotent, Start(b, ledger, now), steps).db;
    RunReduces(idempotent, b, ledger, now, steps);
    ReduceTells(db.ledger);
    NumberedIsSorted(db.ledger);
  }

  // ---- The payment is the one requested ---------------------------------------------------------

  /** A text column of the intent, as every event since the request that names it names it. */
  lemma ColumnReplays(k: Key, value: string, ledger: seq<AuditEvent>, all: seq<AuditEvent>)
    requires |ledger| + 1 < |all| && ledger <= all
    requires forall j :: |ledger| <= j < |all| ==> all[j].payload.JObject? && (k in all[j].payload.fields ==> all[j].payload.fields[k] == JText(value))
    requires Is(all[|ledger| + 1], EvIntentCreated) && k in all[|ledger| + 1].payload.fields
    ensures Latest(None, Stated(k), all) == if value != "" then Some(Text(value)) else Latest(None, Stated(k), ledger)
  {
    if value != "" {
      LatestSince(None, Stated(k), all, |ledger| + 1, Some(Text(value)));
    } else {
      LatestKept(None, Stated(k), all, |ledger|);
      assert all[..|ledger|] == ledger;
    }
  }

  lemma AmountReplays(value: int, ledger: seq<AuditEvent>, all: seq<AuditEvent>)
    requires |ledger| + 1 < |all| && ledger <= all
    requires forall j :: |ledger| <= j < |all| ==> all[j].payload.JObject? && (AmountInr in all[j].payload.fields ==> all[j].payload.fields[AmountInr] == JInt(value))
    requires Is(all[|ledger| + 1], EvIntentCreated) && AmountInr in all[|ledger| + 1].payload.fields
    ensures Latest(None, Amount, all) == if value != 0 then Some(value) else Latest(None, Amount, ledger)
  {
    if value != 0 {
      LatestSince(None, Amount, all, |ledger| + 1, Some(value));
    } else {
      LatestKept(None, Amount, all, |ledger|);
      assert all[..|ledger|] == ledger;
    }
  }

  /** A value the intent holds, or what the ledger said before if the intent's is blank. */
  function Held(value: string, before: Option<Str>): Option<Str> { if value != "" then Some(Text(value)) else before }

  /** The payment columns of the projection, after any ledger of a run. */
  lemma LedgerNamesThePayment(b: Bound, ledger: seq<AuditEvent>, all: seq<AuditEvent>)
    requires RunLedger(b, ledger, all)
    ensures Latest(None, Stated(IntentId), all) == Held(b.id, Latest(None, Stated(IntentId), ledger))
    ensures Latest(None, Stated(Provider), all) == Held(b.provider, Latest(None, Stated(Provider), ledger))
    ensures Latest(None, Stated(IdempotencyKey), all) == Held(b.key, Latest(None, Stated(IdempotencyKey), ledger))
    ensures Latest(None, Stated(Currency), all) == Held(b.currency, Latest(None, Stated(Currency), ledger))
    ensures Latest(None, Amount, all) == if b.amount != 0 then Some(b.amount) else Latest(None, Amount, ledger)
  {
    hide Latest, Stated, Amount;
    ColumnReplays(IntentId, b.id, ledger, all);
    ColumnReplays(Provider, b.provider, ledger, all);
    ColumnReplays(IdempotencyKey, b.key, ledger, all);
    ColumnReplays(Currency, b.currency, ledger, all);
    AmountReplays(b.amount, ledger, all);
  }

  /** After every run the replayed payment carries the intent's id, provider, key, currency and amount; a blank
      one is not adopted. */
  lemma ReplayedPaymentIsTheRequested(idempotent: bool, b: Bound, ledger: seq<AuditEvent>, now: Time, steps: seq<Step>)
    requires ReadyToPay(ledger) && Numbered(ledger) && Reduce(ledger).Ok?
    ensures var db := Run(idempotent, Start(b, ledger, now), steps).db;
            && Reduce(db.ledger).Ok?
            && var v, w := Reduce(db.ledger).value.payment, Reduce(ledger).value.payment;
               && v.intentId == Held(b.id, w.intentId) && v.provider == Held(b.provider, w.provider)
               && v.key == Held(b.key, w.key) && v.currency == Held(b.currency, w.currency)
               && v.amount == (if b.amount != 0 then Some(b.amount) else w.amount)
  {
    hide Run, Start, Reduce, Latest, Held, RunLedger, AuthorizationHolds, AdmissionHolds;
    var all := Run(idempotent, Start(b, ledger, now), steps).db.ledger;
    RunTells(idempotent, b, ledger, now, steps);
    RunSpeaks(idempotent, b, ledger, now, steps);
    LedgerNamesThePayment(b, ledger, all);
    NumberedIsSorted(ledger);
    ReduceTells(ledger);
  }
}
