/** One mission's committed rows: its payment intent, mission state, outbox rows, audit ledger
    and stored webhook deliveries, with the primitive updates every handler is built from. */
module Tables {
  import opened Vocabulary
  import opened AuditEvents
  import opened ReplayCore

  /** The columns copied from the authorization and the request, never written again. */
  datatype Bound = Bound(id: string, provider: string, amount: int, currency: string, key: string)

  /** What the provider is known to hold for this intent. */
  datatype Refs = Refs(
    reference: Option<string>, order: Option<string>, receipt: Option<string>,
    transaction: Option<string>, providerStatus: Option<string>, providerAttempts: Option<nat>)

  const NO_REFS := Refs(None, None, None, None, None, None)

  /** A `payment_intents` row. `history` records every value ever written to the state column. */
  datatype Intent = Intent(
    bound: Bound, state: PaymentState, attempts: nat, reason: Option<Reason>, refs: Refs,
    fencedAt: Option<Time>, ambiguousAt: Option<Time>, history: seq<PaymentState>)

  /** An `outbox_events` row; its position in the table is its id. */
  datatype OutboxRow = OutboxRow(
    kind: OutboxKind, status: OutboxStatus, attempts: nat, maxAttempts: nat,
    availableAt: Time, claimedBy: Option<string>)

  /** `deliveries` is the webhook table of the intent's provider: event id to applied state. */
  datatype Db = Db(
    intent: Intent, mission: MissionState, outbox: seq<OutboxRow>,
    ledger: seq<AuditEvent>, deliveries: map<string, Option<PaymentState>>)

  const ACTOR := "payment-executor"

  // ---- Outbox rows -------------------------------------------------------------------------

  function NewRow(kind: OutboxKind, availableAt: Time): OutboxRow {
    OutboxRow(kind, Pending, 0, DEFAULT_MAX_ATTEMPTS, availableAt, None)
  }

  function Enqueue(db: Db, kind: OutboxKind, now: Time): Db {
    db.(outbox := db.outbox + [NewRow(kind, now)])
  }

  function Complete(db: Db, e: nat): Db
    requires e < |db.outbox|
  {
    db.(outbox := db.outbox[e := db.outbox[e].(status := Processed)])
  }

  function Rescheduled(row: OutboxRow, now: Time): OutboxRow {
    if row.attempts >= row.maxAttempts then row.(status := DeadLettered)
    else row.(status := Pending, availableAt := now + BackoffFor(row.attempts))
  }

  /** Back to the queue with backoff, or dead-lettered once the attempt budget is spent. */
  function Reschedule(db: Db, e: nat, now: Time): Db
    requires e < |db.outbox|
  {
    db.(outbox := db.outbox[e := Rescheduled(db.outbox[e], now)])
  }

  predicate Retried(db: Db, e: nat)
    requires e < |db.outbox|
  {
    db.outbox[e].attempts < db.outbox[e].maxAttempts
  }

  // ---- Ledger ------------------------------------------------------------------------------

  function Append(db: Db, t: EventType, p: Payload): Db {
    db.(ledger := db.ledger + [AuditEvent(|db.ledger|, |db.ledger|, Known(t), ACTOR, JObject(p))])
  }

  // ---- Intent ------------------------------------------------------------------------------

  function WithState(i: Intent, s: PaymentState): Intent {
    i.(state := s, history := i.history + [s])
  }

  /** The first observation is kept; the reason code is rewritten every time. */
  function RememberAmbiguity(i: Intent, now: Time): Intent {
    i.(ambiguousAt := if i.ambiguousAt.None? then Some(now) else i.ambiguousAt,
       reason := Some(ProviderAmbiguity))
  }

  function ApplyMission(db: Db, target: MissionState): Db {
    if CanMove(db.mission, target) then db.(mission := target) else db
  }

  /** What a transition event records: the target always, and the reason as it was written. */
  function TransitionPayload(id: string, target: PaymentState, p: Payload, reason: Option<Reason>): Payload {
    map[IntentId := JText(id), State := JState(target)] + p + map[ReasonCode := JReason(reason)]
  }

  /** A guarded, recorded payment transition; None is the raised IllegalPaymentTransition. */
  function Transition(db: Db, target: PaymentState, t: EventType, p: Payload, reason: Option<Reason>): Option<Db> {
    if !Allowed(db.intent.state, target) then None
    else
      Some(Append(db.(intent := WithState(db.intent, target).(reason := reason)), t,
                  TransitionPayload(db.intent.bound.id, target, p, reason)))
  }

  // ---- Provider evidence -------------------------------------------------------------------

  function Max(a: nat, b: nat): nat { if a < b then b else a }
  function OrZero(o: Option<nat>): nat { if o.None? then 0 else o.value }

  function Merged(held: Option<nat>, seen: Option<nat>): Option<nat> {
    if seen.None? then held else Some(Max(OrZero(held), seen.value))
  }

  /** The write-once columns: an absent value changes nothing, a different one is refused. */
  predicate Conflicts(held: Option<string>, offered: Option<string>) {
    held.Some? && offered.Some? && held != offered
  }

  function Assigned(held: Option<string>, offered: Option<string>): Option<string> {
    if held.None? then offered else held
  }

  datatype LinkResult = LinkResult(refs: Refs, linked: bool)

  /** Columns are assigned one after another; a refusal keeps the ones already assigned. */
  function Link(r: Refs, p: Payment): LinkResult {
    if Conflicts(r.reference, Some(p.reference)) then LinkResult(r, false)
    else
      var r1 := r.(reference := Assigned(r.reference, Some(p.reference)));
      if Conflicts(r1.order, p.order) then LinkResult(r1, false)
      else
        var r2 := r1.(order := Assigned(r1.order, p.order));
        if Conflicts(r2.receipt, p.receipt) then LinkResult(r2, false)
        else
          var r3 := r2.(receipt := Assigned(r2.receipt, p.receipt));
          if p.status.StatusSucceeded? && Conflicts(r3.transaction, p.transaction) then LinkResult(r3, false)
          else
            LinkResult(
              r3.(transaction := if p.status.StatusSucceeded? then Assigned(r3.transaction, p.transaction) else r3.transaction,
                  providerStatus := if p.providerStatus.None? then r3.providerStatus else p.providerStatus,
                  providerAttempts := Merged(r3.providerAttempts, p.providerAttempts)),
              true)
  }

  /** Does an untrusted response describe this intent? An absent key passes only when not required. */
  predicate Matches(b: Bound, p: Payment, requireKey: bool) {
    && p.provider == b.provider
    && p.amount == b.amount
    && p.currency == b.currency
    && (if p.key.None? then !requireKey else p.key.value == b.key)
  }

  function Evidence(p: Payment): Payload { map[ProviderPaymentId := JText(p.reference)] }

  // ---- What holds between any two statements of a handler ------------------------------------

  /** A sequence of states each of which the table allows after the one before. */
  predicate LawfulPath(h: seq<PaymentState>) {
    |h| <= 1 || (Allowed(h[|h| - 2], h[|h| - 1]) && LawfulPath(h[..|h| - 1]))
  }

  /** Every write to the state column followed the transition table. */
  predicate LawfulHistory(i: Intent) {
    |i.history| > 0 && i.history[|i.history| - 1] == i.state && LawfulPath(i.history)
  }

  /** Replaying the ledger gives the persisted mission state and attempt count ... */
  ghost predicate Tallies(db: Db) {
    CoreOf(db.ledger).mission == Some(db.mission) && CoreOf(db.ledger).attempts == db.intent.attempts
  }

  /** ... and the persisted payment state. */
  ghost predicate Agrees(db: Db) {
    Tallies(db) && Told(db)
  }

  ghost predicate Told(db: Db) { CoreOf(db.ledger).payment == Some(db.intent.state) }

  /** An intent with no provider reference has no other provider identity either. */
  predicate UnlinkedIsBlank(r: Refs) {
    r.reference.None? ==> r.order.None? && r.receipt.None? && r.transaction.None?
  }

  /** Holds throughout every section and at every commit, whatever state a repeated request reported. */
  ghost predicate Sound(db: Db) {
    LawfulHistory(db.intent) && Tallies(db) && UnlinkedIsBlank(db.intent.refs)
  }

  /** The payment state moves only together with an event that names the new state: rows that told
      replay nothing kept their state, and rows that told it something told it the truth last. */
  ghost predicate InStep(a: Db, b: Db) {
    var c, d := CoreOf(a.ledger), CoreOf(b.ledger);
    && c.told <= d.told
    && (c.told == d.told ==> d.payment == c.payment && b.intent.state == a.intent.state)
    && (c.told < d.told ==> Told(b))
  }

  /** A write-once column. */
  predicate Kept<T(==)>(before: Option<T>, after: Option<T>) {
    before.Some? ==> after == before
  }

  predicate RefsKept(a: Refs, b: Refs) {
    && Kept(a.reference, b.reference) && Kept(a.order, b.order)
    && Kept(a.receipt, b.receipt) && Kept(a.transaction, b.transaction)
    && OrZero(a.providerAttempts) <= OrZero(b.providerAttempts)
  }

  ghost predicate IntentEvolves(a: Intent, b: Intent) {
    && a.bound == b.bound
    && RefsKept(a.refs, b.refs)
    && Kept(a.fencedAt, b.fencedAt)
    && Kept(a.ambiguousAt, b.ambiguousAt)
    && a.attempts <= b.attempts
    && (IsTerminal(a.state) ==> b.state == a.state)
    && a.history <= b.history
  }

  /** The ledger is append-only: new events carry the next sequences and are readable. */
  ghost predicate LedgerGrows(a: seq<AuditEvent>, b: seq<AuditEvent>) {
    a <= b && forall k :: |a| <= k < |b| ==> Written(b[k]) && b[k].sequence == k
  }

  /** A payload that names the payment's identifiers names this intent's. */
  predicate SpeaksOf(b: Bound, p: Payload) {
    && (IntentId in p ==> p[IntentId] == JText(b.id)) && (Provider in p ==> p[Provider] == JText(b.provider))
    && (IdempotencyKey in p ==> p[IdempotencyKey] == JText(b.key))
    && (AmountInr in p ==> p[AmountInr] == JInt(b.amount)) && (Currency in p ==> p[Currency] == JText(b.currency))
  }

  /** A payload every reader accepts, and about this intent. */
  ghost predicate Truthful(b: Bound, p: Payload) { ReadablePayload(p) && SpeaksOf(b, p) }

  ghost predicate LedgerSpeaksOf(b: Bound, before: seq<AuditEvent>, after: seq<AuditEvent>) {
    forall k :: |before| <= k < |after| && after[k].payload.JObject? ==> SpeaksOf(b, after[k].payload.fields)
  }

  /** What no statement, section or run ever undoes. */
  ghost predicate Grows(a: Db, b: Db) {
    && IntentEvolves(a.intent, b.intent) && LedgerGrows(a.ledger, b.ledger) && a.deliveries.Keys <= b.deliveries.Keys
    && LedgerSpeaksOf(a.intent.bound, a.ledger, b.ledger)
  }

  /** What every handler section owes, replay included. */
  ghost predicate Evolves(a: Db, b: Db) { Grows(a, b) && InStep(a, b) }

  lemma LedgerGrowsTransitive(a: seq<AuditEvent>, b: seq<AuditEvent>, c: seq<AuditEvent>)
    requires LedgerGrows(a, b) && LedgerGrows(b, c)
    ensures LedgerGrows(a, c)
  {
  }

  /** The outbox is not part of what replay or the intent's invariants speak about. */
  lemma OutboxOnly(a: Db, b: Db, c: Db)
    requires Sound(b) && Evolves(a, b) && c == b.(outbox := c.outbox)
    ensures Sound(c) && Evolves(a, c)
  {
  }

  lemma EvolvesReflexive(a: Db)
    ensures Evolves(a, a)
  {
  }

  lemma GrowsTransitive(a: Db, b: Db, c: Db)
    requires Grows(a, b) && Grows(b, c)
    ensures Grows(a, c)
  {
    LedgerGrowsTransitive(a.ledger, b.ledger, c.ledger);
  }

  lemma EvolvesTransitive(a: Db, b: Db, c: Db)
    requires Evolves(a, b) && Evolves(b, c)
    ensures Evolves(a, c)
  {
    GrowsTransitive(a, b, c);
  }

  // ---- The compound updates each keep both --------------------------------------------------

  /** An event replay reads without moving mission, payment state or attempts. */
  predicate Narrates(t: EventType, p: Payload, s: PaymentState) {
    && ExecutorType(t) && NamesStatus(t, p) && MissionTarget(t, Some(s)).None? && !t.EvAttempted? && !t.EvFailed?
    && (AdoptsState(t) ==> State !in p || p[State] == JState(s))
  }

  lemma AppendNarrates(db: Db, t: EventType, p: Payload)
    requires Sound(db) && Narrates(t, p, db.intent.state) && Truthful(db.intent.bound, p)
    ensures Sound(Append(db, t, p)) && Evolves(db, Append(db, t, p))
  {
    var after := Append(db, t, p);
    CoreOfAppend(db.ledger, after.ledger[|db.ledger|]);
  }

  lemma TruthfulUnion(b: Bound, p: Payload, q: Payload)
    requires Truthful(b, p) && Truthful(b, q)
    ensures Truthful(b, p + q)
  {
  }

  lemma TransitionPayloadReads(b: Bound, target: PaymentState, p: Payload, reason: Option<Reason>)
    requires Truthful(b, p) && State !in p
    ensures var q := TransitionPayload(b.id, target, p, reason);
            Truthful(b, q) && State in q && q[State] == JState(target)
  {
  }

  function TransitionEvent(db: Db, target: PaymentState, t: EventType, p: Payload, reason: Option<Reason>): AuditEvent {
    AuditEvent(|db.ledger|, |db.ledger|, Known(t), ACTOR, JObject(TransitionPayload(db.intent.bound.id, target, p, reason)))
  }

  /** A transition together with the mission move and attempt count its event type calls for. */
  function Settled(db: Db, target: PaymentState, t: EventType, p: Payload, reason: Option<Reason>): Db {
    var mission := MissionTarget(t, Some(target));
    db.(intent := WithState(db.intent, target).(
          reason := reason, attempts := if t.EvAttempted? then db.intent.attempts + 1 else db.intent.attempts),
        mission := if mission.Some? && CanMove(db.mission, mission.value) then mission.value else db.mission,
        ledger := db.ledger + [TransitionEvent(db, target, t, p, reason)])
  }

  lemma HistoryExtends(i: Intent, target: PaymentState)
    requires LawfulHistory(i) && Allowed(i.state, target)
    ensures LawfulHistory(WithState(i, target)) && i.history <= WithState(i, target).history
  {
  }

  /** The event a transition appends reads back as the transition itself. */
  lemma SettledAgrees(db: Db, target: PaymentState, t: EventType, p: Payload, reason: Option<Reason>)
    requires Tallies(db) && Truthful(db.intent.bound, p) && State !in p && AdoptsState(t) && ExecutorType(t)
    ensures Agrees(Settled(db, target, t, p, reason)) && Written(TransitionEvent(db, target, t, p, reason))
    ensures SpeaksOf(db.intent.bound, TransitionPayload(db.intent.bound.id, target, p, reason))
    ensures CoreOf(Settled(db, target, t, p, reason).ledger).told == CoreOf(db.ledger).told + 1
  {
    TransitionPayloadReads(db.intent.bound, target, p, reason);
    var q := TransitionPayload(db.intent.bound.id, target, p, reason);
    CoreOfAppend(db.ledger, TransitionEvent(db, target, t, p, reason));
    assert Adopted(CoreOf(db.ledger).payment, q) == Some(target);
  }

  /** Replay follows every transition: state, mission and attempts stay equal to the rows. */
  lemma SettledSound(db: Db, target: PaymentState, t: EventType, p: Payload, reason: Option<Reason>)
    requires Sound(db) && Allowed(db.intent.state, target) && Truthful(db.intent.bound, p) && State !in p
    requires AdoptsState(t) && ExecutorType(t)
    ensures Sound(Settled(db, target, t, p, reason)) && Evolves(db, Settled(db, target, t, p, reason))
  {
    hide TransitionPayload, Truthful, SpeaksOf, Written, LawfulPath;
    SettledAgrees(db, target, t, p, reason);
    HistoryExtends(db.intent, target);
  }

  lemma LinkSound(db: Db, p: Payment)
    requires Sound(db)
    ensures var after := db.(intent := db.intent.(refs := Link(db.intent.refs, p).refs));
            Sound(after) && Evolves(db, after)
    ensures db.intent.refs.reference.None? ==> Link(db.intent.refs, p).linked
    ensures Link(db.intent.refs, p).linked ==> Link(db.intent.refs, p).refs.reference == Some(p.reference)
  {
  }
}
