/** A founding request is where a run of the protocol starts. */
module Founding {
  import opened Vocabulary
  import opened AuditEvents
  import opened Tables
  import opened Protocol
  import opened ProtocolTheorems
  import R = Requests
  import RP = RequestProofs

  type Naming = int -> string

  /** The columns an intent row hands to the executor. */
  function BoundOf(name: Naming, row: R.IntentRow): Bound {
    Bound(name(row.id), row.identity.provider, row.identity.terms.amount, row.identity.terms.currency, row.key)
  }

  /** The events of a ledger's tail, as the shared tables note them. */
  function Notes(mission: int, events: seq<AuditEvent>): (notes: seq<R.Note>)
    requires forall k :: 0 <= k < |events| ==> events[k].tag.Known?
    ensures |notes| == |events|
  {
    seq(|events|, k requires 0 <= k < |events| && events[k].tag.Known? => R.Note(mission, events[k].tag.event))
  }

  /** The step of a founding request. */
  ghost predicate Founds(hash: R.Fingerprint, s: R.Sys, c: int) {
    && c in s.clients && s.clients[c].Cleared?
    && RP.Establishes(R.Next(hash, s, R.Enter(c, true)).clients[c])
  }

  lemma StartLedger(b: Bound, ledger: seq<AuditEvent>, now: Time)
    ensures var after := Start(b, ledger, now).db.ledger;
            && |after| == |ledger| + 3 && ledger <= after
            && after[|ledger|].tag == Known(EvAuthorizationConsumed)
            && after[|ledger| + 1].tag == Known(EvIntentCreated)
            && after[|ledger| + 2].tag == Known(EvQueued)
  {
  }

  lemma FounderWrites(hash: R.Fingerprint, s: R.Sys, c: int)
    requires Founds(hash, s, c)
    ensures var r := s.clients[c].request;
            var t := R.Next(hash, s, R.Enter(c, true));
            && t.db.ledger == s.db.ledger + [R.Note(r.mission, EvAuthorizationConsumed), R.Note(r.mission, EvIntentCreated), R.Note(r.mission, EvQueued)]
            && t.db.intents[..|s.db.intents|] == s.db.intents && |t.db.intents| == |s.db.intents| + 1
            && t.db.outbox == s.db.outbox + [t.db.intents[|s.db.intents|].id]
            && r.mission in t.db.missions && t.db.missions[r.mission] == PaymentPending
            && t.db.intents[|s.db.intents|].key == r.key && t.db.intents[|s.db.intents|].identity.provider == r.provider
  {
  }

  /** What a founding request commits to the shared tables is what the protocol starts from: the same
      mission state, one create row for the one new outbox entry, and the same three events. */
  lemma FoundingIsStart(hash: R.Fingerprint, name: Naming, steps: seq<R.Step>, c: int, ledger: seq<AuditEvent>)
    requires Founds(hash, R.Run(hash, R.NOTHING, steps), c)
    ensures var s := R.Run(hash, R.NOTHING, steps);
            var r := s.clients[c].request;
            var t := R.Next(hash, s, R.Enter(c, true));
            && |t.db.intents| == |s.db.intents| + 1
            && var row := t.db.intents[|s.db.intents|];
               var p := Start(BoundOf(name, row), ledger, r.now);
               && p.db.intent.bound.key == r.key && p.db.intent.bound.provider == r.provider && p.db.intent.state.Queued?
               && r.mission in t.db.missions && p.db.mission == t.db.missions[r.mission]
               && |p.db.outbox| == 1 && p.db.outbox[0].kind.CreateRequested? && t.db.outbox == s.db.outbox + [row.id]
               && ledger <= p.db.ledger && (forall k :: |ledger| <= k < |p.db.ledger| ==> p.db.ledger[k].tag.Known?)
               && t.db.ledger == s.db.ledger + Notes(r.mission, p.db.ledger[|ledger|..])
  {
    var s := R.Run(hash, R.NOTHING, steps);
    var r := s.clients[c].request;
    var t := R.Next(hash, s, R.Enter(c, true));
    hide R.Run, R.Next;
    FounderWrites(hash, s, c);
    var row := t.db.intents[|s.db.intents|];
    StartLedger(BoundOf(name, row), ledger, r.now);
    var tail := Start(BoundOf(name, row), ledger, r.now).db.ledger[|ledger|..];
    assert Notes(r.mission, tail) ==
           [R.Note(r.mission, EvAuthorizationConsumed), R.Note(r.mission, EvIntentCreated), R.Note(r.mission, EvQueued)];
  }

  /** So a fenced payment is created at most once per founding request, whatever follows. */
  lemma FoundedIsCreatedOnce(hash: R.Fingerprint, name: Naming, steps: seq<R.Step>, c: int, ledger: seq<AuditEvent>, more: seq<Step>)
    requires Founds(hash, R.Run(hash, R.NOTHING, steps), c) && ReadyToPay(ledger)
    ensures var s := R.Run(hash, R.NOTHING, steps);
            var t := R.Next(hash, s, R.Enter(c, true));
            && |t.db.intents| == |s.db.intents| + 1
            && Run(false, Start(BoundOf(name, t.db.intents[|s.db.intents|]), ledger, s.clients[c].request.now), more).creates <= 1
  {
    hide Run, R.Run, Start;
    var s := R.Run(hash, R.NOTHING, steps);
    FoundingIsStart(hash, name, steps, c, ledger);
    var t := R.Next(hash, s, R.Enter(c, true));
    AtMostOneCreate(BoundOf(name, t.db.intents[|s.db.intents|]), ledger, s.clients[c].request.now, more);
  }
}
