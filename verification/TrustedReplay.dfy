/** Verify, then replay: the gated entry point, and the whole path from a run of the protocol through
    its hashed chain back to the persisted rows. */
module TrustedReplay {
  import opened Vocabulary
  import opened AuditEvents
  import opened ReplayCore
  import opened Replay
  import opened ReplayProofs
  import opened Tables
  import opened Protocol
  import opened ProtocolTheorems
  import Ledger
  import Reducer
  import Sorting

  /** An audit row without its hash columns, as the reducer reads it. */
  function Stripped(e: Ledger.Entry): AuditEvent {
    AuditEvent(e.eventId, e.body.sequence, e.body.tag, e.body.actor, e.body.payload)
  }

  function StrippedAll(es: seq<Ledger.Entry>): (events: seq<AuditEvent>)
    ensures |events| == |es| && forall i :: 0 <= i < |es| ==> events[i] == Stripped(es[i])
  {
    seq(|es|, i requires 0 <= i < |es| => Stripped(es[i]))
  }

  datatype Report = Untrusted(verdict: Ledger.Verdict) | Uninterpretable(code: RefusalCode, sequence: int) | Trusted(state: Projection)

  /** What a report on the rows `verified` first and `listed` afterwards means: no projection from a
      chain that does not verify, none from a history that is refused. */
  ghost predicate Reports(h: Ledger.Hash, verified: seq<Ledger.Entry>, listed: seq<Ledger.Entry>, r: Report) {
    exists v :: Ledger.Judges(h, Sorting.Sort(Ledger.Earlier, verified), v) &&
      match r
      case Untrusted(w) => v == w && v.Invalid?
      case Uninterpretable(code, sequence) => v.Valid? && Reduce(StrippedAll(listed)) == Refused(code, sequence)
      case Trusted(state) => v.Valid? && Reduce(StrippedAll(listed)) == Ok(state)
  }

  /** The rows are read twice: once to verify them, once to replay them. */
  method ReplayMission(h: Ledger.Hash, verified: seq<Ledger.Entry>, listed: seq<Ledger.Entry>) returns (r: Report)
    ensures Reports(h, verified, listed, r)
  {
    var v := Ledger.VerifyEvents(h, verified);
    if v.Invalid? {
      return Untrusted(v);
    }
    var reduced := Reducer.ReduceEvents(StrippedAll(listed));
    match reduced {
      case Ok(state) => r := Trusted(state);
      case Refused(code, sequence) => r := Uninterpretable(code, sequence);
    }
  }

  /** The rows determine the report. */
  lemma ReportIsUnique(h: Ledger.Hash, verified: seq<Ledger.Entry>, listed: seq<Ledger.Entry>, r: Report, q: Report)
    requires Reports(h, verified, listed, r) && Reports(h, verified, listed, q)
    ensures r == q
  {
    var es := Sorting.Sort(Ledger.Earlier, verified);
    forall v, w | Ledger.Judges(h, es, v) && Ledger.Judges(h, es, w) ensures v == w {
      Ledger.VerdictIsUnique(h, es, v, w);
    }
  }

  // ---- From a ledger of events to its chain --------------------------------------------------

  /** Every event is one `append_event` accepts and the verifier finds well shaped. */
  ghost predicate Appendable(events: seq<AuditEvent>) {
    forall k :: 0 <= k < |events| ==> events[k].tag.Known? && events[k].payload.JObject? && events[k].actor != ""
  }

  /** The append that writes an event; of an event `append_event` cannot take, a stand-in. */
  function AppendOf(e: AuditEvent, now: Time): Ledger.NewEvent {
    Ledger.NewEvent(e.eventId, if e.tag.Known? then e.tag.event else EvMissionCreated, e.actor,
                    if e.payload.JObject? then e.payload.fields else map[], now)
  }

  function Appends(events: seq<AuditEvent>, clock: nat -> Time): (rs: seq<Ledger.NewEvent>)
    ensures |rs| == |events| && forall i :: 0 <= i < |events| ==> rs[i] == AppendOf(events[i], clock(i))
  {
    seq(|events|, i requires 0 <= i < |events| => AppendOf(events[i], clock(i)))
  }

  /** The chain the appender builds from these events, appended at these moments. */
  function Recorded(h: Ledger.Hash, missionId: string, events: seq<AuditEvent>, clock: nat -> Time): seq<Ledger.Entry> {
    Ledger.Build(h, missionId, Appends(events, clock))
  }

  lemma AppendHolds(h: Ledger.Hash, missionId: string, es: seq<Ledger.Entry>, e: AuditEvent, now: Time)
    requires e.tag.Known? && e.payload.JObject? && e.sequence == |es|
    requires es != [] ==> es[|es| - 1].body.sequence == |es| - 1
    ensures StrippedAll(Ledger.AppendTo(h, missionId, es, AppendOf(e, now))) == StrippedAll(es) + [e]
  {
  }

  /** The chain holds exactly these events. */
  lemma {:induction false} RecordedHolds(h: Ledger.Hash, missionId: string, events: seq<AuditEvent>, clock: nat -> Time)
    requires Appendable(events) && Numbered(events)
    ensures StrippedAll(Recorded(h, missionId, events, clock)) == events
  {
    hide Stripped, AppendOf, Ledger.AppendTo;
    if events != [] {
      var n := |events| - 1;
      var before := events[..n];
      RecordedHolds(h, missionId, before, clock);
      assert Appends(events, clock)[..n] == Appends(before, clock);
      var es := Recorded(h, missionId, before, clock);
      if n > 0 { StrippedSequence(es[n - 1], before[n - 1]); }
      AppendHolds(h, missionId, es, events[n], clock(n));
      assert events == before + [events[n]];
    }
  }

  lemma StrippedSequence(e: Ledger.Entry, a: AuditEvent)
    requires Stripped(e) == a
    ensures e.body.sequence == a.sequence
  {
  }

  /** And the verifier passes it. */
  lemma RecordedVerifies(h: Ledger.Hash, missionId: string, events: seq<AuditEvent>, clock: nat -> Time)
    requires Ledger.DigestFunction(h) && Appendable(events)
    ensures Ledger.Judges(h, Sorting.Sort(Ledger.Earlier, Recorded(h, missionId, events, clock)), Ledger.Valid(|events|))
  {
    Ledger.BuiltChainsVerify(h, missionId, Appends(events, clock));
  }

  lemma {:induction false} FoldedIsAppendable(events: seq<AuditEvent>)
    requires Fold(events).Ok? && forall k :: 0 <= k < |events| ==> events[k].actor != ""
    ensures Appendable(events)
  {
    hide Replay.Handle;
    if events != [] {
      var before := events[..|events| - 1];
      FoldedIsAppendable(before);
      forall k | 0 <= k < |events| ensures events[k].tag.Known? && events[k].payload.JObject? {
        if k < |before| { assert events[k] == before[k]; }
      }
    }
  }

  lemma GrownIsAppendable(a: seq<AuditEvent>, b: seq<AuditEvent>)
    requires Appendable(a) && LedgerGrows(a, b)
    ensures Appendable(b)
  {
    forall k | 0 <= k < |b| ensures b[k].tag.Known? && b[k].payload.JObject? && b[k].actor != "" {
      if k < |a| { assert b[k] == a[k]; }
    }
  }

  // ---- End to end ----------------------------------------------------------------------------

  /** The mission's own history before the payment, as its ledger holds it. */
  ghost predicate Replayable(ledger: seq<AuditEvent>) {
    ReadyToPay(ledger) && Numbered(ledger) && Reduce(ledger).Ok? && forall k :: 0 <= k < |ledger| ==> ledger[k].actor != ""
  }

  lemma RunIsAppendable(idempotent: bool, b: Bound, ledger: seq<AuditEvent>, now: Time, steps: seq<Step>)
    requires Replayable(ledger)
    ensures Appendable(Run(idempotent, Start(b, ledger, now), steps).db.ledger)
  {
    hide Run, Start;
    NumberedIsSorted(ledger);
    FoldedIsAppendable(ledger);
    StartRows(b, ledger, now);
    RequestLedgerGrows(b, ledger, now);
    GrownIsAppendable(ledger, Start(b, ledger, now).db.ledger);
    StartIsSafe(idempotent, b, ledger, now);
    RunIsSafe(idempotent, Start(b, ledger, now), steps);
    GrownIsAppendable(Start(b, ledger, now).db.ledger, Run(idempotent, Start(b, ledger, now), steps).db.ledger);
  }

  /** After any run, verifying the mission's chain at any earlier length and then replaying all of it
      gives a trusted projection of the persisted rows: mission and attempts always, and the payment
      state exactly unless a stale repeated request was the last to name one. */
  lemma TrustedReplayIsExact(h: Ledger.Hash, missionId: string, clock: nat -> Time, idempotent: bool, b: Bound,
                             ledger: seq<AuditEvent>, now: Time, steps: seq<Step>, n: nat, r: Report)
    requires Ledger.DigestFunction(h) && Replayable(ledger)
    ensures var db := Run(idempotent, Start(b, ledger, now), steps).db;
            n <= |db.ledger| && Reports(h, Recorded(h, missionId, db.ledger[..n], clock), Recorded(h, missionId, db.ledger, clock), r) ==>
              && r.Trusted?
              && r.state.mission == Some(db.mission) && r.state.payment.attempts == db.intent.attempts
              && (r.state.payment.state == Some(db.intent.state) <==> !Lagging(idempotent, Start(b, ledger, now), steps, false))
  {
    hide Run, Start, Reduce, Lagging, Recorded, Ledger.Judges;
    var db := Run(idempotent, Start(b, ledger, now), steps).db;
    RunIsAppendable(idempotent, b, ledger, now, steps);
    RunReduces(idempotent, b, ledger, now, steps);
    ReplayRefinesExecution(idempotent, b, ledger, now, steps);
    RecordedHolds(h, missionId, db.ledger, clock);
    var listed := Recorded(h, missionId, db.ledger, clock);
    if n <= |db.ledger| && Reports(h, Recorded(h, missionId, db.ledger[..n], clock), listed, r) {
      var first := Recorded(h, missionId, db.ledger[..n], clock);
      RecordedVerifies(h, missionId, db.ledger[..n], clock);
      assert Reports(h, first, listed, Trusted(Reduce(db.ledger).value));
      ReportIsUnique(h, first, listed, r, Trusted(Reduce(db.ledger).value));
    }
  }
}
