/** Runs that show the theorems' cases are reached: a create call, an observed ambiguity, and a
    repeated request whose stale report replay adopts. */
module Witnesses {
  import opened Vocabulary
  import opened AuditEvents
  import opened ReplayCore
  import opened Tables
  import opened Executor
  import opened Protocol
  import opened ProtocolProofs
  import opened ProtocolTheorems
  import Worker

  /** A repeated request reads the state; a worker claims the create row and wins the fence. */
  function Opening(now: Time, io: Io): seq<Step> {
    [ReadIntent(9), Claim(0, "w", 0, now, 30), Load(0), Handle(0, io), CommitFence(0)]
  }

  function Asked(b: Bound, lookup: Lookup, answer: Answer): Io { Io(b.provider, true, lookup, true, answer) }

  function Paid(b: Bound): Payment {
    Payment(b.provider, "pay_1", StatusSucceeded, b.amount, b.currency, Some(b.key), None, None, None, None, None)
  }

  function Charged(b: Bound): Io { Asked(b, NotFound, Answered(Paid(b))) }
  function Confused(b: Bound): Io { Asked(b, LookupFailed(AmbiguityError), CreateCrashed) }

  ghost predicate AtFence(s: Sys, b: Bound, now: Time) {
    && PcOf(s, 0) == Fenced(0, now, true) && s.readers == map[9 := Queued] && s.creates == 0
    && s.db.intent == NewIntent(b).(fencedAt := Some(now))
    && |s.db.outbox| == 1 && s.db.outbox[0].kind.CreateRequested?
  }

  lemma OpeningWins(b: Bound, ledger: seq<AuditEvent>, now: Time, io: Io)
    requires io.adapter == b.provider && io.authorized
    ensures AtFence(Run(false, Start(b, ledger, now), Opening(now, io)), b, now)
  {
    var s := Start(b, ledger, now);
    var o := Opening(now, io);
    var s1 := Next(false, s, o[0]);
    var s2 := Next(false, s1, o[1]);
    var s3 := Next(false, s2, o[2]);
    var s4 := Next(false, s3, o[3]);
    var s5 := Next(false, s4, o[4]);
    assert PcOf(s3, 0) == Working(0, now);
    assert PcOf(s4, 0) == Fencing(0, now, false);
    assert AtFence(s5, b, now);
    Steps5(s, o);
  }

  lemma Steps5(s: Sys, o: seq<Step>)
    requires |o| == 5
    ensures Run(false, s, o) == Next(false, Next(false, Next(false, Next(false, Next(false, s, o[0]), o[1]), o[2]), o[3]), o[4])
  {
    hide Next;
    Worker.RunStep(false, s, [], o[0]);
    Worker.RunStep(false, s, o[..1], o[1]);
    Worker.RunStep(false, s, o[..2], o[2]);
    Worker.RunStep(false, s, o[..3], o[3]);
    Worker.RunStep(false, s, o[..4], o[4]);
    assert [] + [o[0]] == o[..1] && o[..1] + [o[1]] == o[..2] && o[..2] + [o[2]] == o[..3];
    assert o[..3] + [o[3]] == o[..4] && o[..4] + [o[4]] == o;
  }

  /** Behind the fence a clean lookup is followed by the one create, and the payment succeeds. */
  lemma FenceCharges(s: Sys, b: Bound, now: Time)
    requires AtFence(s, b, now)
    ensures var t := Next(false, s, Resume(0, Charged(b)));
            t.creates == 1 && t.db.intent.state.Succeeded? && t.readers == s.readers
  {
    var tried := RecordAttempt(s.db);
    assert tried.intent.state.Processing?;
    assert Matches(tried.intent.bound, Paid(b), true);
    assert ApplyProviderPayment(tried, Paid(b)).Done?;
  }

  /** The single create is reached. */
  lemma OneCreateHappens(b: Bound, ledger: seq<AuditEvent>, now: Time)
    ensures var s := Run(false, Start(b, ledger, now), Opening(now, Charged(b)) + [Resume(0, Charged(b))]);
            s.creates == 1 && s.db.intent.state.Succeeded? && s.readers == map[9 := Queued]
  {
    hide Next;
    OpeningWins(b, ledger, now, Charged(b));
    FenceCharges(Run(false, Start(b, ledger, now), Opening(now, Charged(b))), b, now);
    Worker.RunStep(false, Start(b, ledger, now), Opening(now, Charged(b)), Resume(0, Charged(b)));
  }

  lemma FenceConfuses(s: Sys, b: Bound, now: Time)
    requires AtFence(s, b, now)
    ensures Next(false, s, Resume(0, Confused(b))).db.intent.ambiguousAt == Some(now)
  {
    assert MarkUncertain(s.db, ProviderAmbiguity, false, now).Some?;
  }

  /** An observed ambiguity is reached. */
  lemma AmbiguityHappens(b: Bound, ledger: seq<AuditEvent>, now: Time)
    ensures var s := Run(false, Start(b, ledger, now), Opening(now, Confused(b)) + [Resume(0, Confused(b))]);
            s.db.intent.ambiguousAt == Some(now)
  {
    hide Next;
    OpeningWins(b, ledger, now, Confused(b));
    FenceConfuses(Run(false, Start(b, ledger, now), Opening(now, Confused(b))), b, now);
    Worker.RunStep(false, Start(b, ledger, now), Opening(now, Confused(b)), Resume(0, Confused(b)));
  }

  function StaleRun(b: Bound, now: Time): seq<Step> {
    Opening(now, Charged(b)) + [Resume(0, Charged(b))] + [AppendReuse(9)]
  }

  lemma StaleReport(s: Sys)
    requires Sound(s.db) && s.readers == map[9 := Queued] && s.db.intent.state.Succeeded?
    ensures var t := Next(false, s, AppendReuse(9));
            t.db.intent.state.Succeeded? && CoreOf(t.db.ledger).payment == Some(Queued)
  {
    ReuseGrows(s.db, Queued);
  }

  /** The stale report is reached: the request read QUEUED, the payment succeeded, and replay now
      says QUEUED of a payment that is SUCCEEDED. */
  lemma StaleReuseHappens(b: Bound, ledger: seq<AuditEvent>, now: Time)
    requires ReadyToPay(ledger)
    ensures var s := Run(false, Start(b, ledger, now), StaleRun(b, now));
            && s.db.intent.state.Succeeded? && CoreOf(s.db.ledger).payment == Some(Queued) && !Agrees(s.db)
            && Lagging(false, Start(b, ledger, now), StaleRun(b, now), false)
  {
    hide Next, Run, Lagging, Start, Opening, Charged, CoreOf;
    var start := Start(b, ledger, now);
    var before := Opening(now, Charged(b)) + [Resume(0, Charged(b))];
    OneCreateHappens(b, ledger, now);
    StartIsSafe(false, b, ledger, now);
    RunIsSafe(false, start, before);
    StaleReport(Run(false, start, before));
    Worker.RunStep(false, start, before, AppendReuse(9));
    AgreesUnlessLagging(false, b, ledger, now, StaleRun(b, now));
  }
}
