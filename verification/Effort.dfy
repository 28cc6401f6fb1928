/** How much work one payment can cause when no lease is outlived, and what crashes add to it. */
module Effort {
  import opened Vocabulary
  import opened AuditEvents
  import opened Tables
  import opened Executor
  import opened ExecutorProofs
  import opened Reconciliation
  import opened ReconciliationProofs
  import opened Webhooks
  import opened WebhookProofs
  import opened Protocol
  import opened ProtocolProofs
  import opened ProtocolTheorems

  /** No process is working on row `e`. */
  ghost predicate Free(s: Sys, e: nat) {
    forall p | p in s.pcs :: s.pcs[p].Idle? || s.pcs[p].event != e
  }

  /** No lease is outlived: a claimed row is taken over only once nobody works on it. */
  ghost predicate Steady(s: Sys, step: Step) {
    step.Claim? && step.event < |s.db.outbox| && s.db.outbox[step.event].status.InProgress? ==> Free(s, step.event)
  }

  ghost predicate SteadyRun(s: Sys, steps: seq<Step>)
    decreases |steps|
  {
    steps == [] || (Steady(s, steps[0]) && SteadyRun(Next(false, s, steps[0]), steps[1..]))
  }

  /** A process died holding a row. */
  predicate Fatal(s: Sys, step: Step) { step.Die? && !PcOf(s, step.p).Idle? }

  function Deaths(s: Sys, steps: seq<Step>): nat
    decreases |steps|
  {
    if steps == [] then 0
    else (if Fatal(s, steps[0]) then 1 else 0) + Deaths(Next(false, s, steps[0]), steps[1..])
  }

  /** Attempts beyond the budget are paid for by deaths: `d` of them so far, the last one not yet
      spent while the row lies claimed and free. */
  predicate RowInBudget(row: OutboxRow, free: bool, d: int) {
    && row.maxAttempts == DEFAULT_MAX_ATTEMPTS && row.attempts <= row.maxAttempts + d
    && (row.status.Pending? ==> row.attempts < row.maxAttempts)
    && (row.status.InProgress? && free ==> row.attempts < row.maxAttempts + d)
  }

  function Excess(row: OutboxRow): nat { if row.attempts > DEFAULT_MAX_ATTEMPTS then row.attempts - DEFAULT_MAX_ATTEMPTS else 0 }

  /** One create row, and a reconcile row only once the create row is done. */
  predicate RowsInBudget(rows: seq<OutboxRow>, free0: bool, free1: bool, d: nat) {
    && 1 <= |rows| <= 2
    && rows[0].kind.CreateRequested? && RowInBudget(rows[0], free0, d)
    && (|rows| == 2 ==>
          rows[0].status.Processed? && rows[1].kind.ReconcileRequested? && RowInBudget(rows[1], free1, d - Excess(rows[0])))
  }

  function Attempts(rows: seq<OutboxRow>): nat
    requires 1 <= |rows| <= 2
  {
    rows[0].attempts + if |rows| == 2 then rows[1].attempts else 0
  }

  /** A process that is not idle holds a claimed row that no other process holds. */
  predicate Holds(s: Sys, pc: Pc) {
    pc.Idle? ||
    (&& pc.event < |s.db.outbox| && s.db.outbox[pc.event].status.InProgress?
     && (pc.Claimed? ==> s.db.outbox[pc.event].claimedBy == Some(pc.worker)))
  }

  ghost predicate Exclusive(s: Sys) {
    && (forall p | p in s.pcs :: Holds(s, s.pcs[p]))
    && (forall p, q | p in s.pcs && q in s.pcs && p != q && !s.pcs[p].Idle? && !s.pcs[q].Idle? ::
          s.pcs[p].event != s.pcs[q].event)
  }

  /** The table's budget, with `d` deaths so far. */
  ghost predicate Within(s: Sys, d: nat) {
    && RowsInBudget(s.db.outbox, Free(s, 0), Free(s, 1), d) && s.claims == Attempts(s.db.outbox) && Exclusive(s)
  }

  ghost predicate InBudget(s: Sys, d: nat) { Inv(false, s) && Within(s, d) }

  /** The ways a fenced provider's handler may leave the table. */
  ghost predicate FencedRetired(a: Db, b: Db, e: nat, now: Time)
    requires e < |a.outbox|
  {
    || Closed(a, b, e)
    || (a.outbox[e].kind.CreateRequested? && Delegated(a, b, e, ReconcileRequested, now))
    || (a.outbox[e].kind.ReconcileRequested? && Deferred(a, b, e, now))
  }

  lemma BeginHandlerRetires(s: Sys, e: nat, io: Io, now: Time)
    requires Inv(false, s) && e < |s.db.outbox|
    ensures var b := BeginHandler(false, s.db, e, io, now);
            b.Ended? && b.turn.Commit? ==> FencedRetired(s.db, b.turn.db, e, now)
  {
    if s.db.outbox[e].kind.CreateRequested? { DispatchBeginAdvances(false, s.db, e, io, now); }
    else { ReconcileBeginAdvances(false, s.db, e, io, now); }
  }

  lemma ResumeHandlerRetires(s: Sys, e: nat, acquired: bool, io: Io, now: Time)
    requires Inv(false, s) && e < |s.db.outbox|
    requires s.db.outbox[e].kind.ReconcileRequested? ==> s.db.intent.fencedAt.Some?
    ensures var t := ResumeHandler(s.db, e, acquired, io, now);
            t.Commit? ==> FencedRetired(s.db, t.db, e, now)
  {
    if s.db.outbox[e].kind.CreateRequested? { DispatchFencedAdvances(s.db, e, acquired, io, now); }
    else { ReconcileFencedAdvances(s.db, e, io, now); }
  }

  /** Retiring a claimed row keeps the table within budget and spends no attempt. */
  lemma RetiredInBudget(a: seq<OutboxRow>, b: seq<OutboxRow>, e: nat, now: Time, free0: bool, free1: bool, d: nat)
    requires RowsInBudget(a, free0, free1, d) && e < |a| && a[e].status.InProgress?
    requires || b == a[e := a[e].(status := Processed)]
             || (a[e].kind.CreateRequested? && b == a[e := a[e].(status := Processed)] + [NewRow(ReconcileRequested, now)])
             || b == a[e := Rescheduled(a[e], now)]
    ensures RowsInBudget(b, e == 0 || free0, e == 1 || free1, d) && Attempts(b) == Attempts(a)
    ensures |a| <= |b| && forall i :: 0 <= i < |a| && i != e ==> b[i] == a[i]
  {
  }

  /** A process leaves its row; the others still hold theirs. */
  lemma OthersHold(s: Sys, t: Sys, p: nat, e: nat)
    requires Exclusive(s) && p in s.pcs && !s.pcs[p].Idle? && s.pcs[p].event == e
    requires |s.db.outbox| <= |t.db.outbox|
    requires forall i :: 0 <= i < |s.db.outbox| && i != e ==> t.db.outbox[i] == s.db.outbox[i]
    requires t.pcs == s.pcs[p := Idle]
    ensures Exclusive(t) && Free(t, e) && forall i: nat :: i != e ==> (Free(t, i) <==> Free(s, i))
  {
    forall i: nat | i != e && Free(t, i) ensures Free(s, i) {
      forall q | q in s.pcs ensures s.pcs[q].Idle? || s.pcs[q].event != i {
        if q != p { assert t.pcs[q] == s.pcs[q]; }
      }
    }
  }

  /** A process moves on while keeping its row. */
  lemma MovesOn(s: Sys, t: Sys, p: nat, e: nat)
    requires Exclusive(s) && p in s.pcs && !s.pcs[p].Idle? && s.pcs[p].event == e
    requires t.db.outbox == s.db.outbox && t.pcs.Keys == s.pcs.Keys
    requires forall q | q in s.pcs && q != p :: t.pcs[q] == s.pcs[q]
    requires !t.pcs[p].Idle? && !t.pcs[p].Claimed? && t.pcs[p].event == e
    ensures Exclusive(t) && forall i: nat :: Free(t, i) <==> Free(s, i)
  {
    forall q | q in t.pcs ensures Holds(t, t.pcs[q]) { assert Holds(s, s.pcs[q]); }
    forall i: nat ensures Free(t, i) <==> Free(s, i) {
      if Free(t, i) {
        forall q | q in s.pcs ensures s.pcs[q].Idle? || s.pcs[q].event != i { assert t.pcs[q].Idle? || t.pcs[q].event != i; }
      }
      if Free(s, i) {
        forall q | q in t.pcs ensures t.pcs[q].Idle? || t.pcs[q].event != i { assert s.pcs[q].Idle? || s.pcs[q].event != i; }
      }
    }
  }

  /** Row `e` was retired by its holder. */
  lemma ReleaseInBudget(s: Sys, t: Sys, p: nat, e: nat, now: Time, d: nat)
    requires Within(s, d) && p in s.pcs && !s.pcs[p].Idle? && s.pcs[p].event == e && e < |s.db.outbox|
    requires FencedRetired(s.db, t.db, e, now) || t.db.outbox == s.db.outbox[e := Rescheduled(s.db.outbox[e], now)]
    requires t.pcs == s.pcs[p := Idle] && t.claims == s.claims
    ensures Within(t, d)
  {
    hide Free;
    assert Holds(s, s.pcs[p]);
    RetiredInBudget(s.db.outbox, t.db.outbox, e, now, Free(s, 0), Free(s, 1), d);
    OthersHold(s, t, p, e);
  }

  lemma KeepInBudget(s: Sys, t: Sys, p: nat, e: nat, d: nat)
    requires Within(s, d) && p in s.pcs && !s.pcs[p].Idle? && s.pcs[p].event == e
    requires t.db.outbox == s.db.outbox && t.claims == s.claims && t.pcs.Keys == s.pcs.Keys
    requires forall q | q in s.pcs && q != p :: t.pcs[q] == s.pcs[q]
    requires !t.pcs[p].Idle? && !t.pcs[p].Claimed? && t.pcs[p].event == e
    ensures Within(t, d)
  {
    hide Free;
    MovesOn(s, t, p, e);
  }

  lemma EndTurnInBudget(s: Sys, p: nat, e: nat, now: Time, t: Turn, d: nat)
    requires Within(s, d) && p in s.pcs && !s.pcs[p].Idle? && s.pcs[p].event == e && e < |s.db.outbox|
    requires t.Commit? ==> FencedRetired(s.db, t.db, e, now)
    ensures Within(EndTurn(s, p, e, now, t), d)
  {
    hide Within, FencedRetired;
    if t.Commit? { ReleaseInBudget(s, EndTurn(s, p, e, now, t), p, e, now, d); }
    else { KeepInBudget(s, EndTurn(s, p, e, now, t), p, e, d); }
  }

  /** A claimed row belongs to its new claimant alone. */
  lemma ClaimTakes(s: Sys, t: Sys, p: nat, e: nat)
    requires Exclusive(s) && PcOf(s, p).Idle? && e < |s.db.outbox| && Free(s, e)
    requires t.pcs.Keys == s.pcs.Keys + {p} && (forall q | q in s.pcs && q != p :: t.pcs[q] == s.pcs[q])
    requires t.pcs[p].Claimed? && t.pcs[p].event == e
    requires |t.db.outbox| == |s.db.outbox| && (forall i :: 0 <= i < |s.db.outbox| && i != e ==> t.db.outbox[i] == s.db.outbox[i])
    requires t.db.outbox[e].status.InProgress? && t.db.outbox[e].claimedBy == Some(t.pcs[p].worker)
    ensures Exclusive(t) && !Free(t, e) && forall i: nat :: i != e ==> (Free(t, i) <==> Free(s, i))
  {
    forall q | q in t.pcs ensures Holds(t, t.pcs[q]) {
      if q != p { assert Holds(s, s.pcs[q]); }
    }
    forall i: nat | i != e ensures Free(t, i) <==> Free(s, i) {
      if Free(t, i) {
        forall q | q in s.pcs ensures s.pcs[q].Idle? || s.pcs[q].event != i {
          if q != p { assert t.pcs[q] == s.pcs[q]; }
        }
      }
      if Free(s, i) {
        forall q | q in t.pcs ensures t.pcs[q].Idle? || t.pcs[q].event != i {
          if q != p { assert t.pcs[q] == s.pcs[q]; }
        }
      }
    }
  }

  lemma QueuedIsFree(s: Sys, e: nat)
    requires Exclusive(s) && e < |s.db.outbox| && !s.db.outbox[e].status.InProgress?
    ensures Free(s, e)
  {
    forall p | p in s.pcs ensures s.pcs[p].Idle? || s.pcs[p].event != e { assert Holds(s, s.pcs[p]); }
  }

  lemma ClaimInBudget(s: Sys, p: nat, worker: string, e: nat, now: Time, lease: nat, d: nat)
    requires Within(s, d) && Steady(s, Claim(p, worker, e, now, lease))
    ensures Within(Next(false, s, Claim(p, worker, e, now, lease)), d)
  {
    hide Free;
    if PcOf(s, p).Idle? && e < |s.db.outbox| && Due(s.db.outbox[e], now) {
      var t := Next(false, s, Claim(p, worker, e, now, lease));
      if !s.db.outbox[e].status.InProgress? { QueuedIsFree(s, e); }
      ClaimTakes(s, t, p, e);
    }
  }

  /** The dead process's row lies free, and one more attempt at it is paid for. */
  lemma DieInBudget(s: Sys, p: nat, io: Io, afterCall: bool, d: nat)
    requires Within(s, d)
    ensures Within(Next(false, s, Die(p, io, afterCall)), if PcOf(s, p).Idle? then d else d + 1)
  {
    hide Free, CallsBeforeDeath;
    var t := Next(false, s, Die(p, io, afterCall));
    if PcOf(s, p).Idle? {
      IdleStays(s, t, p);
    } else {
      assert Holds(s, s.pcs[p]);
      OthersHold(s, t, p, s.pcs[p].event);
    }
  }

  lemma IdleStays(s: Sys, t: Sys, p: nat)
    requires Exclusive(s) && PcOf(s, p).Idle? && t.pcs == s.pcs[p := Idle] && t.db.outbox == s.db.outbox
    ensures Exclusive(t) && forall i: nat :: Free(t, i) <==> Free(s, i)
  {
    forall q | q in t.pcs ensures Holds(t, t.pcs[q]) { if q != p { assert Holds(s, s.pcs[q]); } }
    forall i: nat ensures Free(t, i) <==> Free(s, i) {
      if Free(t, i) {
        forall q | q in s.pcs ensures s.pcs[q].Idle? || s.pcs[q].event != i { if q != p { assert t.pcs[q] == s.pcs[q]; } }
      }
    }
  }

  lemma WorkInBudget(s: Sys, step: Step, d: nat)
    requires InBudget(s, d) && (step.Handle? || step.Resume? || step.Recover?)
    ensures Within(Next(false, s, step), d)
  {
    hide Within, FencedRetired, Inv;
    var p := step.p;
    var pc := PcOf(s, p);
    if !pc.Idle? && pc.event < |s.db.outbox| {
      if step.Handle? && pc.Working? {
        BeginHandlerRetires(s, pc.event, step.io, pc.now);
        var b := BeginHandler(false, s.db, pc.event, step.io, pc.now);
        if b.NeedsFence? { KeepInBudget(s, Next(false, s, step), p, pc.event, d); }
        else { EndTurnInBudget(s, p, pc.event, pc.now, b.turn, d); }
      } else if step.Resume? && pc.Fenced? {
        FencedIsSane(s, p);
        ResumeHandlerRetires(s, pc.event, pc.acquired, step.io, pc.now);
        EndTurnInBudget(s, p, pc.event, pc.now, ResumeHandler(s.db, pc.event, pc.acquired, step.io, pc.now), d);
      } else if step.Recover? && pc.Failed? {
        ReleaseInBudget(s, Next(false, s, step), p, pc.event, pc.now, d);
      }
    }
  }

  lemma FencedIsSane(s: Sys, p: nat)
    requires Inv(false, s) && PcOf(s, p).Fenced?
    ensures var e := PcOf(s, p).event;
            e < |s.db.outbox| && (s.db.outbox[e].kind.ReconcileRequested? ==> s.db.intent.fencedAt.Some?)
  {
    assert PcSane(false, s, s.pcs[p]);
  }

  lemma LoadInBudget(s: Sys, p: nat, d: nat)
    requires Within(s, d)
    ensures Within(Next(false, s, Load(p)), d)
  {
    hide Free;
    var pc := PcOf(s, p);
    if pc.Claimed? && pc.event < |s.db.outbox| {
      assert Holds(s, s.pcs[p]);
      KeepInBudget(s, Next(false, s, Load(p)), p, pc.event, d);
    }
  }

  lemma FenceInBudget(s: Sys, p: nat, d: nat)
    requires Within(s, d)
    ensures Within(Next(false, s, CommitFence(p)), d)
  {
    hide Within;
    var pc := PcOf(s, p);
    if pc.Fencing? && pc.event < |s.db.outbox| { KeepInBudget(s, Next(false, s, CommitFence(p)), p, pc.event, d); }
  }

  lemma SameTable(s: Sys, t: Sys, d: nat)
    requires Within(s, d) && t.db.outbox == s.db.outbox && t.pcs == s.pcs && t.claims == s.claims
    ensures Within(t, d)
  {
    forall p | p in t.pcs ensures Holds(t, t.pcs[p]) { assert Holds(s, s.pcs[p]); }
    assert Free(t, 0) <==> Free(s, 0);
    assert Free(t, 1) <==> Free(s, 1);
  }

  lemma OtherStepsInBudget(s: Sys, step: Step, d: nat)
    requires InBudget(s, d)
    requires step.Deliver? || step.DeliverElsewhere? || step.ReadIntent? || step.AppendReuse? || step.ConflictingRequest? || step.RefusedRequest?
    ensures Within(Next(false, s, step), d)
  {
    hide Within, Inv;
    if step.Deliver? { DeliveryKeepsTable(s, step.hook); }
    SameTable(s, Next(false, s, step), d);
  }

  lemma DeliveryKeepsTable(s: Sys, h: Hook)
    requires Inv(false, s)
    ensures DeliverOne(s.db, h).outbox == s.db.outbox
  {
    HandleWebhookAdvances(false, s.db, h);
  }

  lemma SteadyStepInBudget(s: Sys, step: Step, d: nat)
    requires InBudget(s, d) && Steady(s, step)
    ensures InBudget(Next(false, s, step), if Fatal(s, step) then d + 1 else d)
  {
    hide Within, Inv, Steady;
    StepIsSafe(false, s, step);
    if step.Claim? { ClaimInBudget(s, step.p, step.worker, step.event, step.now, step.lease, d); }
    else if step.Handle? || step.Resume? || step.Recover? { WorkInBudget(s, step, d); }
    else if step.Die? { DieInBudget(s, step.p, step.io, step.afterCall, d); }
    else if step.Load? { LoadInBudget(s, step.p, d); }
    else if step.CommitFence? { FenceInBudget(s, step.p, d); }
    else { OtherStepsInBudget(s, step, d); }
  }

  lemma {:induction false} SteadyRunInBudget(s: Sys, steps: seq<Step>, d: nat)
    requires InBudget(s, d) && SteadyRun(s, steps)
    ensures InBudget(Run(false, s, steps), d + Deaths(s, steps))
    decreases |steps|
  {
    hide InBudget, Next;
    if steps != [] {
      SteadyStepInBudget(s, steps[0], d);
      SteadyRunInBudget(Next(false, s, steps[0]), steps[1..], if Fatal(s, steps[0]) then d + 1 else d);
    }
  }

  lemma StartInBudget(b: Bound, ledger: seq<AuditEvent>, now: Time)
    requires ReadyToPay(ledger)
    ensures InBudget(Start(b, ledger, now), 0)
  {
    StartIsSafe(false, b, ledger, now);
  }

  /** When no lease is outlived, a fenced payment costs at most two full attempt budgets of claims and
      one more for every process that died holding a row, and never more than two rows. */
  lemma EffortPaidByDeaths(b: Bound, ledger: seq<AuditEvent>, now: Time, steps: seq<Step>)
    requires ReadyToPay(ledger) && SteadyRun(Start(b, ledger, now), steps)
    ensures var s := Run(false, Start(b, ledger, now), steps);
            s.claims <= 2 * DEFAULT_MAX_ATTEMPTS + Deaths(Start(b, ledger, now), steps) && |s.db.outbox| <= 2
  {
    hide Run, Start, SteadyRun, Deaths, Inv;
    StartInBudget(b, ledger, now);
    SteadyRunInBudget(Start(b, ledger, now), steps, 0);
  }

  /** No process dies, and no lease is outlived. */
  ghost predicate CalmRun(s: Sys, steps: seq<Step>) { SteadyRun(s, steps) && Deaths(s, steps) == 0 }

  /** A fenced payment of which no worker dies costs at most two full attempt budgets of claims,
      however long it is polled. */
  lemma BoundedEffort(b: Bound, ledger: seq<AuditEvent>, now: Time, steps: seq<Step>)
    requires ReadyToPay(ledger) && CalmRun(Start(b, ledger, now), steps)
    ensures Run(false, Start(b, ledger, now), steps).claims <= 2 * DEFAULT_MAX_ATTEMPTS
    ensures |Run(false, Start(b, ledger, now), steps).db.outbox| <= 2
  {
    EffortPaidByDeaths(b, ledger, now, steps);
  }

  // ---- Why deaths count ---------------------------------------------------------------------

  const NO_IO := Io("", false, NotFound, false, CreateCrashed)

  /** Claim the create row the moment its lease lapses, and die: `n` times over. */
  function CrashLoop(s: Sys, n: nat): seq<Step>
    requires |s.db.outbox| > 0
    decreases n
  {
    if n == 0 then []
    else
      var claim := Claim(0, "w", 0, s.db.outbox[0].availableAt, 30);
      var after := Next(false, Next(false, s, claim), Die(0, NO_IO, false));
      if |after.db.outbox| > 0 then [claim, Die(0, NO_IO, false)] + CrashLoop(after, n - 1) else []
  }

  ghost predicate AllIdle(s: Sys) { forall p | p in s.pcs :: s.pcs[p].Idle? }

  lemma {:induction false} CrashLoopClaims(s: Sys, n: nat)
    requires |s.db.outbox| > 0 && (s.db.outbox[0].status.Pending? || s.db.outbox[0].status.InProgress?) && AllIdle(s)
    ensures Run(false, s, CrashLoop(s, n)).claims == s.claims + n
    ensures SteadyRun(s, CrashLoop(s, n)) && Deaths(s, CrashLoop(s, n)) == n
    decreases n
  {
    if n > 0 {
      var claim := Claim(0, "w", 0, s.db.outbox[0].availableAt, 30);
      var middle := Next(false, s, claim);
      var after := Next(false, middle, Die(0, NO_IO, false));
      var steps := CrashLoop(s, n);
      assert steps[0] == claim && steps[1..][0] == Die(0, NO_IO, false) && steps[1..][1..] == CrashLoop(after, n - 1);
      assert Steady(s, claim) && Steady(middle, Die(0, NO_IO, false));
      assert Run(false, s, steps) == Run(false, middle, steps[1..]);
      assert Run(false, middle, steps[1..]) == Run(false, after, steps[1..][1..]);
      CrashLoopClaims(after, n - 1);
      assert SteadyRun(middle, steps[1..]);
    }
  }

  /** The deaths have to be paid for: the attempt budget binds handlers that return, not processes
      that die, since a claim never looks at it. For every n there is a run with n claims and n deaths
      in which no lease is outlived. */
  lemma CrashesAreNotBudgeted(b: Bound, ledger: seq<AuditEvent>, now: Time, n: nat)
    ensures var s := Start(b, ledger, now);
            && Run(false, s, CrashLoop(s, n)).claims == n
            && SteadyRun(s, CrashLoop(s, n)) && Deaths(s, CrashLoop(s, n)) == n
  {
    CrashLoopClaims(Start(b, ledger, now), n);
  }
}
