/** The worker loop over the rows in place. A turn that nothing interrupts is one run of the
    protocol, so everything proved about runs holds of the loop. */
module Worker {
  import opened Vocabulary
  import opened AuditEvents
  import opened Tables
  import opened Executor
  import opened Reconciliation
  import opened Protocol
  import opened Session

  lemma {:induction false} RunAppend(idempotent: bool, s: Sys, steps: seq<Step>, more: seq<Step>)
    ensures Run(idempotent, s, steps + more) == Run(idempotent, Run(idempotent, s, steps), more)
    decreases |steps|
  {
    if steps == [] {
      assert steps + more == more;
    } else {
      assert (steps + more)[1..] == steps[1..] + more;
      RunAppend(idempotent, Next(idempotent, s, steps[0]), steps[1..], more);
    }
  }

  lemma RunStep(idempotent: bool, s: Sys, steps: seq<Step>, step: Step)
    ensures Run(idempotent, s, steps + [step]) == Next(idempotent, Run(idempotent, s, steps), step)
  {
    hide Next;
    RunAppend(idempotent, s, steps, [step]);
    var t := Run(idempotent, s, steps);
    assert [step][1..] == [];
    assert Run(idempotent, Next(idempotent, t, step), []) == Next(idempotent, t, step);
  }

  // ---- Claiming ----------------------------------------------------------------------------

  /** Due rows are taken in the order of their schedule, then of their creation. */
  ghost predicate FirstDue(rows: seq<OutboxRow>, now: Time, e: int) {
    && 0 <= e < |rows| && Due(rows[e], now)
    && forall i :: 0 <= i < |rows| && Due(rows[i], now) ==>
         rows[e].availableAt < rows[i].availableAt || (rows[e].availableAt == rows[i].availableAt && e <= i)
  }

  ghost predicate NothingDue(rows: seq<OutboxRow>, now: Time) {
    forall i :: 0 <= i < |rows| ==> !Due(rows[i], now)
  }

  method FindDue(rows: seq<OutboxRow>, now: Time) returns (found: Option<nat>)
    ensures found.None? ==> NothingDue(rows, now)
    ensures found.Some? ==> FirstDue(rows, now, found.value)
  {
    found := None;
    var i := 0;
    while i < |rows|
      invariant 0 <= i <= |rows|
      invariant found.None? ==> NothingDue(rows[..i], now)
      invariant found.Some? ==> FirstDue(rows[..i], now, found.value)
    {
      assert forall j :: 0 <= j < i ==> rows[..i + 1][j] == rows[..i][j];
      assert rows[..i + 1][i] == rows[i];
      if Due(rows[i], now) && (found.None? || rows[i].availableAt < rows[found.value].availableAt) {
        found := Some(i);
      }
      i := i + 1;
    }
    assert rows[..i] == rows;
  }

  /** Claim the first due row, or report that there is none. */
  method ClaimNextEvent(rows: Rows, worker: string, now: Time, lease: nat) returns (claimed: Option<nat>)
    modifies rows`outbox
    ensures claimed.None? ==> NothingDue(old(rows.outbox), now) && rows.outbox == old(rows.outbox)
    ensures claimed.Some? ==>
              && FirstDue(old(rows.outbox), now, claimed.value)
              && rows.outbox == old(rows.outbox)[claimed.value := ClaimRow(old(rows.outbox)[claimed.value], worker, now + lease)]
  {
    claimed := FindDue(rows.outbox, now);
    if claimed.Some? {
      var row := rows.outbox[claimed.value];
      rows.outbox := rows.outbox[claimed.value := ClaimRow(row, worker, now + lease)];
    }
  }

  /** A claim succeeds exactly on a row that is waiting, or whose last claim has run out, and whose moment has
      come; it counts the attempt, signs the row and hides it for the lease. */
  lemma ClaimTable(idempotent: bool, s: Sys, p: nat, worker: string, e: nat, now: Time, lease: nat)
    requires PcOf(s, p).Idle? && e < |s.db.outbox|
    ensures var row, t := s.db.outbox[e], Next(idempotent, s, Claim(p, worker, e, now, lease));
            if (row.status == Pending || row.status == InProgress) && row.availableAt <= now then
              && PcOf(t, p) == Claimed(e, worker, now) && t.claims == s.claims + 1 && t.creates == s.creates
              && t.db == s.db.(outbox := t.db.outbox) && |t.db.outbox| == |s.db.outbox|
              && t.db.outbox[e] == OutboxRow(row.kind, InProgress, row.attempts + 1, row.maxAttempts, now + lease, Some(worker))
              && forall k :: 0 <= k < |s.db.outbox| && k != e ==> t.db.outbox[k] == s.db.outbox[k]
            else t == s
  {
  }

  // ---- One turn ----------------------------------------------------------------------------

  datatype TurnEnd = NothingToDo | Handled | Raised

  /** The rows and the process are where the run `steps` of the protocol leaves them. */
  ghost predicate Follows(idempotent: bool, s: Sys, steps: seq<Step>, db: Db, p: nat, pc: Pc, creates: nat) {
    var t := Run(idempotent, s, steps);
    t.db == db && PcOf(t, p) == pc && t.creates == s.creates + creates
  }

  /** From a claimed row to the end of its handler, fence included. */
  method WorkOn(rows: Rows, idempotent: bool, p: nat, e: nat, before: Io, behind: Io, now: Time, ghost s: Sys, ghost start: seq<Step>)
    returns (end: TurnEnd, creates: nat, ghost steps: seq<Step>)
    requires e < |rows.outbox| && Follows(idempotent, s, start, rows.View(), p, Working(e, now), 0)
    modifies rows
    ensures Follows(idempotent, s, steps, rows.View(), p, Idle, creates) && !end.NothingToDo?
  {
    hide BeginHandler;
    steps := start + [Step.Handle(p, before)];
    RunStep(idempotent, s, start, Step.Handle(p, before));
    var n, fence, requeue, raised := rows.ProcessClaimedEvent(idempotent, e, before, now);
    creates := n;
    if fence {
      creates, raised, steps := WorkBehindFence(rows, idempotent, p, e, requeue, behind, now, s, steps);
    } else if raised {
      RunStep(idempotent, s, steps, Recover(p));
      steps := steps + [Recover(p)];
    }
    end := if raised then TurnEnd.Raised else Handled;
  }

  method FenceInPlace(rows: Rows, idempotent: bool, p: nat, e: nat, requeue: bool, now: Time, ghost s: Sys, ghost start: seq<Step>)
    returns (acquired: bool)
    requires e < |rows.outbox| && Follows(idempotent, s, start, rows.View(), p, Fencing(e, now, requeue), 0)
    modifies rows
    ensures e < |rows.outbox| && Follows(idempotent, s, start + [CommitFence(p)], rows.View(), p, Fenced(e, now, acquired), 0)
  {
    RunStep(idempotent, s, start, CommitFence(p));
    acquired := false;
    if rows.outbox[e].kind.CreateRequested? {
      acquired := rows.AcquireProviderCreateFence(requeue, now);
    } else {
      rows.SealCreateFence(now);
    }
  }

  method WorkBehindFence(rows: Rows, idempotent: bool, p: nat, e: nat, requeue: bool, io: Io, now: Time, ghost s: Sys, ghost start: seq<Step>)
    returns (creates: nat, raised: bool, ghost steps: seq<Step>)
    requires e < |rows.outbox| && Follows(idempotent, s, start, rows.View(), p, Fencing(e, now, requeue), 0)
    modifies rows
    ensures Follows(idempotent, s, steps, rows.View(), p, Idle, creates)
  {
    hide ResumeHandler;
    var acquired := FenceInPlace(rows, idempotent, p, e, requeue, now, s, start);
    steps := start + [CommitFence(p)];
    RunStep(idempotent, s, steps, Resume(p, io));
    creates, raised := rows.ProcessFencedEvent(e, acquired, io, now);
    steps := steps + [Resume(p, io)];
    if raised {
      RunStep(idempotent, s, steps, Recover(p));
      steps := steps + [Recover(p)];
    }
  }

  /** `run_once`: claim, work, and put the row back if the handler raised. */
  method RunOnce(rows: Rows, idempotent: bool, p: nat, worker: string, before: Io, behind: Io, now: Time, lease: nat, ghost s: Sys)
    returns (end: TurnEnd, creates: nat, ghost steps: seq<Step>)
    requires s.db == rows.View() && PcOf(s, p).Idle?
    modifies rows
    ensures Follows(idempotent, s, steps, rows.View(), p, Idle, creates)
    ensures end.NothingToDo? <==> NothingDue(old(rows.outbox), now)
    ensures end.NothingToDo? ==> rows.View() == old(rows.View())
  {
    creates, steps := 0, [];
    var claimed := ClaimNextEvent(rows, worker, now, lease);
    if claimed.None? {
      return NothingToDo, 0, [];
    }
    var e := claimed.value;
    var claim := Claim(p, worker, e, now, lease);
    RunStep(idempotent, s, [], claim);
    RunStep(idempotent, s, [claim], Load(p));
    assert [] + [claim] == [claim] && [claim] + [Load(p)] == [claim, Load(p)];
    end, creates, steps := WorkOn(rows, idempotent, p, e, before, behind, now, s, [claim, Load(p)]);
  }

  // ---- The loop ----------------------------------------------------------------------------

  /** `drain`: turns until nothing is due, the cap is reached, or a handler raises. */
  method Drain(rows: Rows, idempotent: bool, p: nat, worker: string, ios: seq<(Io, Io)>, now: Time, lease: nat, ghost s: Sys)
    returns (turns: nat, raised: bool, ghost steps: seq<Step>)
    requires s.db == rows.View() && PcOf(s, p).Idle?
    modifies rows
    ensures rows.View() == Run(idempotent, s, steps).db && PcOf(Run(idempotent, s, steps), p).Idle?
    ensures turns <= |ios| && (turns < |ios| && !raised ==> NothingDue(rows.outbox, now))
  {
    turns, raised, steps := 0, false, [];
    while turns < |ios|
      invariant 0 <= turns <= |ios| && !raised
      invariant rows.View() == Run(idempotent, s, steps).db && PcOf(Run(idempotent, s, steps), p).Idle?
    {
      ghost var t := Run(idempotent, s, steps);
      var end, creates;
      ghost var more;
      end, creates, more := RunOnce(rows, idempotent, p, worker, ios[turns].0, ios[turns].1, now, lease, t);
      RunAppend(idempotent, s, steps, more);
      steps := steps + more;
      if end.NothingToDo? { return; }
      if end.Raised? { raised := true; return; }
      turns := turns + 1;
    }
  }
}
