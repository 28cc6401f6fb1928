/** The conditional claim of an outbox row: a compare-and-set on what the candidate SELECT saw. */
module Claims {
  import opened Vocabulary
  import opened Tables

  /** What a claimant's SELECT observed, and the moment its turn started. */
  datatype Seen = Seen(status: OutboxStatus, availableAt: Time, now: Time, lease: Time)

  /** The SELECT returns due rows only; a lease is a positive interval. */
  predicate Observed(o: Seen) {
    (o.status.Pending? || o.status.InProgress?) && o.availableAt <= o.now && o.lease > 0
  }

  /** The UPDATE's WHERE clause restates both observed values. */
  predicate Unmoved(row: OutboxRow, o: Seen) { row.status == o.status && row.availableAt == o.availableAt }

  function Claim(row: OutboxRow, o: Seen, worker: string): OutboxRow {
    row.(status := InProgress, attempts := row.attempts + 1, claimedBy := Some(worker), availableAt := o.now + o.lease)
  }

  /** The outbox row updated in place. */
  class Row {
    var status: OutboxStatus
    var attempts: nat
    var availableAt: Time
    var claimedBy: Option<string>
    const kind: OutboxKind
    const maxAttempts: nat

    function View(): OutboxRow
      reads this
    {
      OutboxRow(kind, status, attempts, maxAttempts, availableAt, claimedBy)
    }

    constructor (row: OutboxRow)
      ensures View() == row
    {
      status, attempts, availableAt, claimedBy := row.status, row.attempts, row.availableAt, row.claimedBy;
      kind, maxAttempts := row.kind, row.maxAttempts;
    }

    /** `_claim_conditional`: a row that moved since the SELECT is left alone. */
    method ClaimConditional(o: Seen, worker: string) returns (claimed: bool)
      modifies this
      ensures claimed == Unmoved(old(View()), o)
      ensures View() == if claimed then Claim(old(View()), o, worker) else old(View())
    {
      claimed := status == o.status && availableAt == o.availableAt;
      if claimed {
        status := InProgress;
        attempts := attempts + 1;
        claimedBy := Some(worker);
        availableAt := o.now + o.lease;
      }
    }
  }

  // ---- Runs of one row ---------------------------------------------------------------------

  /** What happens to one row: a claim attempt, or a claimant's end of turn. `turn` numbers the
      successful claim whose holder acts; its moment is the one its turn started with. */
  datatype Act =
    | TryClaim(seen: Seen, worker: string)
    | PutBack(turn: nat)
    | Finish(turn: nat)

  /** The row and, in order, what each successful claim had observed. */
  datatype Track = Track(row: OutboxRow, won: seq<Seen>)

  function Perform(t: Track, a: Act): Track {
    match a
    case TryClaim(o, worker) =>
      if Observed(o) && Unmoved(t.row, o) then Track(Claim(t.row, o, worker), t.won + [o]) else t
    case PutBack(k) => if k < |t.won| then t.(row := Rescheduled(t.row, t.won[k].now)) else t
    case Finish(k) => if k < |t.won| then t.(row := t.row.(status := Processed)) else t
  }

  /** A turn ends only under its own unexpired claim: it is the latest, and the row is still claimed. */
  predicate WithinLease(t: Track, a: Act) {
    a.TryClaim? || (a.turn + 1 == |t.won| && t.row.status.InProgress?)
  }

  predicate NoOutlivedLease(t: Track, acts: seq<Act>)
    decreases |acts|
  {
    acts == [] || (WithinLease(t, acts[0]) && NoOutlivedLease(Perform(t, acts[0]), acts[1..]))
  }

  function PerformAll(t: Track, acts: seq<Act>): Track
    decreases |acts|
  {
    if acts == [] then t else PerformAll(Perform(t, acts[0]), acts[1..])
  }

  /** The moments observed by successive winners grow, and the row is past the last of them. */
  ghost predicate Ascending(t: Track) {
    && (forall i :: 0 <= i < |t.won| ==> Observed(t.won[i]))
    && (forall i, j :: 0 <= i < j < |t.won| ==> t.won[i].availableAt < t.won[j].availableAt)
    && (|t.won| > 0 ==> t.won[|t.won| - 1].availableAt < t.row.availableAt)
  }

  /** A claim moves `available_at` past what it saw, and so does its holder's reschedule, because
      backoff is never zero. */
  lemma PerformAscends(t: Track, a: Act)
    requires Ascending(t) && WithinLease(t, a)
    ensures Ascending(Perform(t, a))
  {
  }

  lemma {:induction false} RunAscends(t: Track, acts: seq<Act>)
    requires Ascending(t) && NoOutlivedLease(t, acts)
    ensures Ascending(PerformAll(t, acts))
    decreases |acts|
  {
    if acts != [] {
      PerformAscends(t, acts[0]);
      RunAscends(Perform(t, acts[0]), acts[1..]);
    }
  }

  /** The compare-and-set is sound: two claims that observed the same values never both succeed.
      No assumption is made about clocks. */
  lemma ClaimsAreExclusive(row: OutboxRow, acts: seq<Act>, i: nat, j: nat)
    requires NoOutlivedLease(Track(row, []), acts)
    requires i < j < |PerformAll(Track(row, []), acts).won|
    ensures var won := PerformAll(Track(row, []), acts).won;
            !(won[i].status == won[j].status && won[i].availableAt == won[j].availableAt)
  {
    RunAscends(Track(row, []), acts);
  }

  // ---- Why the lease matters ---------------------------------------------------------------

  /** Every turn reads a later moment than the one before. Turn 3 outlives its lease: it wakes up
      after turn 4 took, returned and lost the row again, and puts it back at the same instant, 150. */
  function OutlivedRun(): seq<Act> {
    [TryClaim(Seen(Pending, 0, 0, 30), "A"),
     TryClaim(Seen(InProgress, 30, 30, 30), "B"),
     TryClaim(Seen(InProgress, 60, 60, 30), "C"),
     TryClaim(Seen(InProgress, 90, 90, 30), "D"),
     TryClaim(Seen(InProgress, 120, 120, 30), "E"),
     PutBack(4),                                    // on its fifth attempt: queued for 120 + 30
     TryClaim(Seen(Pending, 150, 150, 30), "F"),
     PutBack(3),                                    // on the sixth attempt: queued for 90 + 60
     TryClaim(Seen(Pending, 150, 150, 30), "G")]
  }

  lemma {:induction false} PerformUpTo(t: Track, acts: seq<Act>, k: nat)
    requires k < |acts|
    ensures PerformAll(t, acts[..k + 1]) == Perform(PerformAll(t, acts[..k]), acts[k])
    decreases |acts|
  {
    if k == 0 {
      assert acts[..1][1..] == [];
    } else {
      PerformUpTo(Perform(t, acts[0]), acts[1..], k - 1);
      assert acts[..k + 1][1..] == acts[1..][..k] && acts[..k][1..] == acts[1..][..k - 1];
    }
  }

  /** Where the run stands when turn 4 has put the row back. */
  lemma OutlivedHalfway(row: OutboxRow)
    requires row.status.Pending? && row.availableAt == 0 && row.attempts == 0 && row.maxAttempts == DEFAULT_MAX_ATTEMPTS
    ensures var t := PerformAll(Track(row, []), OutlivedRun()[..6]);
            && t.row.status.Pending? && t.row.availableAt == 150 && t.row.attempts == 5 && t.row.maxAttempts == DEFAULT_MAX_ATTEMPTS
            && |t.won| == 5 && t.won[3].now == 90 && t.won[4].now == 120
            && forall i, j :: 0 <= i < j < 5 ==> t.won[i].now <= t.won[j].now
  {
    var acts, t0 := OutlivedRun(), Track(row, []);
    assert PerformAll(t0, acts[..0]) == t0;
    PerformUpTo(t0, acts, 0);
    PerformUpTo(t0, acts, 1);
    PerformUpTo(t0, acts, 2);
    PerformUpTo(t0, acts, 3);
    PerformUpTo(t0, acts, 4);
    PerformUpTo(t0, acts, 5);
  }

  lemma OutlivedWins(row: OutboxRow)
    requires row.status.Pending? && row.availableAt == 0 && row.attempts == 0 && row.maxAttempts == DEFAULT_MAX_ATTEMPTS
    ensures var won := PerformAll(Track(row, []), OutlivedRun()).won;
            && |won| == 7 && won[5] == won[6]
            && (forall i, j :: 0 <= i < j < |won| ==> won[i].now <= won[j].now)
  {
    hide PerformAll;
    var acts, t0 := OutlivedRun(), Track(row, []);
    OutlivedHalfway(row);
    PerformUpTo(t0, acts, 6);
    PerformUpTo(t0, acts, 7);
    PerformUpTo(t0, acts, 8);
    assert acts[..9] == acts;
  }

  /** Without that restriction the claim is not exclusive, even under a clock that never goes back:
      two turns that observed the same values both win. */
  lemma OutlivedLeaseBreaksClaims(row: OutboxRow)
    requires row.status.Pending? && row.availableAt == 0 && row.attempts == 0 && row.maxAttempts == DEFAULT_MAX_ATTEMPTS
    ensures var won := PerformAll(Track(row, []), OutlivedRun()).won;
            && |won| == 7 && won[5] == won[6]
            && (forall i, j :: 0 <= i < j < |won| ==> won[i].now <= won[j].now)
            && !NoOutlivedLease(Track(row, []), OutlivedRun())
  {
    hide OutlivedRun, PerformAll;
    OutlivedWins(row);
    if NoOutlivedLease(Track(row, []), OutlivedRun()) {
      ClaimsAreExclusive(row, OutlivedRun(), 5, 6);
    }
  }
}
