/** The tamper-evident ledger: an appender that links each event to the one before, and a verifier
    that reports the first failure. Hashing is a parameter: the composite of the canonical event
    body and SHA-256. */
module Ledger {
  import opened Vocabulary
  import opened AuditEvents
  import Sorting

  /** The hashed fields of an event. */
  datatype Body = Body(
    missionId: string, sequence: int, tag: TypeTag, actor: string, payload: Json,
    previousHash: string, createdAt: Option<Time>)

  /** An `audit_events` row. The event id is stored but not hashed. */
  datatype Entry = Entry(eventId: int, body: Body, eventHash: string)

  type Hash = Body -> string

  function Repeated(c: char, n: nat): (s: string)
    ensures |s| == n && forall i :: 0 <= i < n ==> s[i] == c
  {
    if n == 0 then "" else [c] + Repeated(c, n - 1)
  }

  const HASH_HEX_LENGTH := 64
  const GENESIS_HASH := Repeated('0', HASH_HEX_LENGTH)

  predicate HexDigit(c: char) { '0' <= c <= '9' || 'a' <= c <= 'f' }

  predicate HashShaped(s: string) {
    |s| == HASH_HEX_LENGTH && forall i :: 0 <= i < |s| ==> HexDigit(s[i])
  }

  /** What is assumed of SHA-256 in hexadecimal: its shape, and nothing else. */
  ghost predicate DigestFunction(h: Hash) {
    forall b :: HashShaped(h(b))
  }

  // ---- Appending ---------------------------------------------------------------------------

  function NextBody(es: seq<Entry>, missionId: string, tag: TypeTag, actor: string, payload: Json, now: Time): Body {
    if es == [] then Body(missionId, 0, tag, actor, payload, GENESIS_HASH, Some(now))
    else
      var last := es[|es| - 1];
      Body(missionId, last.body.sequence + 1, tag, actor, payload, last.eventHash, Some(now))
  }

  /** One append as it is asked for. */
  datatype NewEvent = NewEvent(eventId: int, event: EventType, actor: string, payload: Payload, now: Time)

  function AppendTo(h: Hash, missionId: string, es: seq<Entry>, r: NewEvent): seq<Entry> {
    var body := NextBody(es, missionId, Known(r.event), r.actor, JObject(r.payload), r.now);
    es + [Entry(r.eventId, body, h(body))]
  }

  function Build(h: Hash, missionId: string, rs: seq<NewEvent>): seq<Entry> {
    if rs == [] then [] else AppendTo(h, missionId, Build(h, missionId, rs[..|rs| - 1]), rs[|rs| - 1])
  }

  /** The mission's rows in sequence order, appended in place under the mission lock; the last row is
      the one with the greatest sequence. */
  class Chain {
    const missionId: string
    const hash: Hash
    var entries: seq<Entry>

    constructor (missionId: string, hash: Hash)
      ensures entries == [] && this.missionId == missionId && this.hash == hash
    {
      this.missionId := missionId;
      this.hash := hash;
      entries := [];
    }

    method AppendEvent(r: NewEvent) returns (entry: Entry)
      modifies this
      ensures entries == AppendTo(hash, missionId, old(entries), r)
      ensures entry == entries[|entries| - 1]
    {
      var sequence, previous := 0, GENESIS_HASH;
      if |entries| > 0 {
        var last := entries[|entries| - 1];
        sequence, previous := last.body.sequence + 1, last.eventHash;
      }
      var body := Body(missionId, sequence, Known(r.event), r.actor, JObject(r.payload), previous, Some(r.now));
      entry := Entry(r.eventId, body, hash(body));
      entries := entries + [entry];
    }
  }

  // ---- Verifying ---------------------------------------------------------------------------

  datatype AuditCode =
    | EventMalformed | SequenceGap | GenesisInvalid | PreviousHashMismatch | EventHashMismatch

  datatype Verdict =
    | Valid(checked: nat)
    | Invalid(checked: nat, sequence: int, code: AuditCode, expected: Option<string>, actual: Option<string>)

  /** A row shaped like an audit event at all. */
  predicate WellShaped(e: Entry) {
    && e.body.sequence >= 0
    && HashShaped(e.body.previousHash) && HashShaped(e.eventHash)
    && e.body.payload.JObject? && e.body.tag != Unknown("") && e.body.actor != "" && e.body.createdAt.Some?
  }

  /** The first check the event at position `k` fails, if any. */
  function FailureAt(h: Hash, es: seq<Entry>, k: nat): Option<Verdict>
    requires k < |es|
  {
    var e := es[k];
    if !WellShaped(e) then Some(Invalid(k, e.body.sequence, EventMalformed, None, None))
    else if e.body.sequence != k then Some(Invalid(k, e.body.sequence, SequenceGap, None, None))
    else if k == 0 && e.body.previousHash != GENESIS_HASH then
      Some(Invalid(k, e.body.sequence, GenesisInvalid, Some(GENESIS_HASH), Some(e.body.previousHash)))
    else if k > 0 && e.body.previousHash != es[k - 1].eventHash then
      Some(Invalid(k, e.body.sequence, PreviousHashMismatch, Some(es[k - 1].eventHash), Some(e.body.previousHash)))
    else if h(e.body) != e.eventHash then
      Some(Invalid(k, e.body.sequence, EventHashMismatch, Some(h(e.body)), Some(e.eventHash)))
    else None
  }

  /** The event at `k` is well shaped, in sequence, linked to the one before (or to genesis), and
      its content hashes to its stored hash. */
  ghost predicate LinkedAt(h: Hash, es: seq<Entry>, k: int)
    requires 0 <= k < |es|
  {
    && WellShaped(es[k]) && es[k].body.sequence == k && h(es[k].body) == es[k].eventHash
    && es[k].body.previousHash == (if k == 0 then GENESIS_HASH else es[k - 1].eventHash)
  }

  ghost predicate Chained(h: Hash, es: seq<Entry>) {
    forall k :: 0 <= k < |es| ==> LinkedAt(h, es, k)
  }

  predicate Earlier(a: Entry, b: Entry) {
    a.body.sequence < b.body.sequence || (a.body.sequence == b.body.sequence && a.eventId <= b.eventId)
  }

  /** What a verdict on an ordered stream means. */
  ghost predicate Judges(h: Hash, es: seq<Entry>, v: Verdict) {
    match v
    case Valid(n) => n == |es| && Chained(h, es)
    case Invalid(k, _, _, _, _) => k < |es| && Chained(h, es[..k]) && FailureAt(h, es, k) == Some(v) && !Chained(h, es[..k + 1])
  }

  lemma FailureMeansUnlinked(h: Hash, es: seq<Entry>, k: nat)
    requires k < |es|
    ensures FailureAt(h, es, k).None? <==> LinkedAt(h, es, k)
  {
  }

  /** Whether an event is linked depends on the events up to it only. */
  lemma LinkedInPrefix(h: Hash, es: seq<Entry>, n: nat, k: nat)
    requires k < n <= |es|
    ensures LinkedAt(h, es[..n], k) <==> LinkedAt(h, es, k)
  {
  }

  lemma PrefixChained(h: Hash, es: seq<Entry>, n: nat)
    requires n <= |es|
    ensures Chained(h, es[..n]) <==> forall k :: 0 <= k < n ==> LinkedAt(h, es, k)
  {
    forall k | 0 <= k < n ensures LinkedAt(h, es[..n], k) <==> LinkedAt(h, es, k) {
      LinkedInPrefix(h, es, n, k);
    }
  }

  lemma ChainedExtends(h: Hash, es: seq<Entry>, k: nat)
    requires k < |es| && Chained(h, es[..k])
    ensures FailureAt(h, es, k).None? <==> Chained(h, es[..k + 1])
  {
    FailureMeansUnlinked(h, es, k);
    PrefixChained(h, es, k);
    PrefixChained(h, es, k + 1);
  }

  /** Verify in sequence order and stop at the first failure. A chain passes, everything before a
      reported failure is a chain, and the failure is real. */
  method VerifyEvents(h: Hash, events: seq<Entry>) returns (v: Verdict)
    ensures Judges(h, Sorting.Sort(Earlier, events), v)
  {
    var ordered := Sorting.Sort(Earlier, events);
    var k := 0;
    while k < |ordered|
      invariant 0 <= k <= |ordered|
      invariant Chained(h, ordered[..k])
    {
      var failure := FailureAt(h, ordered, k);
      ChainedExtends(h, ordered, k);
      if failure.Some? {
        return failure.value;
      }
      k := k + 1;
    }
    assert ordered[..k] == ordered;
    v := Valid(k);
  }

  /** Tail truncation is invisible: every prefix of a chain is a chain. */
  lemma PrefixesChain(h: Hash, es: seq<Entry>, n: nat)
    requires Chained(h, es) && n <= |es|
    ensures Chained(h, es[..n])
  {
    PrefixChained(h, es, n);
  }

  /** A failure is reported at the first position that is not linked, and nowhere else. */
  lemma FailurePosition(h: Hash, es: seq<Entry>, v: Verdict)
    requires Judges(h, es, v)
    ensures v.Valid? <==> Chained(h, es)
    ensures v.Invalid? ==> !LinkedAt(h, es, v.checked) && forall k :: 0 <= k < v.checked ==> LinkedAt(h, es, k)
  {
    if v.Invalid? {
      PrefixChained(h, es, v.checked);
      FailureMeansUnlinked(h, es, v.checked);
    }
  }

  /** A stream has one verdict only. */
  lemma VerdictIsUnique(h: Hash, es: seq<Entry>, v: Verdict, w: Verdict)
    requires Judges(h, es, v) && Judges(h, es, w)
    ensures v == w
  {
    FailurePosition(h, es, v);
    FailurePosition(h, es, w);
  }

  // ---- Order of retrieval ------------------------------------------------------------------

  lemma EarlierIsTotal()
    ensures Sorting.TotalPreorder(Earlier)
  {
  }

  predicate DistinctIds(es: seq<Entry>) {
    forall x, y :: x in es && y in es && x.eventId == y.eventId ==> x == y
  }

  /** The verdict does not depend on the order in which the rows were retrieved. */
  lemma VerdictForgetsOrder(h: Hash, xs: seq<Entry>, ys: seq<Entry>, v: Verdict, w: Verdict)
    requires multiset(xs) == multiset(ys) && DistinctIds(xs)
    requires Judges(h, Sorting.Sort(Earlier, xs), v) && Judges(h, Sorting.Sort(Earlier, ys), w)
    ensures v == w
  {
    EarlierIsTotal();
    Sorting.SortForgetsOrder(Earlier, xs, ys);
    VerdictIsUnique(h, Sorting.Sort(Earlier, xs), v, w);
  }

  ghost predicate Increasing(es: seq<Entry>) {
    forall i, j :: 0 <= i < j < |es| ==> es[i].body.sequence < es[j].body.sequence
  }

  lemma IncreasingIsSorted(es: seq<Entry>)
    requires Increasing(es)
    ensures Sorting.Sort(Earlier, es) == es
  {
  }

  lemma ChainIncreases(h: Hash, es: seq<Entry>)
    requires Chained(h, es)
    ensures Increasing(es)
  {
    assert forall i :: 0 <= i < |es| ==> LinkedAt(h, es, i) && es[i].body.sequence == i;
  }

  // ---- Integrity ---------------------------------------------------------------------------

  lemma GenesisShaped()
    ensures HashShaped(GENESIS_HASH)
  {
  }

  lemma AppendChains(h: Hash, missionId: string, es: seq<Entry>, r: NewEvent)
    requires DigestFunction(h) && Chained(h, es) && r.actor != ""
    ensures Chained(h, AppendTo(h, missionId, es, r))
  {
    GenesisShaped();
    var after := AppendTo(h, missionId, es, r);
    if es != [] { assert LinkedAt(h, es, |es| - 1); }
    assert after[..|es|] == es;
    ChainedExtends(h, after, |es|);
    assert after[..|es| + 1] == after;
  }

  /** Every chain the appender builds verifies. */
  lemma {:induction false} BuiltChainsVerify(h: Hash, missionId: string, rs: seq<NewEvent>)
    requires DigestFunction(h) && forall i :: 0 <= i < |rs| ==> rs[i].actor != ""
    ensures Chained(h, Build(h, missionId, rs))
    ensures Judges(h, Sorting.Sort(Earlier, Build(h, missionId, rs)), Valid(|rs|))
  {
    if rs != [] {
      BuiltChainsVerify(h, missionId, rs[..|rs| - 1]);
      AppendChains(h, missionId, Build(h, missionId, rs[..|rs| - 1]), rs[|rs| - 1]);
    }
    BuildLength(h, missionId, rs);
    ChainIncreases(h, Build(h, missionId, rs));
    IncreasingIsSorted(Build(h, missionId, rs));
  }

  lemma {:induction false} BuildLength(h: Hash, missionId: string, rs: seq<NewEvent>)
    ensures |Build(h, missionId, rs)| == |rs|
  {
    if rs != [] { BuildLength(h, missionId, rs[..|rs| - 1]); }
  }

  /** A collision found at position `k`: two different bodies, one hash. */
  ghost predicate CollisionAt(h: Hash, a: seq<Entry>, b: seq<Entry>, k: nat) {
    k < |a| && k < |b| && a[k].body != b[k].body && h(a[k].body) == h(b[k].body)
  }

  /** The head commits to the whole history: two chains with the same last hash agree on every
      hashed field of every event, unless they exhibit a hash collision themselves. */
  lemma {:induction false} HeadCommitsToHistory(h: Hash, a: seq<Entry>, b: seq<Entry>)
    requires Chained(h, a) && Chained(h, b) && |a| == |b|
    requires |a| > 0 ==> a[|a| - 1].eventHash == b[|b| - 1].eventHash
    ensures (forall k :: 0 <= k < |a| ==> a[k].body == b[k].body && a[k].eventHash == b[k].eventHash)
            || exists k :: 0 <= k < |a| && CollisionAt(h, a, b, k)
    decreases |a|
  {
    if a != [] {
      var n := |a| - 1;
      assert LinkedAt(h, a, n) && LinkedAt(h, b, n);
      if a[n].body != b[n].body {
        assert CollisionAt(h, a, b, n);
      } else {
        var a', b' := a[..n], b[..n];
        PrefixesChain(h, a, n);
        PrefixesChain(h, b, n);
        HeadCommitsToHistory(h, a', b');
        if exists k :: 0 <= k < n && CollisionAt(h, a', b', k) {
          var k :| 0 <= k < n && CollisionAt(h, a', b', k);
          assert CollisionAt(h, a, b, k);
        } else {
          forall k | 0 <= k < |a| ensures a[k].body == b[k].body && a[k].eventHash == b[k].eventHash {
            if k < n { assert a[k] == a'[k] && b[k] == b'[k]; }
          }
        }
      }
    }
  }

  /** Chains of different lengths never share a head without a collision of their heads. */
  lemma HeadCommitsToLength(h: Hash, a: seq<Entry>, b: seq<Entry>)
    requires Chained(h, a) && Chained(h, b) && a != [] && b != [] && |a| != |b|
    requires a[|a| - 1].eventHash == b[|b| - 1].eventHash
    ensures a[|a| - 1].body != b[|b| - 1].body && h(a[|a| - 1].body) == h(b[|b| - 1].body)
  {
    assert LinkedAt(h, a, |a| - 1) && LinkedAt(h, b, |b| - 1);
  }

  // ---- Tampering ---------------------------------------------------------------------------

  /** Rewriting a non-last event is caught at that position or at the next one, unless the new
      content collides with the old. */
  lemma RewriteIsLocated(h: Hash, es: seq<Entry>, k: nat, forged: Entry, v: Verdict)
    requires Chained(h, es) && k < |es| - 1
    requires forged.body.sequence == es[k].body.sequence
    requires forged.body != es[k].body || forged.eventHash != es[k].eventHash
    requires Judges(h, Sorting.Sort(Earlier, es[k := forged]), v)
    ensures (v.Invalid? && (v.checked == k || v.checked == k + 1))
            || (forged.body != es[k].body && h(forged.body) == h(es[k].body))
  {
    var forgery := es[k := forged];
    assert LinkedAt(h, es, k) && LinkedAt(h, es, k + 1);
    ChainIncreases(h, es);
    IncreasingIsSorted(forgery);
    FailurePosition(h, forgery, v);
    forall i | 0 <= i < k ensures LinkedAt(h, forgery, i) {
      assert LinkedAt(h, es, i);
    }
    if v.Valid? || v.checked > k + 1 {
      assert LinkedAt(h, forgery, k) && LinkedAt(h, forgery, k + 1);
    }
  }

  function Without(es: seq<Entry>, k: nat): (cut: seq<Entry>)
    requires k < |es|
    ensures |cut| == |es| - 1
    ensures forall i :: 0 <= i < |cut| ==> cut[i] == es[if i < k then i else i + 1]
  {
    es[..k] + es[k + 1..]
  }

  lemma FirstGap(h: Hash, es: seq<Entry>, k: nat)
    requires Chained(h, es) && k < |es| - 1
    ensures forall i :: 0 <= i < k ==> LinkedAt(h, Without(es, k), i)
    ensures FailureAt(h, Without(es, k), k) == Some(Invalid(k, k + 1, SequenceGap, None, None))
  {
    var cut := Without(es, k);
    forall i | 0 <= i < k ensures LinkedAt(h, cut, i) {
      assert LinkedAt(h, es, i);
    }
    assert LinkedAt(h, es, k + 1);
    assert cut[k] == es[k + 1];
  }

  lemma CutIsSorted(h: Hash, es: seq<Entry>, k: nat)
    requires Chained(h, es) && k < |es| - 1
    ensures Sorting.Sort(Earlier, Without(es, k)) == Without(es, k)
  {
    ChainIncreases(h, es);
    IncreasingIsSorted(Without(es, k));
  }

  /** Deleting a non-last event leaves a sequence gap exactly there. */
  lemma DeletionIsLocated(h: Hash, es: seq<Entry>, k: nat, v: Verdict)
    requires Chained(h, es) && k < |es| - 1
    requires Judges(h, Sorting.Sort(Earlier, es[..k] + es[k + 1..]), v)
    ensures v == Invalid(k, k + 1, SequenceGap, None, None)
  {
    var cut := Without(es, k);
    CutIsSorted(h, es, k);
    FirstGap(h, es, k);
    FailureMeansUnlinked(h, cut, k);
    FailurePosition(h, cut, v);
  }

  // ---- What is reported and what is recorded, said outright --------------------------------------

  /** Sixty-four lower-case hexadecimal digits. */
  predicate HexOf64(s: string) { |s| == 64 && forall i :: 0 <= i < 64 ==> s[i] in "0123456789abcdef" }

  /** Sixty-four zeros. */
  predicate Genesis(s: string) { |s| == 64 && forall i :: 0 <= i < 64 ==> s[i] == '0' }

  predicate Misshapen(e: Entry) {
    || e.body.sequence < 0 || !HexOf64(e.body.previousHash) || !HexOf64(e.eventHash) || !e.body.payload.JObject?
    || e.body.tag == Unknown("") || |e.body.actor| == 0 || e.body.createdAt.None?
  }

  lemma ShapeTable(e: Entry)
    ensures WellShaped(e) <==> !Misshapen(e)
  {
    forall s: string ensures HashShaped(s) <==> HexOf64(s) { HexTable(s); }
  }

  lemma HexTable(s: string)
    ensures HashShaped(s) <==> HexOf64(s)
  {
    forall c: char ensures HexDigit(c) <==> c in "0123456789abcdef" { DigitTable(c); }
  }

  lemma DigitTable(c: char)
    ensures HexDigit(c) <==> c in "0123456789abcdef"
  {
    var all := "0123456789abcdef";
    if HexDigit(c) {
      var i := if c <= '9' then c as int - '0' as int else c as int - 'a' as int + 10;
      assert all[i] == c;
    }
  }

  lemma GenesisTable(s: string)
    ensures Genesis(s) <==> s == GENESIS_HASH
  {
  }

  /** A failed verification names the first bad row by its own sequence, counts the good ones before it, and says
      which check failed and what it compared: shape first, then place, then link, then content. */
  lemma ReportTable(h: Hash, es: seq<Entry>, v: Verdict)
    requires Judges(h, es, v) && v.Invalid?
    ensures v.checked < |es|
    ensures var k, e := v.checked, es[v.checked];
            && v.sequence == e.body.sequence
            && (v.code == EventMalformed <==> Misshapen(e))
            && (v.code == SequenceGap <==> !Misshapen(e) && e.body.sequence != k)
            && (v.code == GenesisInvalid <==> !Misshapen(e) && e.body.sequence == k == 0 && !Genesis(e.body.previousHash))
            && (v.code == PreviousHashMismatch <==>
                  !Misshapen(e) && e.body.sequence == k && k > 0 && e.body.previousHash != es[k - 1].eventHash)
            && (v.code == EventMalformed || v.code == SequenceGap ==> v.expected == None && v.actual == None)
            && (v.code == GenesisInvalid ==> v.expected.Some? && Genesis(v.expected.value) && v.actual == Some(e.body.previousHash))
            && (v.code == PreviousHashMismatch ==> k > 0 && v.expected == Some(es[k - 1].eventHash) && v.actual == Some(e.body.previousHash))
            && (v.code == EventHashMismatch ==>
                  h(e.body) != e.eventHash && v.expected == Some(h(e.body)) && v.actual == Some(e.eventHash))
  {
    hide WellShaped, Misshapen, Genesis, Chained;
    ShapeTable(es[v.checked]);
    GenesisTable(es[v.checked].body.previousHash);
    GenesisTable(GENESIS_HASH);
  }

  /** The row at `i` holds what the request asked to record, in its place in the chain. */
  predicate Records(h: Hash, missionId: string, es: seq<Entry>, i: nat, r: NewEvent)
    requires i < |es|
  {
    var e := es[i];
    && e.eventId == r.eventId && e.eventHash == h(e.body) && e.body.missionId == missionId && e.body.sequence == i
    && e.body.tag == Known(r.event) && e.body.actor == r.actor && e.body.payload == JObject(r.payload) && e.body.createdAt == Some(r.now)
    && (if i == 0 then Genesis(e.body.previousHash) else e.body.previousHash == es[i - 1].eventHash)
  }

  /** What a built chain records of each request. */
  lemma {:induction false} BuildRecords(h: Hash, missionId: string, rs: seq<NewEvent>)
    ensures |Build(h, missionId, rs)| == |rs|
    ensures forall i :: 0 <= i < |rs| ==> Records(h, missionId, Build(h, missionId, rs), i, rs[i])
  {
    if rs != [] {
      var n := |rs| - 1;
      var before, es := Build(h, missionId, rs[..n]), Build(h, missionId, rs);
      BuildRecords(h, missionId, rs[..n]);
      forall i | 0 <= i < |rs| ensures Records(h, missionId, es, i, rs[i]) {
        if i < n {
          assert Records(h, missionId, before, i, rs[..n][i]);
        } else {
          if n > 0 { assert Records(h, missionId, before, n - 1, rs[..n][n - 1]); }
          GenesisTable(GENESIS_HASH);
        }
      }
    }
  }
}
