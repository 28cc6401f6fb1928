/** What rests on the canonical encoder: transaction digests, approval messages and request
    fingerprints each commit to every field they cover. */
module Commitments {
  import opened Vocabulary
  import opened Canonical
  import opened CanonicalProofs
  import Requests
  import Sorting

  /** SHA-256 in hexadecimal, of which nothing is assumed. */
  type Hash = Bytes -> string

  function Text(s: string): (t: Str)
    ensures |t| == |s| && forall i :: 0 <= i < |s| ==> t[i] == s[i] as int
  {
    seq(|s|, i requires 0 <= i < |s| => s[i] as int)
  }

  lemma TextIsPlain(s: string)
    ensures PairFree(Text(s))
  {
  }

  predicate Collision(hash: Hash, a: Bytes, b: Bytes) { a != b && hash(a) == hash(b) }

  // ---- Any fixed list of names -------------------------------------------------------------

  ghost predicate DistinctNames(fs: Fields) {
    forall i, j :: 0 <= i < j < |fs| ==> fs[i].name != fs[j].name
  }

  ghost predicate SameNames(a: Fields, b: Fields) {
    |a| == |b| && forall i :: 0 <= i < |a| ==> a[i].name == b[i].name
  }

  /** Under one list of distinct names, the multiset of fields determines each value. */
  lemma NamesPinValues(a: Fields, b: Fields)
    requires SameNames(a, b) && DistinctNames(a) && multiset(a) == multiset(b)
    ensures a == b
  {
    Sorting.SameMembers(a, b);
    forall i | 0 <= i < |a| ensures a[i] == b[i] {
      assert a[i] in b;
      var j :| 0 <= j < |b| && b[j] == a[i];
      assert a[j].name == a[i].name;
    }
  }

  /** Equal messages over the same distinct names carry equal values. */
  lemma MessageCommits(domain: Str, a: Fields, b: Fields)
    requires SameNames(a, b) && DistinctNames(a) && Unambiguous(a) && Unambiguous(b)
    requires Message(domain, a).Ok? && Message(domain, a) == Message(domain, b)
    ensures a == b
  {
    MessagesAreDistinct(domain, a, domain, b);
    NamesPinValues(a, b);
  }

  // ---- Transactions ------------------------------------------------------------------------

  const BINDING_VERSION := "pactra-txn-bind-v1"

  datatype Transaction = Transaction(
    merchant: Str, product: Str, quantity: int, amount: int, currency: Str,
    policyVersion: Str, offerVersion: Str, expiresAt: Instant, nonce: Str)

  function TransactionFields(t: Transaction): Fields {
    [Field(Text("merchant_id"), VStr(t.merchant)), Field(Text("product_id"), VStr(t.product)),
     Field(Text("quantity"), VInt(t.quantity)), Field(Text("amount_inr"), VInt(t.amount)),
     Field(Text("currency"), VStr(t.currency)), Field(Text("policy_version"), VStr(t.policyVersion)),
     Field(Text("offer_version"), VStr(t.offerVersion)), Field(Text("expires_at"), VTime(t.expiresAt)),
     Field(Text("nonce"), VStr(t.nonce))]
  }

  predicate PlainTransaction(t: Transaction) {
    && PairFree(t.merchant) && PairFree(t.product) && PairFree(t.currency) && PairFree(t.policyVersion)
    && PairFree(t.offerVersion) && PairFree(t.nonce)
  }

  lemma TransactionNames(t: Transaction)
    ensures DistinctNames(TransactionFields(t))
  {
    var fs := TransactionFields(t);
    assert |fs[0].name| == 11 && |fs[1].name| == 10 && |fs[2].name| == 8 && |fs[3].name| == 10 && |fs[4].name| == 8;
    assert |fs[5].name| == 14 && |fs[6].name| == 13 && |fs[7].name| == 10 && |fs[8].name| == 5;
    assert fs[1].name[0] == 'p' as int && fs[3].name[0] == 'a' as int && fs[7].name[0] == 'e' as int;
    assert fs[2].name[0] == 'q' as int && fs[4].name[0] == 'c' as int;
  }

  lemma TransactionPlain(t: Transaction)
    requires PlainTransaction(t)
    ensures Unambiguous(TransactionFields(t))
  {
  }

  lemma LiteralDomain(d: string, fs: Fields)
    requires d != "" && (forall i :: 0 <= i < |d| ==> d[i] < '\U{80}') && AllSupported(fs)
    ensures Message(Text(d), fs).Ok?
  {
    MessageFailsIff(Text(d), fs);
  }

  function TransactionMessage(t: Transaction): Result<Bytes> {
    Message(Text(BINDING_VERSION), TransactionFields(t))
  }

  lemma TransactionEncodes(t: Transaction)
    ensures TransactionMessage(t).Ok?
  {
    LiteralDomain(BINDING_VERSION, TransactionFields(t));
  }

  /** The commitment an authorization carries. */
  function Digest(hash: Hash, t: Transaction): string {
    TransactionEncodes(t);
    hash(TransactionMessage(t).value)
  }

  /** A digest commits to all nine bound fields: change any one of them and the digest changes, or
      the two preimages are a hash collision. */
  lemma DigestCommits(hash: Hash, t: Transaction, u: Transaction)
    requires PlainTransaction(t) && PlainTransaction(u) && Digest(hash, t) == Digest(hash, u)
    ensures t == u || (TransactionMessage(t).Ok? && TransactionMessage(u).Ok? &&
                       Collision(hash, TransactionMessage(t).value, TransactionMessage(u).value))
  {
    hide Message;
    TransactionEncodes(t);
    TransactionEncodes(u);
    if TransactionMessage(t) == TransactionMessage(u) {
      TransactionNames(t);
      TransactionPlain(t);
      TransactionPlain(u);
      MessageCommits(Text(BINDING_VERSION), TransactionFields(t), TransactionFields(u));
      TransactionRecovered(t, u);
    }
  }

  lemma TransactionRecovered(t: Transaction, u: Transaction)
    requires TransactionFields(t) == TransactionFields(u)
    ensures t == u
  {
  }

  // ---- Approval messages -------------------------------------------------------------------

  const APPROVAL_DOMAIN := "pactra-user-approval-v1"

  datatype Approval = Approval(authorizationId: Str, missionId: Str, bindingVersion: Str, digest: Str, signingKeyId: Str)

  datatype ApprovalResult = Signable(message: Bytes) | DigestMalformed | BindingVersionEmpty | SigningKeyEmpty | NotEncodable(error: Error)

  predicate LowerHex(c: int) { 0x30 <= c <= 0x39 || 0x61 <= c <= 0x66 }

  predicate DigestShaped(d: Str) { |d| == 64 && forall i :: 0 <= i < 64 ==> LowerHex(d[i]) }

  function ApprovalFields(a: Approval): Fields {
    [Field(Text("authorization_id"), VStr(a.authorizationId)), Field(Text("mission_id"), VStr(a.missionId)),
     Field(Text("binding_version"), VStr(a.bindingVersion)), Field(Text("transaction_digest"), VStr(a.digest)),
     Field(Text("signing_key_id"), VStr(a.signingKeyId))]
  }

  /** The only bytes an approver may sign. */
  function ApprovalMessage(a: Approval): ApprovalResult {
    if !DigestShaped(a.digest) then DigestMalformed
    else if a.bindingVersion == [] then BindingVersionEmpty
    else if a.signingKeyId == [] then SigningKeyEmpty
    else
      var m := Message(Text(APPROVAL_DOMAIN), ApprovalFields(a));
      if m.Ok? then Signable(m.value) else NotEncodable(m.error)
  }

  predicate PlainApproval(a: Approval) {
    && PairFree(a.authorizationId) && PairFree(a.missionId) && PairFree(a.bindingVersion)
    && PairFree(a.digest) && PairFree(a.signingKeyId)
  }

  lemma ApprovalShape(a: Approval)
    requires PlainApproval(a)
    ensures DistinctNames(ApprovalFields(a)) && Unambiguous(ApprovalFields(a))
  {
  }

  /** A message is built exactly for a well-shaped digest under a named version and key ... */
  lemma ApprovalBuiltIff(a: Approval)
    ensures ApprovalMessage(a).Signable? <==> DigestShaped(a.digest) && a.bindingVersion != [] && a.signingKeyId != []
  {
    LiteralDomain(APPROVAL_DOMAIN, ApprovalFields(a));
  }

  /** ... and one signature covers one approval: equal messages, equal fields, no hash involved. */
  lemma ApprovalCommits(a: Approval, b: Approval)
    requires PlainApproval(a) && PlainApproval(b)
    requires ApprovalMessage(a).Signable? && ApprovalMessage(a) == ApprovalMessage(b)
    ensures a == b
  {
    hide Message;
    ApprovalShape(a);
    ApprovalShape(b);
    MessageCommits(Text(APPROVAL_DOMAIN), ApprovalFields(a), ApprovalFields(b));
    var x, y := ApprovalFields(a), ApprovalFields(b);
    assert x[0].value == y[0].value && x[1].value == y[1].value && x[2].value == y[2].value;
    assert x[3].value == y[3].value && x[4].value == y[4].value;
  }

  // ---- Request fingerprints ----------------------------------------------------------------

  const FINGERPRINT_DOMAIN := "pactra-payment-request-v1"

  /** The text of an identifier. */
  type Naming = int -> string

  function RequestFields(name: Naming, id: Requests.Identity): Fields {
    [Field(Text("mission_id"), VStr(Text(name(id.mission)))), Field(Text("authorization_id"), VStr(Text(name(id.auth)))),
     Field(Text("transaction_digest"), VStr(Text(id.terms.digest))), Field(Text("amount_inr"), VInt(id.terms.amount)),
     Field(Text("currency"), VStr(Text(id.terms.currency))), Field(Text("merchant_id"), VStr(Text(id.terms.merchant))),
     Field(Text("provider"), VStr(Text(id.provider)))]
  }

  function RequestMessage(name: Naming, id: Requests.Identity): Result<Bytes> {
    Message(Text(FINGERPRINT_DOMAIN), RequestFields(name, id))
  }

  lemma RequestEncodes(name: Naming, id: Requests.Identity)
    ensures RequestMessage(name, id).Ok?
  {
    LiteralDomain(FINGERPRINT_DOMAIN, RequestFields(name, id));
  }

  function RequestFingerprint(hash: Hash, name: Naming, id: Requests.Identity): string {
    RequestEncodes(name, id);
    hash(RequestMessage(name, id).value)
  }

  lemma RequestShape(name: Naming, id: Requests.Identity)
    ensures DistinctNames(RequestFields(name, id)) && Unambiguous(RequestFields(name, id))
  {
    var fs := RequestFields(name, id);
    assert |fs[0].name| == 10 && |fs[1].name| == 16 && |fs[2].name| == 18 && |fs[3].name| == 10 && |fs[4].name| == 8;
    assert |fs[5].name| == 11 && |fs[6].name| == 8;
    assert fs[0].name[0] == 'm' as int && fs[3].name[0] == 'a' as int && fs[4].name[0] == 'c' as int && fs[6].name[0] == 'p' as int;
    forall s: string ensures PairFree(Text(s)) {
      TextIsPlain(s);
    }
  }

  lemma RequestRecovered(name: Naming, x: Requests.Identity, y: Requests.Identity)
    requires RequestFields(name, x) == RequestFields(name, y)
    requires forall a, b :: name(a) == name(b) ==> a == b
    ensures x == y
  {
  }

  /** Two requests with one fingerprint are the same request, or their preimages collide. */
  lemma FingerprintCommits(hash: Hash, name: Naming, x: Requests.Identity, y: Requests.Identity)
    requires forall a, b :: name(a) == name(b) ==> a == b
    requires RequestFingerprint(hash, name, x) == RequestFingerprint(hash, name, y)
    ensures x == y || (RequestMessage(name, x).Ok? && RequestMessage(name, y).Ok? &&
                       Collision(hash, RequestMessage(name, x).value, RequestMessage(name, y).value))
  {
    hide Message;
    RequestEncodes(name, x);
    RequestEncodes(name, y);
    if RequestMessage(name, x) == RequestMessage(name, y) {
      RequestShape(name, x);
      RequestShape(name, y);
      MessageCommits(Text(FINGERPRINT_DOMAIN), RequestFields(name, x), RequestFields(name, y));
      RequestRecovered(name, x, y);
    }
  }

  // ---- Across purposes ---------------------------------------------------------------------

  /** No message of one purpose is a message of another. */
  lemma PurposesNeverMeet(t: Transaction, a: Approval, name: Naming, id: Requests.Identity)
    ensures TransactionMessage(t) != RequestMessage(name, id)
    ensures ApprovalMessage(a).Signable? ==>
              TransactionMessage(t) != Ok(ApprovalMessage(a).message) && RequestMessage(name, id) != Ok(ApprovalMessage(a).message)
  {
    hide Message;
    TransactionEncodes(t);
    RequestEncodes(name, id);
    assert |Text(BINDING_VERSION)| == 18 && |Text(FINGERPRINT_DOMAIN)| == 25 && |Text(APPROVAL_DOMAIN)| == 23;
    DomainsSeparate(Text(BINDING_VERSION), TransactionFields(t), Text(FINGERPRINT_DOMAIN), RequestFields(name, id));
    if ApprovalMessage(a).Signable? {
      DomainsSeparate(Text(BINDING_VERSION), TransactionFields(t), Text(APPROVAL_DOMAIN), ApprovalFields(a));
      DomainsSeparate(Text(FINGERPRINT_DOMAIN), RequestFields(name, id), Text(APPROVAL_DOMAIN), ApprovalFields(a));
    }
  }
}
