/** The canonical form itself: the order of the names, the escapes, and what the signed and hashed messages look
    like byte by byte. */
module CanonicalForm {
  import opened Vocabulary
  import opened Canonical
  import opened CanonicalProofs
  import opened Commitments
  import Requests
  import Sorting

  // ---- Names in order --------------------------------------------------------------------------

  predicate Smaller(a: Code, b: Code) { a < b }

  ghost predicate Before(a: Str, b: Str) { Sorting.Before(Smaller, a, b) }

  lemma {:induction false} StrLeIff(a: Str, b: Str)
    ensures StrLe(a, b) <==> a == b || Before(a, b)
  {
    if a != [] && b != [] {
      if a[0] == b[0] {
        StrLeIff(a[1..], b[1..]);
        Sorting.BeforeTail(Smaller, a, b);
        assert a == [a[0]] + a[1..] && b == [b[0]] + b[1..];
      } else {
        Sorting.BeforeHead(Smaller, a, b);
      }
    }
  }

  /** A canonical object holds the mapping's fields, each once, and its names ascend by code point. */
  lemma NamesAscend(fs: Fields)
    requires DistinctNames(fs)
    ensures multiset(Ordered(fs)) == multiset(fs)
    ensures forall i, j :: 0 <= i < j < |Ordered(fs)| ==> Before(Ordered(fs)[i].name, Ordered(fs)[j].name)
  {
    hide Before;
    var sorted := Ordered(fs);
    FieldLeIsTotal();
    Sorting.SortSorts(FieldLe, fs);
    Sorting.SortPermutes(FieldLe, fs);
    forall i, j | 0 <= i < j < |sorted| ensures Before(sorted[i].name, sorted[j].name) {
      StrLeIff(sorted[i].name, sorted[j].name);
      DistinctSurvives(fs, sorted, i, j);
    }
  }

  lemma DistinctSurvives(fs: Fields, sorted: Fields, i: nat, j: nat)
    requires DistinctNames(fs) && multiset(sorted) == multiset(fs) && i < j < |sorted|
    ensures sorted[i].name != sorted[j].name
  {
    Sorting.SameMembers(sorted, fs);
    assert sorted[i] in fs && sorted[j] in fs;
    if sorted[i] == sorted[j] {
      TwiceInSorted(sorted, i, j);
      var k :| 0 <= k < |fs| && fs[k] == sorted[i];
      OnceInDistinct(fs, k);
    } else {
      var k :| 0 <= k < |fs| && fs[k] == sorted[i];
      var l :| 0 <= l < |fs| && fs[l] == sorted[j];
    }
  }

  lemma TwiceInSorted(sorted: Fields, i: nat, j: nat)
    requires i < j < |sorted| && sorted[i] == sorted[j]
    ensures multiset(sorted)[sorted[i]] >= 2
  {
    assert sorted == sorted[..j] + sorted[j..];
    assert sorted[i] == sorted[..j][i] && sorted[j] == sorted[j..][0];
    assert sorted[i] in multiset(sorted[..j]) && sorted[j] in multiset(sorted[j..]);
  }

  lemma OnceInDistinct(fs: Fields, k: nat)
    requires DistinctNames(fs) && k < |fs|
    ensures multiset(fs)[fs[k]] == 1
  {
    assert fs == fs[..k] + [fs[k]] + fs[k + 1..];
    assert fs[k] !in fs[..k];
    assert fs[k] !in fs[k + 1..];
  }

  /** The only list of these fields whose names ascend is the one printed. */
  lemma AscendingIsOrdered(fs: Fields, listed: Fields)
    requires multiset(listed) == multiset(fs)
    requires forall i, j :: 0 <= i < j < |listed| ==> Before(listed[i].name, listed[j].name)
    ensures Ordered(fs) == listed
  {
    hide Before;
    FieldLeIsTotal();
    Sorting.SortSorts(FieldLe, fs);
    Sorting.SortPermutes(FieldLe, fs);
    forall i, j | 0 <= i < j < |listed| ensures FieldLe(listed[i], listed[j]) && !FieldLe(listed[j], listed[i]) {
      StrLeIff(listed[i].name, listed[j].name);
      NotBack(listed[i].name, listed[j].name);
    }
    Sorting.SortedUnique(FieldLe, listed, Ordered(fs));
  }

  lemma NotBack(a: Str, b: Str)
    requires Before(a, b)
    ensures !StrLe(b, a)
  {
    StrLeIff(a, b);
    StrLeTotal(a, b);
  }

  // ---- Escapes ---------------------------------------------------------------------------------

  const HEX := "0123456789abcdef"

  /** A backslash, a `u`, and the unit's four lower-case hexadecimal digits. */
  predicate SpeltOut(b: Bytes, u: Unit) {
    |b| == 6 && b[0] == '\\' as int && b[1] == 'u' as int && b[2] == HEX[u / 4096] as int && b[3] == HEX[u / 256 % 16] as int
    && b[4] == HEX[u / 16 % 16] as int && b[5] == HEX[u % 16] as int
  }

  /** How a code point is written: seven have a letter, printable ASCII stands for itself, the rest of the basic
      plane is spelt out, and what lies beyond it is spelt out as its two halves. */
  lemma EscapeTable(c: Code)
    ensures c in {0x22, 0x5C} ==> EscapeCode(c) == ['\\' as int, c]
    ensures c == 0x08 ==> EscapeCode(c) == ['\\' as int, 'b' as int]
    ensures c == 0x09 ==> EscapeCode(c) == ['\\' as int, 't' as int]
    ensures c == 0x0A ==> EscapeCode(c) == ['\\' as int, 'n' as int]
    ensures c == 0x0C ==> EscapeCode(c) == ['\\' as int, 'f' as int]
    ensures c == 0x0D ==> EscapeCode(c) == ['\\' as int, 'r' as int]
    ensures 0x20 <= c <= 0x7E && c !in {0x22, 0x5C} ==> EscapeCode(c) == [c]
    ensures c < 0x10000 && !(0x20 <= c <= 0x7E) && c !in {0x08, 0x09, 0x0A, 0x0C, 0x0D} ==> SpeltOut(EscapeCode(c), c)
    ensures c >= 0x10000 ==>
              exists high: Unit, low: Unit :: 0xD800 <= high < 0xDC00 <= low < 0xE000 && c == 0x10000 + (high - 0xD800) * 0x400 + (low - 0xDC00)
                && |EscapeCode(c)| == 12 && SpeltOut(EscapeCode(c)[..6], high) && SpeltOut(EscapeCode(c)[6..], low)
  {
    if c >= 0x10000 { PairTable(c); } else { HexTable(c); }
  }

  lemma PairTable(c: Code)
    requires c >= 0x10000
    ensures exists high: Unit, low: Unit :: 0xD800 <= high < 0xDC00 <= low < 0xE000 && c == 0x10000 + (high - 0xD800) * 0x400 + (low - 0xDC00)
              && |EscapeCode(c)| == 12 && SpeltOut(EscapeCode(c)[..6], high) && SpeltOut(EscapeCode(c)[6..], low)
  {
    var high, low := Halves(c);
    UnitTable(high);
    UnitTable(low);
    var x, y := EscapeUnit(high), EscapeUnit(low);
    hide EscapeUnit, SpeltOut;
    assert EscapeCode(c) == x + y;
    assert (x + y)[..6] == x && (x + y)[6..] == y;
  }

  lemma Halves(c: Code) returns (high: Unit, low: Unit)
    requires c >= 0x10000
    ensures 0xD800 <= high < 0xDC00 <= low < 0xE000 && c == 0x10000 + (high - 0xD800) * 0x400 + (low - 0xDC00)
    ensures EscapeCode(c) == EscapeUnit(high) + EscapeUnit(low)
  {
    high, low := 0xD800 + (c - 0x10000) / 0x400, 0xDC00 + (c - 0x10000) % 0x400;
  }

  lemma UnitTable(u: Unit)
    requires u >= 0x7F
    ensures |EscapeUnit(u)| == 6 && SpeltOut(EscapeUnit(u), u)
  {
    HexTable(u);
  }

  lemma HexTable(u: Unit)
    ensures SpeltOut([BACKSLASH, 0x75] + Hex4(u), u)
  {
    DigitTable(u / 4096);
    DigitTable(u / 256 % 16);
    DigitTable(u / 16 % 16);
    DigitTable(u % 16);
  }

  lemma DigitTable(d: int)
    requires 0 <= d < 16
    ensures HexDigit(d) == HEX[d] as int
  {
  }

  // ---- What is hashed and signed ---------------------------------------------------------------

  /** Names told apart by their first two letters. */
  lemma HeadsDecide(a: Str, b: Str)
    requires |a| >= 2 && |b| >= 2 && (a[0] < b[0] || (a[0] == b[0] && a[1] < b[1]))
    ensures Before(a, b)
  {
    if a[0] < b[0] {
      assert Sorting.FirstSmaller(Smaller, a, b, 0);
    } else {
      assert a[..1] == [a[0]] && b[..1] == [b[0]];
      assert Sorting.FirstSmaller(Smaller, a, b, 1);
    }
  }

  function Entry(name: string, v: Value): Field { Field(Text(name), v) }

  /** Each name precedes the next by its first two letters. */
  ghost predicate Alphabetical(fs: Fields) {
    && (forall i :: 0 <= i < |fs| ==> |fs[i].name| >= 2)
    && (forall i :: 0 <= i < |fs| - 1 ==>
          fs[i].name[0] < fs[i + 1].name[0] || (fs[i].name[0] == fs[i + 1].name[0] && fs[i].name[1] < fs[i + 1].name[1]))
  }

  lemma {:induction false} AlphabeticalAscends(fs: Fields, i: nat, j: nat)
    requires Alphabetical(fs) && i < j < |fs|
    ensures fs[i].name[0] < fs[j].name[0] || (fs[i].name[0] == fs[j].name[0] && fs[i].name[1] < fs[j].name[1])
    decreases j
  {
    if i < j - 1 { AlphabeticalAscends(fs, i, j - 1); }
  }

  /** Domain, the separator byte, and the object printed in this order. */
  ghost predicate Laid(m: Result<Bytes>, domain: string, listed: Fields) {
    && AllSupported(listed) && m.Ok?
    && |m.value| == |domain| + 1 + |Object(listed)| && m.value[|domain|] == 0x1F && m.value[|domain| + 1..] == Object(listed)
    && forall i :: 0 <= i < |domain| ==> m.value[i] == domain[i] as int
  }

  lemma LaidOut(domain: string, fs: Fields, listed: Fields)
    requires domain != "" && (forall i :: 0 <= i < |domain| ==> domain[i] < '\U{80}') && AllSupported(fs)
    requires multiset(listed) == multiset(fs) && Alphabetical(listed)
    ensures Laid(Message(Text(domain), fs), domain, listed)
  {
    forall i, j | 0 <= i < j < |listed| ensures Before(listed[i].name, listed[j].name) {
      AlphabeticalAscends(listed, i, j);
      HeadsDecide(listed[i].name, listed[j].name);
    }
    AscendingIsOrdered(fs, listed);
    OrderedSupported(fs);
    LiteralDomain(domain, fs);
  }

  /** As many fields, all of them found in the other list, and all named differently. */
  lemma Rearranged(fs: Fields, listed: Fields)
    requires Alphabetical(listed) && |listed| == |fs| && forall i :: 0 <= i < |listed| ==> listed[i] in fs
    ensures multiset(listed) == multiset(fs)
  {
    forall i, j | 0 <= i < j < |listed| ensures listed[i].name != listed[j].name { AlphabeticalAscends(listed, i, j); }
    forall f ensures multiset(listed)[f] <= multiset(fs)[f] {
      if f in listed {
        var k :| 0 <= k < |listed| && listed[k] == f;
        OnceInDistinct(listed, k);
      }
    }
    var rest := multiset(fs) - multiset(listed);
    assert multiset(fs) == multiset(listed) + rest;
    assert |rest| == 0;
  }

  lemma Letters(name: string, v: Value)
    requires |name| >= 2
    ensures |Entry(name, v).name| == |name| && Entry(name, v).name[0] == name[0] as int && Entry(name, v).name[1] == name[1] as int
    ensures Entry(name, v).value == v
  {
  }

  /** The preimage of a transaction digest. */
  function TransactionListed(t: Transaction): Fields {
    [Entry("amount_inr", VInt(t.amount)), Entry("currency", VStr(t.currency)), Entry("expires_at", VTime(t.expiresAt)),
     Entry("merchant_id", VStr(t.merchant)), Entry("nonce", VStr(t.nonce)), Entry("offer_version", VStr(t.offerVersion)),
     Entry("policy_version", VStr(t.policyVersion)), Entry("product_id", VStr(t.product)), Entry("quantity", VInt(t.quantity))]
  }

  lemma TransactionAlphabetical(t: Transaction)
    ensures Alphabetical(TransactionListed(t))
  {
    hide Text, Entry;
    Letters("amount_inr", VInt(t.amount)); Letters("currency", VStr(t.currency)); Letters("expires_at", VTime(t.expiresAt));
    Letters("merchant_id", VStr(t.merchant)); Letters("nonce", VStr(t.nonce)); Letters("offer_version", VStr(t.offerVersion));
    Letters("policy_version", VStr(t.policyVersion)); Letters("product_id", VStr(t.product)); Letters("quantity", VInt(t.quantity));
  }

  lemma TransactionPlaces(t: Transaction)
    ensures |TransactionListed(t)| == |TransactionFields(t)| && AllSupported(TransactionFields(t))
    ensures forall i :: 0 <= i < |TransactionListed(t)| ==> TransactionListed(t)[i] in TransactionFields(t)
  {
    hide Text;
    var fs, listed := TransactionFields(t), TransactionListed(t);
    assert listed[0] == fs[3] && listed[1] == fs[4] && listed[2] == fs[7] && listed[3] == fs[0] && listed[4] == fs[8];
    assert listed[5] == fs[6] && listed[6] == fs[5] && listed[7] == fs[1] && listed[8] == fs[2];
  }

  lemma TransactionPermutes(t: Transaction)
    ensures multiset(TransactionListed(t)) == multiset(TransactionFields(t)) && AllSupported(TransactionFields(t))
  {
    hide Text, Alphabetical, AllSupported, TransactionListed, TransactionFields;
    TransactionAlphabetical(t);
    TransactionPlaces(t);
    Rearranged(TransactionFields(t), TransactionListed(t));
  }

  lemma TransactionLayout(t: Transaction)
    ensures Laid(TransactionMessage(t), "pactra-txn-bind-v1", TransactionListed(t))
  {
    hide Message, Text, Laid, TransactionListed, TransactionFields, Alphabetical, AllSupported;
    TransactionAlphabetical(t);
    TransactionPermutes(t);
    LaidOut(BINDING_VERSION, TransactionFields(t), TransactionListed(t));
  }

  /** The message an approver signs. */
  function ApprovalListed(a: Approval): Fields {
    [Entry("authorization_id", VStr(a.authorizationId)), Entry("binding_version", VStr(a.bindingVersion)),
     Entry("mission_id", VStr(a.missionId)), Entry("signing_key_id", VStr(a.signingKeyId)), Entry("transaction_digest", VStr(a.digest))]
  }

  lemma ApprovalAlphabetical(a: Approval)
    ensures Alphabetical(ApprovalListed(a))
  {
    hide Text, Entry;
    Letters("authorization_id", VStr(a.authorizationId)); Letters("binding_version", VStr(a.bindingVersion));
    Letters("mission_id", VStr(a.missionId)); Letters("signing_key_id", VStr(a.signingKeyId)); Letters("transaction_digest", VStr(a.digest));
  }

  lemma ApprovalPlaces(a: Approval)
    ensures |ApprovalListed(a)| == |ApprovalFields(a)| && AllSupported(ApprovalFields(a))
    ensures forall i :: 0 <= i < |ApprovalListed(a)| ==> ApprovalListed(a)[i] in ApprovalFields(a)
  {
    hide Text;
    var fs, listed := ApprovalFields(a), ApprovalListed(a);
    assert listed[0] == fs[0] && listed[1] == fs[2] && listed[2] == fs[1] && listed[3] == fs[4] && listed[4] == fs[3];
  }

  lemma ApprovalPermutes(a: Approval)
    ensures multiset(ApprovalListed(a)) == multiset(ApprovalFields(a)) && AllSupported(ApprovalFields(a))
  {
    hide Text, Alphabetical, AllSupported, ApprovalListed, ApprovalFields;
    ApprovalAlphabetical(a);
    ApprovalPlaces(a);
    Rearranged(ApprovalFields(a), ApprovalListed(a));
  }

  lemma ApprovalLayout(a: Approval)
    ensures ApprovalMessage(a).Signable? ==> Laid(Ok(ApprovalMessage(a).message), "pactra-user-approval-v1", ApprovalListed(a))
  {
    hide Message, Text, Laid, ApprovalListed, ApprovalFields, Alphabetical, AllSupported;
    ApprovalAlphabetical(a);
    ApprovalPermutes(a);
    LaidOut(APPROVAL_DOMAIN, ApprovalFields(a), ApprovalListed(a));
  }

  /** The preimage of a request fingerprint. */
  function RequestListed(name: Naming, id: Requests.Identity): Fields {
    [Entry("amount_inr", VInt(id.terms.amount)), Entry("authorization_id", VStr(Text(name(id.auth)))),
     Entry("currency", VStr(Text(id.terms.currency))), Entry("merchant_id", VStr(Text(id.terms.merchant))),
     Entry("mission_id", VStr(Text(name(id.mission)))), Entry("provider", VStr(Text(id.provider))),
     Entry("transaction_digest", VStr(Text(id.terms.digest)))]
  }

  lemma RequestAlphabetical(name: Naming, id: Requests.Identity)
    ensures Alphabetical(RequestListed(name, id))
  {
    hide Text;
    var fs := RequestListed(name, id);
    Letters("amount_inr", fs[0].value); Letters("authorization_id", fs[1].value); Letters("currency", fs[2].value);
    Letters("merchant_id", fs[3].value); Letters("mission_id", fs[4].value); Letters("provider", fs[5].value);
    Letters("transaction_digest", fs[6].value);
  }

  lemma RequestPlaces(name: Naming, id: Requests.Identity)
    ensures |RequestListed(name, id)| == |RequestFields(name, id)| && AllSupported(RequestFields(name, id))
    ensures forall i :: 0 <= i < |RequestListed(name, id)| ==> RequestListed(name, id)[i] in RequestFields(name, id)
  {
    hide Text;
    var fs, listed := RequestFields(name, id), RequestListed(name, id);
    assert listed[0] == fs[3] && listed[1] == fs[1] && listed[2] == fs[4] && listed[3] == fs[5] && listed[4] == fs[0];
    assert listed[5] == fs[6] && listed[6] == fs[2];
  }

  lemma RequestPermutes(name: Naming, id: Requests.Identity)
    ensures multiset(RequestListed(name, id)) == multiset(RequestFields(name, id)) && AllSupported(RequestFields(name, id))
  {
    hide Text, Alphabetical, AllSupported, RequestListed, RequestFields;
    RequestAlphabetical(name, id);
    RequestPlaces(name, id);
    Rearranged(RequestFields(name, id), RequestListed(name, id));
  }

  lemma RequestLayout(name: Naming, id: Requests.Identity)
    ensures Laid(RequestMessage(name, id), "pactra-payment-request-v1", RequestListed(name, id))
  {
    hide Message, Text, Laid, RequestListed, RequestFields, Alphabetical, AllSupported;
    RequestAlphabetical(name, id);
    RequestPermutes(name, id);
    LaidOut(FINGERPRINT_DOMAIN, RequestFields(name, id), RequestListed(name, id));
  }

  // ---- The punctuation -------------------------------------------------------------------------

  /** ASCII text as bytes. */
  function Chars(s: string): (b: Bytes)
    requires forall i :: 0 <= i < |s| ==> s[i] < '\U{80}'
    ensures |b| == |s| && forall i :: 0 <= i < |s| ==> b[i] == s[i] as int
  {
    seq(|s|, i requires 0 <= i < |s| && s[i] < '\U{80}' => s[i] as int)
  }

  /** A value behind its tag: strings and timestamps escaped between quotes, integers in decimal, the three
      literals as JSON has them. */
  lemma TaggedTable(v: Value)
    requires Supported(v)
    ensures v.VStr? ==> Tagged(v) == Chars("[\"s\",\"") + Escape(v.s) + Chars("\"]")
    ensures v.VInt? ==> Tagged(v) == Chars("[\"i\",") + Decimal(v.n) + Chars("]")
    ensures v == VBool(true) ==> Tagged(v) == Chars("[\"b\",true]")
    ensures v == VBool(false) ==> Tagged(v) == Chars("[\"b\",false]")
    ensures v.VTime? ==> Tagged(v) == Chars("[\"t\",\"") + Escape(Stamp(v.t)) + Chars("\"]")
    ensures v.VNull? ==> Tagged(v) == Chars("[\"n\",null]")
  {
    hide Escape, Decimal, Stamp;
  }

  /** A `"name":value` member. */
  lemma MemberTable(f: Field)
    requires Supported(f.value)
    ensures Member(f) == Chars("\"") + Escape(f.name) + Chars("\":") + Tagged(f.value)
  {
    hide Escape, Tagged;
    assert Chars("\"") == [QUOTE] && Chars("\":") == [QUOTE, COLON];
  }

  /** Members between commas and braces, no white space. */
  lemma ObjectTable(fs: Fields)
    requires AllSupported(fs)
    ensures Object(fs) == Chars("{") + Members(fs) + Chars("}")
    ensures fs == [] ==> Members(fs) == []
    ensures |fs| == 1 ==> Members(fs) == Member(fs[0])
    ensures |fs| > 1 ==> Members(fs) == Member(fs[0]) + Chars(",") + Members(fs[1..])
  {
    hide Member;
    assert Chars("{") == [OPEN_OBJECT] && Chars("}") == [CLOSE_OBJECT] && Chars(",") == [COMMA];
  }

  /** A text is escaped code point by code point. */
  lemma {:induction false} EscapeJoins(a: Str, b: Str)
    ensures Escape(a + b) == Escape(a) + Escape(b)
  {
    hide EscapeCode;
    if a == [] {
      assert a + b == b;
    } else {
      EscapeJoins(a[1..], b);
      assert (a + b)[1..] == a[1..] + b;
      var x, y, z := EscapeCode(a[0]), Escape(a[1..]), Escape(b);
      assert Escape(a + b) == x + (y + z) == (x + y) + z;
    }
  }

  /** Decimal without leading zeros; a sign for negatives only. */
  lemma {:induction false} DecimalTable(n: nat)
    ensures n > 0 ==> Digits(n)[0] != '0' as int
    ensures n < 10 ==> Digits(n) == ['0' as int + n]
    ensures forall i :: 0 <= i < |Digits(n)| ==> '0' as int <= Digits(n)[i] <= '9' as int
    ensures n > 0 ==> Decimal(0 - n) == ['-' as int] + Decimal(n)
  {
    if n >= 10 { DecimalTable(n / 10); }
  }

  /** Where the separators of a timestamp stand. */
  lemma StampTable(t: Instant)
    ensures var s := Stamp(t);
            && |s| == 27 && s[4] == s[7] == '-' as int && s[10] == 'T' as int && s[13] == s[16] == ':' as int
            && s[19] == '.' as int && s[26] == 'Z' as int
  {
    hide Padded;
    PaddedReads(t.year, 4);
    PaddedReads(t.month, 2);
    PaddedReads(t.day, 2);
    PaddedReads(t.hour, 2);
    PaddedReads(t.minute, 2);
    PaddedReads(t.second, 2);
    PaddedReads(t.micro, 6);
  }
}
