/** The offer pipeline: normalize every quoted offer against the mission's constraints, rank the
    valid ones, and decide on the best. Ratings, trust scores and thresholds are reals. */
module Policy {
  import opened Vocabulary
  import opened AuditEvents
  import Sorting

  datatype Constraints = Constraints(
    softBudget: int, hardLimit: int, minRating: real, currency: string,
    allowed: Option<set<string>>, blocked: set<string>, minTrust: real)

  /** An offer as the ingress hands it over: identity and trust from the transport, the rest claimed. */
  datatype Candidate = Candidate(
    id: int, merchant: string, trust: real, claimed: string, product: string,
    amount: int, currency: string, rating: real, inStock: bool)

  datatype RawOffer = RawOffer(id: int, claimed: string, product: string, amount: int, currency: string, rating: real, inStock: bool)

  datatype Quote = Quote(merchant: string, trust: real, offers: seq<RawOffer>)

  datatype Code =
    | MerchantIdentityMismatch | CurrencyNotAllowed | OutOfStock | RatingBelowMin | MerchantTrustTooLow
    | MerchantNotAllowed | BlockedMerchant
    | NoValidOffers | HardLimitExceeded | SoftBudgetExceeded | WithinLimits

  function Ingest(q: Quote, raw: RawOffer): Candidate {
    Candidate(raw.id, q.merchant, q.trust, raw.claimed, raw.product, raw.amount, raw.currency, raw.rating, raw.inStock)
  }

  function Checked(reasons: seq<Code>, broken: bool, code: Code): seq<Code> {
    if broken then reasons + [code] else reasons
  }

  /** Every constraint the offer breaks, in the order they are checked. */
  function Rejections(k: Constraints, c: Candidate): seq<Code> {
    var r1 := Checked([], c.claimed != c.merchant, MerchantIdentityMismatch);
    var r2 := Checked(r1, c.currency != k.currency, CurrencyNotAllowed);
    var r3 := Checked(r2, !c.inStock, OutOfStock);
    var r4 := Checked(r3, c.rating < k.minRating, RatingBelowMin);
    var r5 := Checked(r4, c.trust < k.minTrust, MerchantTrustTooLow);
    var r6 := Checked(r5, k.allowed.Some? && c.merchant !in k.allowed.value, MerchantNotAllowed);
    Checked(r6, c.merchant in k.blocked, BlockedMerchant)
  }

  /** What the mission asked for, said positively. */
  predicate Acceptable(k: Constraints, c: Candidate) {
    && c.claimed == c.merchant && c.currency == k.currency && c.inStock
    && c.rating >= k.minRating && c.trust >= k.minTrust
    && (k.allowed.Some? ==> c.merchant in k.allowed.value) && c.merchant !in k.blocked
  }

  lemma RejectionsIff(k: Constraints, c: Candidate)
    ensures Rejections(k, c) == [] <==> Acceptable(k, c)
  {
  }

  function IngestAll(q: Quote, raws: seq<RawOffer>): seq<Candidate> {
    if raws == [] then [] else IngestAll(q, raws[..|raws| - 1]) + [Ingest(q, raws[|raws| - 1])]
  }

  function Candidates(quotes: seq<Quote>): seq<Candidate> {
    if quotes == [] then []
    else Candidates(quotes[..|quotes| - 1]) + IngestAll(quotes[|quotes| - 1], quotes[|quotes| - 1].offers)
  }

  function Valid(k: Constraints, cs: seq<Candidate>): seq<Candidate> {
    if cs == [] then []
    else Valid(k, cs[..|cs| - 1]) + (if Rejections(k, cs[|cs| - 1]) == [] then [cs[|cs| - 1]] else [])
  }

  // ---- Ranking -----------------------------------------------------------------------------

  predicate TextLe(a: string, b: string) {
    a == "" || (b != "" && (if a[0] != b[0] then a[0] < b[0] else TextLe(a[1..], b[1..])))
  }

  /** Higher rating, then lower price, then higher trust, then merchant and product. */
  predicate KeyLe(a: Candidate, b: Candidate) {
    if a.rating != b.rating then a.rating > b.rating
    else if a.amount != b.amount then a.amount < b.amount
    else if a.trust != b.trust then a.trust > b.trust
    else if a.merchant != b.merchant then TextLe(a.merchant, b.merchant)
    else TextLe(a.product, b.product)
  }

  function Ranked(k: Constraints, cs: seq<Candidate>): seq<Candidate> { Sorting.Sort(KeyLe, Valid(k, cs)) }

  function Best(k: Constraints, cs: seq<Candidate>): Option<Candidate> {
    if Ranked(k, cs) == [] then None else Some(Ranked(k, cs)[0])
  }

  // ---- Decision ----------------------------------------------------------------------------

  datatype PolicyDecision = PolicyDecision(
    outcome: PolicyOutcome, reasons: seq<Code>, amount: Option<int>, selected: Option<int>)

  function Evaluate(k: Constraints, best: Option<Candidate>, quantity: int): PolicyDecision {
    if best.None? then PolicyDecision(Deny, [NoValidOffers], None, None)
    else
      var amount := best.value.amount * quantity;
      if amount > k.hardLimit then PolicyDecision(Deny, [HardLimitExceeded], Some(amount), Some(best.value.id))
      else if amount > k.softBudget then PolicyDecision(RequireApproval, [SoftBudgetExceeded], Some(amount), Some(best.value.id))
      else PolicyDecision(Allow, [WithinLimits], Some(amount), Some(best.value.id))
  }

  function Decide(k: Constraints, quotes: seq<Quote>, quantity: int): PolicyDecision {
    Evaluate(k, Best(k, Candidates(quotes)), quantity)
  }

  // ---- The ranking key is a total order on what it reads -------------------------------------

  lemma {:induction false} TextLeTotal(a: string, b: string)
    ensures TextLe(a, b) || TextLe(b, a)
    ensures TextLe(a, b) && TextLe(b, a) ==> a == b
  {
    if a != "" && b != "" && a[0] == b[0] {
      TextLeTotal(a[1..], b[1..]);
      assert a == [a[0]] + a[1..] && b == [b[0]] + b[1..];
    }
  }

  lemma {:induction false} TextLeTransitive(a: string, b: string, c: string)
    requires TextLe(a, b) && TextLe(b, c)
    ensures TextLe(a, c)
  {
    if a != "" && a[0] == b[0] == c[0] {
      TextLeTransitive(a[1..], b[1..], c[1..]);
    }
  }

  lemma KeyLeTransitive(x: Candidate, y: Candidate, z: Candidate)
    requires KeyLe(x, y) && KeyLe(y, z)
    ensures KeyLe(x, z)
  {
    if x.merchant == y.merchant == z.merchant {
      if TextLe(x.product, y.product) && TextLe(y.product, z.product) { TextLeTransitive(x.product, y.product, z.product); }
    } else if TextLe(x.merchant, y.merchant) && TextLe(y.merchant, z.merchant) {
      TextLeTransitive(x.merchant, y.merchant, z.merchant);
      TextLeTotal(x.merchant, y.merchant);
      TextLeTotal(y.merchant, z.merchant);
    }
  }

  lemma KeyLeIsTotal()
    ensures Sorting.TotalPreorder(KeyLe)
  {
    forall x, y ensures KeyLe(x, y) || KeyLe(y, x) {
      TextLeTotal(x.merchant, y.merchant);
      TextLeTotal(x.product, y.product);
    }
    forall x, y, z | KeyLe(x, y) && KeyLe(y, z) ensures KeyLe(x, z) {
      KeyLeTransitive(x, y, z);
    }
  }

  /** The tie that ranking cannot break leaves the decision the same. */
  predicate SameKey(a: Candidate, b: Candidate) {
    a.rating == b.rating && a.amount == b.amount && a.trust == b.trust && a.merchant == b.merchant && a.product == b.product
  }

  lemma TiesAgree(a: Candidate, b: Candidate)
    requires KeyLe(a, b) && KeyLe(b, a)
    ensures SameKey(a, b)
  {
    TextLeTotal(a.merchant, b.merchant);
    TextLeTotal(a.product, b.product);
  }

  // ---- Valid offers ------------------------------------------------------------------------

  lemma {:induction false} ValidMembers(k: Constraints, cs: seq<Candidate>, c: Candidate)
    ensures c in Valid(k, cs) <==> c in cs && Acceptable(k, c)
  {
    if cs != [] {
      var last := cs[|cs| - 1];
      ValidMembers(k, cs[..|cs| - 1], c);
      RejectionsIff(k, last);
      assert cs == cs[..|cs| - 1] + [last];
    }
  }

  /** The best offer is acceptable and no acceptable offer ranks strictly before it. */
  lemma BestIsBest(k: Constraints, cs: seq<Candidate>)
    ensures Best(k, cs).None? <==> forall c :: c in cs ==> !Acceptable(k, c)
    ensures Best(k, cs).Some? ==>
              && Best(k, cs).value in cs && Acceptable(k, Best(k, cs).value)
              && forall c :: c in cs && Acceptable(k, c) ==> KeyLe(Best(k, cs).value, c)
  {
    hide KeyLe, Acceptable;
    var valid, ranked := Valid(k, cs), Ranked(k, cs);
    KeyLeIsTotal();
    Sorting.SortSorts(KeyLe, valid);
    Sorting.SortPermutes(KeyLe, valid);
    Sorting.SameMembers(ranked, valid);
    forall c ensures c in ranked <==> c in cs && Acceptable(k, c) {
      ValidMembers(k, cs, c);
    }
    if ranked != [] {
      assert ranked[0] in ranked;
      forall c | c in ranked ensures KeyLe(ranked[0], c) {
        Sorting.HeadIsLeast(KeyLe, ranked, c);
      }
    }
  }

  // ---- Non-interference --------------------------------------------------------------------

  /** The acceptable offers are the same ones; order and rejected offers may differ. */
  ghost predicate SameAcceptable(k: Constraints, a: seq<Candidate>, b: seq<Candidate>) {
    forall c :: Acceptable(k, c) ==> (c in a <==> c in b)
  }

  lemma SameVerdict(k: Constraints, a: seq<Candidate>, b: seq<Candidate>, quantity: int)
    requires SameAcceptable(k, a, b)
    ensures var x, y := Evaluate(k, Best(k, a), quantity), Evaluate(k, Best(k, b), quantity);
            x.outcome == y.outcome && x.reasons == y.reasons && x.amount == y.amount
    ensures Best(k, a).Some? <==> Best(k, b).Some?
    ensures Best(k, a).Some? ==> SameKey(Best(k, a).value, Best(k, b).value)
  {
    hide Best;
    BestIsBest(k, a);
    BestIsBest(k, b);
    if Best(k, a).Some? && Best(k, b).Some? {
      TiesAgree(Best(k, a).value, Best(k, b).value);
    }
  }

  lemma {:induction false} IngestAllMembers(q: Quote, raws: seq<RawOffer>, c: Candidate)
    ensures c in IngestAll(q, raws) <==> exists r :: r in raws && c == Ingest(q, r)
  {
    if raws != [] {
      var last := raws[|raws| - 1];
      IngestAllMembers(q, raws[..|raws| - 1], c);
      assert raws == raws[..|raws| - 1] + [last];
    }
  }

  lemma {:induction false} CandidatesMembers(quotes: seq<Quote>, c: Candidate)
    ensures c in Candidates(quotes) <==> exists q, r :: q in quotes && r in q.offers && c == Ingest(q, r)
  {
    if quotes != [] {
      var last := quotes[|quotes| - 1];
      CandidatesMembers(quotes[..|quotes| - 1], c);
      IngestAllMembers(last, last.offers, c);
      assert quotes == quotes[..|quotes| - 1] + [last];
    }
  }

  /** Quoted by some merchant in the list: identity and trust are the transport's, the rest is what the
      merchant claims. */
  ghost predicate Quoted(quotes: seq<Quote>, c: Candidate) {
    exists q, r :: q in quotes && r in q.offers && Carries(q, r, c)
  }

  predicate Carries(q: Quote, r: RawOffer, c: Candidate) {
    && c.merchant == q.merchant && c.trust == q.trust && c.claimed == r.claimed && c.id == r.id && c.product == r.product
    && c.amount == r.amount && c.currency == r.currency && c.rating == r.rating && c.inStock == r.inStock
  }

  lemma QuotedIff(quotes: seq<Quote>, c: Candidate)
    ensures c in Candidates(quotes) <==> Quoted(quotes, c)
  {
    CandidatesMembers(quotes, c);
    assert forall q, r :: Carries(q, r, c) <==> c == Ingest(q, r);
  }

  /** Permuting quotes or offers, splitting quotes, repeating them, and adding or dropping rejected
      offers all leave outcome, reasons and amount as they were. */
  lemma DecisionDependsOnAcceptable(k: Constraints, a: seq<Quote>, b: seq<Quote>, quantity: int)
    requires forall c :: Acceptable(k, c) ==> (Quoted(a, c) <==> Quoted(b, c))
    ensures var x, y := Decide(k, a, quantity), Decide(k, b, quantity);
            x.outcome == y.outcome && x.reasons == y.reasons && x.amount == y.amount
  {
    forall c | Acceptable(k, c) ensures c in Candidates(a) <==> c in Candidates(b) {
      QuotedIff(a, c);
      QuotedIff(b, c);
    }
    SameVerdict(k, Candidates(a), Candidates(b), quantity);
  }

  /** In particular the order in which merchants answered does not matter. */
  lemma DecisionForgetsOrder(k: Constraints, a: seq<Quote>, b: seq<Quote>, quantity: int)
    requires multiset(a) == multiset(b)
    ensures var x, y := Decide(k, a, quantity), Decide(k, b, quantity);
            x.outcome == y.outcome && x.reasons == y.reasons && x.amount == y.amount
  {
    Sorting.SameMembers(a, b);
    DecisionDependsOnAcceptable(k, a, b, quantity);
  }

  /** A decision that is not a denial selects an acceptable offer no other acceptable offer beats,
      within the hard limit; it needs no approval exactly within the soft budget. A denial means
      that nothing acceptable was quoted or that the best offer breaks the ceiling. */
  lemma DecisionIsRight(k: Constraints, quotes: seq<Quote>, quantity: int)
    ensures var d := Decide(k, quotes, quantity);
            var best := Best(k, Candidates(quotes));
            && (d.outcome.Deny? <==> best.None? || best.value.amount * quantity > k.hardLimit)
            && (best.None? <==> forall c :: Quoted(quotes, c) ==> !Acceptable(k, c))
            && (!d.outcome.Deny? ==>
                  && Quoted(quotes, best.value) && Acceptable(k, best.value) && d.selected == Some(best.value.id)
                  && (forall c :: Quoted(quotes, c) && Acceptable(k, c) ==> KeyLe(best.value, c))
                  && d.amount == Some(best.value.amount * quantity) && best.value.amount * quantity <= k.hardLimit
                  && (d.outcome.Allow? <==> best.value.amount * quantity <= k.softBudget))
  {
    hide Best;
    BestIsBest(k, Candidates(quotes));
    forall c ensures c in Candidates(quotes) <==> Quoted(quotes, c) {
      QuotedIff(quotes, c);
    }
  }

  // ---- What the ranking prefers, said outright -------------------------------------------------

  predicate Smaller(a: char, b: char) { a < b }

  lemma {:induction false} TextLeIff(a: string, b: string)
    ensures TextLe(a, b) <==> a == b || Sorting.Before(Smaller, a, b)
  {
    if a != "" && b != "" {
      if a[0] == b[0] {
        TextLeIff(a[1..], b[1..]);
        Sorting.BeforeTail(Smaller, a, b);
        assert a == [a[0]] + a[1..] && b == [b[0]] + b[1..];
      } else {
        Sorting.BeforeHead(Smaller, a, b);
      }
    }
  }

  /** A strictly better offer: higher rating; then lower price; then higher trust; then the merchant and at last
      the product that comes first in the order of strings. */
  ghost predicate Preferred(a: Candidate, b: Candidate) {
    || a.rating > b.rating
    || (a.rating == b.rating && a.amount < b.amount)
    || (a.rating == b.rating && a.amount == b.amount && a.trust > b.trust)
    || (a.rating == b.rating && a.amount == b.amount && a.trust == b.trust && Sorting.Before(Smaller, a.merchant, b.merchant))
    || (a.rating == b.rating && a.amount == b.amount && a.trust == b.trust && a.merchant == b.merchant && Sorting.Before(Smaller, a.product, b.product))
  }

  lemma KeyLeIsPreference(a: Candidate, b: Candidate)
    ensures KeyLe(a, b) <==> !Preferred(b, a)
  {
    hide Sorting.Before, TextLe;
    TextLeIff(a.merchant, b.merchant);
    TextLeIff(b.merchant, a.merchant);
    TextLeIff(a.product, b.product);
    TextLeIff(b.product, a.product);
    TextLeTotal(a.merchant, b.merchant);
    TextLeTotal(a.product, b.product);
    NotBeforeItself(a.merchant);
    NotBeforeItself(a.product);
  }

  lemma NotBeforeItself(a: string)
    ensures !Sorting.Before(Smaller, a, a)
  {
  }

  /** The ranking holds the acceptable offers, each as often as it was quoted, and never puts one after another
      that it is preferred to. */
  lemma RankedByPreference(k: Constraints, cs: seq<Candidate>)
    ensures multiset(Ranked(k, cs)) == multiset(Valid(k, cs))
    ensures forall c :: c in Ranked(k, cs) <==> c in cs && Acceptable(k, c)
    ensures forall i, j :: 0 <= i < j < |Ranked(k, cs)| ==> !Preferred(Ranked(k, cs)[j], Ranked(k, cs)[i])
  {
    hide Acceptable, Preferred;
    var valid, ranked := Valid(k, cs), Ranked(k, cs);
    KeyLeIsTotal();
    Sorting.SortSorts(KeyLe, valid);
    Sorting.SortPermutes(KeyLe, valid);
    Sorting.SameMembers(ranked, valid);
    forall c ensures c in ranked <==> c in cs && Acceptable(k, c) { ValidMembers(k, cs, c); }
    forall i, j | 0 <= i < j < |ranked| ensures !Preferred(ranked[j], ranked[i]) {
      KeyLeIsPreference(ranked[i], ranked[j]);
    }
  }

  /** Nothing acceptable was quoted that is preferred to this offer. */
  ghost predicate Unbeaten(k: Constraints, quotes: seq<Quote>, c: Candidate) {
    && Quoted(quotes, c) && Acceptable(k, c)
    && forall other :: Quoted(quotes, other) && Acceptable(k, other) ==> !Preferred(other, c)
  }

  /** What a decision on an offer says: its id, its price for the quantity, and where that price falls. */
  predicate DecidedOn(k: Constraints, c: Candidate, quantity: int, d: PolicyDecision) {
    var amount := c.amount * quantity;
    && d.selected == Some(c.id) && d.amount == Some(amount)
    && (amount > k.hardLimit ==> d.outcome == Deny && d.reasons == [HardLimitExceeded])
    && (amount <= k.hardLimit && amount > k.softBudget ==> d.outcome == RequireApproval && d.reasons == [SoftBudgetExceeded])
    && (amount <= k.hardLimit && amount <= k.softBudget ==> d.outcome == Allow && d.reasons == [WithinLimits])
  }

  /** A decision is about an unbeaten acceptable offer, or there was none acceptable and it says so. */
  lemma DecisionFollowsPreference(k: Constraints, quotes: seq<Quote>, quantity: int)
    ensures var d := Decide(k, quotes, quantity);
            if forall c :: Quoted(quotes, c) ==> !Acceptable(k, c)
            then d == PolicyDecision(Deny, [NoValidOffers], None, None)
            else exists c :: Unbeaten(k, quotes, c) && DecidedOn(k, c, quantity, d)
  {
    hide Best, Preferred, Acceptable, Quoted, KeyLe;
    var best := Best(k, Candidates(quotes));
    BestIsBest(k, Candidates(quotes));
    forall c ensures c in Candidates(quotes) <==> Quoted(quotes, c) { QuotedIff(quotes, c); }
    if best.Some? {
      forall other | Quoted(quotes, other) && Acceptable(k, other) ensures !Preferred(other, best.value) {
        KeyLeIsPreference(best.value, other);
      }
      assert Unbeaten(k, quotes, best.value);
      assert DecidedOn(k, best.value, quantity, Decide(k, quotes, quantity));
    }
  }

  // ---- Which constraint was broken, said outright ------------------------------------------------

  /** The order of checking. */
  function Place(code: Code): nat {
    match code
    case MerchantIdentityMismatch => 0 case CurrencyNotAllowed => 1 case OutOfStock => 2 case RatingBelowMin => 3
    case MerchantTrustTooLow => 4 case MerchantNotAllowed => 5 case BlockedMerchant => 6 case _ => 7
  }

  /** Reasons checked before the given place, in the order of checking. */
  ghost predicate Orderly(r: seq<Code>, place: nat) {
    (forall i :: 0 <= i < |r| ==> Place(r[i]) < place) && (forall i, j :: 0 <= i < j < |r| ==> Place(r[i]) < Place(r[j]))
  }

  function Given(r: seq<Code>): set<Code> { set code | code in r }
  function If(broken: bool, code: Code): set<Code> { if broken then {code} else {} }

  /** Each reason is given exactly when its own constraint is broken, once, in the order of checking. */
  lemma RejectionsTable(k: Constraints, c: Candidate)
    ensures Given(Rejections(k, c)) ==
              If(c.claimed != c.merchant, MerchantIdentityMismatch) + If(c.currency != k.currency, CurrencyNotAllowed)
              + If(!c.inStock, OutOfStock) + If(c.rating < k.minRating, RatingBelowMin) + If(c.trust < k.minTrust, MerchantTrustTooLow)
              + If(k.allowed.Some? && c.merchant !in k.allowed.value, MerchantNotAllowed) + If(c.merchant in k.blocked, BlockedMerchant)
    ensures Orderly(Rejections(k, c), 7)
  {
    hide Checked, Orderly, Given, If;
    NoReasons();
    var r1 := CheckedAdds([], c.claimed != c.merchant, MerchantIdentityMismatch);
    var r2 := CheckedAdds(r1, c.currency != k.currency, CurrencyNotAllowed);
    var r3 := CheckedAdds(r2, !c.inStock, OutOfStock);
    var r4 := CheckedAdds(r3, c.rating < k.minRating, RatingBelowMin);
    var r5 := CheckedAdds(r4, c.trust < k.minTrust, MerchantTrustTooLow);
    var r6 := CheckedAdds(r5, k.allowed.Some? && c.merchant !in k.allowed.value, MerchantNotAllowed);
    var r7 := CheckedAdds(r6, c.merchant in k.blocked, BlockedMerchant);
  }

  lemma CheckedAdds(reasons: seq<Code>, broken: bool, code: Code) returns (r: seq<Code>)
    requires Orderly(reasons, Place(code))
    ensures r == Checked(reasons, broken, code)
    ensures Given(r) == Given(reasons) + If(broken, code) && Orderly(r, Place(code) + 1)
  {
    r := Checked(reasons, broken, code);
  }

  lemma NoReasons()
    ensures Orderly([], 0) && Given([]) == {}
  {
  }
}
