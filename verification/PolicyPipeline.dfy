/** The pipeline as it runs: offers marked valid, given their rejection reasons and ranked in
    place, with the loops that do it, proved to compute `Policy.Decide`. */
module PolicyPipeline {
  import opened Vocabulary
  import opened AuditEvents
  import opened Policy
  import Sorting

  class Offer {
    const data: Candidate
    var valid: bool
    var reasons: seq<Code>
    var rank: Option<nat>

    constructor (data: Candidate)
      ensures this.data == data && valid && reasons == [] && rank == None
    {
      this.data := data;
      valid, reasons, rank := true, [], None;
    }
  }

  function Data(xs: seq<Offer>): (ds: seq<Candidate>)
    ensures |ds| == |xs| && forall i :: 0 <= i < |xs| ==> ds[i] == xs[i].data
  {
    seq(|xs|, i requires 0 <= i < |xs| => xs[i].data)
  }

  ghost predicate Apart(xs: seq<Offer>) {
    forall i, j :: 0 <= i < j < |xs| ==> xs[i] != xs[j]
  }

  /** The offer carries exactly the reasons it earned. */
  predicate Judged(k: Constraints, o: Offer)
    reads o
  {
    o.reasons == Rejections(k, o.data) && o.valid == (Rejections(k, o.data) == [])
  }

  method NormalizeOffer(k: Constraints, q: Quote, raw: RawOffer) returns (offer: Offer)
    ensures fresh(offer) && offer.data == Ingest(q, raw) && Judged(k, offer) && offer.rank == None
  {
    offer := new Offer(Ingest(q, raw));
    var reasons: seq<Code> := [];
    if offer.data.claimed != offer.data.merchant { reasons := reasons + [MerchantIdentityMismatch]; }
    if offer.data.currency != k.currency { reasons := reasons + [CurrencyNotAllowed]; }
    if !offer.data.inStock { reasons := reasons + [OutOfStock]; }
    if offer.data.rating < k.minRating { reasons := reasons + [RatingBelowMin]; }
    if offer.data.trust < k.minTrust { reasons := reasons + [MerchantTrustTooLow]; }
    if k.allowed.Some? && offer.data.merchant !in k.allowed.value { reasons := reasons + [MerchantNotAllowed]; }
    if offer.data.merchant in k.blocked { reasons := reasons + [BlockedMerchant]; }
    offer.valid := |reasons| == 0;
    offer.reasons := reasons;
  }

  lemma TakeOne<T>(xs: seq<T>, i: nat)
    requires i < |xs|
    ensures xs[..i + 1][..i] == xs[..i] && xs[..i + 1][i] == xs[i] && |xs[..i + 1]| == i + 1
  {
  }

  method NormalizeQuote(k: Constraints, q: Quote) returns (offers: seq<Offer>)
    ensures Data(offers) == IngestAll(q, q.offers) && Apart(offers)
    ensures forall i :: 0 <= i < |offers| ==> fresh(offers[i]) && Judged(k, offers[i])
  {
    offers := [];
    var i := 0;
    while i < |q.offers|
      invariant 0 <= i <= |q.offers|
      invariant Data(offers) == IngestAll(q, q.offers[..i]) && Apart(offers)
      invariant forall j :: 0 <= j < |offers| ==> fresh(offers[j]) && Judged(k, offers[j])
    {
      TakeOne(q.offers, i);
      var offer := NormalizeOffer(k, q, q.offers[i]);
      ghost var before := offers;
      offers := offers + [offer];
      assert Data(offers) == Data(before) + [offer.data];
      i := i + 1;
    }
    assert q.offers[..i] == q.offers;
  }

  /** Every quoted offer, bound to the merchant that quoted it. */
  method NormalizeOffers(k: Constraints, quotes: seq<Quote>) returns (offers: seq<Offer>)
    ensures Data(offers) == Candidates(quotes) && Apart(offers)
    ensures forall i :: 0 <= i < |offers| ==> fresh(offers[i]) && Judged(k, offers[i])
  {
    offers := [];
    var i := 0;
    while i < |quotes|
      invariant 0 <= i <= |quotes|
      invariant Data(offers) == Candidates(quotes[..i]) && Apart(offers)
      invariant forall j :: 0 <= j < |offers| ==> fresh(offers[j]) && Judged(k, offers[j])
    {
      TakeOne(quotes, i);
      var more := NormalizeQuote(k, quotes[i]);
      ghost var before := offers;
      offers := offers + more;
      assert Data(offers) == Data(before) + Data(more);
      i := i + 1;
    }
    assert quotes[..i] == quotes;
  }

  // ---- Ranking in place --------------------------------------------------------------------

  function ValidOnes(xs: seq<Offer>): seq<Offer>
    reads (set o | o in xs)`valid
  {
    if xs == [] then []
    else ValidOnes(xs[..|xs| - 1]) + (if xs[|xs| - 1].valid then [xs[|xs| - 1]] else [])
  }

  predicate OfferLe(a: Offer, b: Offer) { KeyLe(a.data, b.data) }

  lemma {:induction false} InsertData(x: Offer, xs: seq<Offer>)
    ensures Data(Sorting.Insert(OfferLe, x, xs)) == Sorting.Insert(KeyLe, x.data, Data(xs))
  {
    if xs != [] && !OfferLe(x, xs[0]) {
      InsertData(x, xs[1..]);
      assert Data(xs)[1..] == Data(xs[1..]);
    }
  }

  lemma {:induction false} SortData(xs: seq<Offer>)
    ensures Data(Sorting.Sort(OfferLe, xs)) == Sorting.Sort(KeyLe, Data(xs))
  {
    if xs != [] {
      SortData(xs[1..]);
      InsertData(xs[0], Sorting.Sort(OfferLe, xs[1..]));
      assert Data(xs)[1..] == Data(xs[1..]);
    }
  }

  lemma {:induction false} ValidData(k: Constraints, xs: seq<Offer>)
    requires forall i :: 0 <= i < |xs| ==> Judged(k, xs[i])
    ensures Data(ValidOnes(xs)) == Valid(k, Data(xs))
  {
    if xs != [] {
      var rest := xs[..|xs| - 1];
      ValidData(k, rest);
      assert Data(xs)[..|xs| - 1] == Data(rest);
    }
  }

  lemma {:induction false} ValidOnesApart(xs: seq<Offer>)
    requires Apart(xs)
    ensures Apart(ValidOnes(xs)) && forall o :: o in ValidOnes(xs) <==> o in xs && o.valid
  {
    if xs != [] {
      var rest := xs[..|xs| - 1];
      ValidOnesApart(rest);
      assert xs == rest + [xs[|xs| - 1]];
    }
  }

  lemma {:induction false} ApartIsSingle(xs: seq<Offer>, o: Offer)
    requires Apart(xs)
    ensures multiset(xs)[o] <= 1
  {
    if xs != [] {
      ApartIsSingle(xs[1..], o);
      assert xs == [xs[0]] + xs[1..];
      if o == xs[0] {
        assert o !in xs[1..];
      }
    }
  }

  lemma SortApart(xs: seq<Offer>)
    requires Apart(xs)
    ensures Apart(Sorting.Sort(OfferLe, xs)) && forall o :: o in Sorting.Sort(OfferLe, xs) <==> o in xs
  {
    var ys := Sorting.Sort(OfferLe, xs);
    Sorting.SortPermutes(OfferLe, xs);
    Sorting.SameMembers(ys, xs);
    forall i, j | 0 <= i < j < |ys| ensures ys[i] != ys[j] {
      ApartIsSingle(xs, ys[i]);
      assert ys == ys[..j] + [ys[j]] + ys[j + 1..];
      assert ys[i] in ys[..j];
    }
  }

  method SelectValid(offers: seq<Offer>) returns (valid: seq<Offer>)
    ensures valid == ValidOnes(offers)
  {
    valid := [];
    var i := 0;
    while i < |offers|
      invariant 0 <= i <= |offers|
      invariant valid == ValidOnes(offers[..i])
    {
      TakeOne(offers, i);
      if offers[i].valid { valid := valid + [offers[i]]; }
      i := i + 1;
    }
    assert offers[..i] == offers;
  }

  method AssignRanks(ranked: seq<Offer>)
    requires Apart(ranked)
    modifies (set o | o in ranked)`rank
    ensures forall i :: 0 <= i < |ranked| ==> ranked[i].rank == Some(i + 1)
  {
    var n := 0;
    while n < |ranked|
      invariant 0 <= n <= |ranked|
      invariant forall j :: 0 <= j < n ==> ranked[j].rank == Some(j + 1)
    {
      ranked[n].rank := Some(n + 1);
      n := n + 1;
    }
  }

  /** Rank the valid offers from one, best first, and leave the others as they were. */
  method RankOffers(offers: seq<Offer>) returns (ranked: seq<Offer>)
    requires Apart(offers)
    modifies (set o | o in offers)`rank
    ensures ranked == Sorting.Sort(OfferLe, ValidOnes(offers))
    ensures forall i :: 0 <= i < |ranked| ==> ranked[i].rank == Some(i + 1)
    ensures forall o :: o in offers && !o.valid ==> o.rank == old(o.rank)
  {
    var valid := SelectValid(offers);
    ValidOnesApart(offers);
    SortApart(valid);
    ranked := Sorting.Sort(OfferLe, valid);
    AssignRanks(ranked);
  }

  /** Normalize, rank, evaluate. */
  method DecideMission(k: Constraints, quotes: seq<Quote>, quantity: int) returns (d: PolicyDecision)
    ensures d == Decide(k, quotes, quantity)
  {
    var offers := NormalizeOffers(k, quotes);
    ValidData(k, offers);
    SortData(ValidOnes(offers));
    var ranked := RankOffers(offers);
    assert Data(ranked) == Policy.Ranked(k, Candidates(quotes));
    d := Evaluate(k, if ranked == [] then None else Some(ranked[0].data), quantity);
  }
}
