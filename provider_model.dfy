/**
 * The provider-listing document and its rating accumulator
 * (CapstoneBackend/models/ServiceProviderModel.js).
 */
module ProviderModel {
  import opened Wrappers
  import opened Catalog
  import opened BookingModel

  datatype Listing = Listing(
    serviceProviderEmail: Option<string>,
    serviceId: Id,
    userId: Id,
    serviceName: string,
    price: Option<string>,
    description: Option<string>,
    rating: real,
    totalRatingScore: real,
    numberOfRatings: nat)

  /** A new listing: the given fields, the three rating fields at their default 0. */
  function NewListing(email: Option<string>, serviceId: Id, userId: Id, serviceName: string,
                      price: Option<string>, description: Option<string>): (l: Listing)
    ensures l.serviceId == serviceId && l.userId == userId && l.serviceName == serviceName
    ensures l.serviceProviderEmail == email && l.price == price && l.description == description
    ensures l.rating == 0.0 && l.totalRatingScore == 0.0 && l.numberOfRatings == 0
  {
    Listing(email, serviceId, userId, serviceName, price, description, 0.0, 0.0, 0)
  }

  /**
   * The invariant the accumulator keeps: no ratings means all zeros;
   * otherwise `rating` is the sum over the count, and every rating having
   * been in [0, 5], the sum is at most 5 per rating.
   */
  predicate RatingConsistent(l: Listing) {
    && (l.numberOfRatings == 0 ==> l.totalRatingScore == 0.0 && l.rating == 0.0)
    && (l.numberOfRatings > 0 ==> l.rating == l.totalRatingScore / (l.numberOfRatings as real))
    && 0.0 <= l.totalRatingScore <= 5.0 * (l.numberOfRatings as real)
    && InRatingRange(l.rating)
  }

  /** `a` and `b` agree on every field except the three rating fields. */
  predicate SameExceptRatingFields(a: Listing, b: Listing) {
    && a.serviceProviderEmail == b.serviceProviderEmail && a.serviceId == b.serviceId
    && a.userId == b.userId && a.serviceName == b.serviceName
    && a.price == b.price && a.description == b.description
  }

  /** The listing after `updateAverageRating(r)`. */
  function Rated(l: Listing, r: real): (n: Listing)
    ensures n.numberOfRatings == l.numberOfRatings + 1
    ensures n.totalRatingScore == l.totalRatingScore + r
    ensures n.rating * (n.numberOfRatings as real) == n.totalRatingScore
    ensures SameExceptRatingFields(l, n)
  {
    var total := l.totalRatingScore + r;
    var count := l.numberOfRatings + 1;
    l.(totalRatingScore := total, numberOfRatings := count, rating := total / (count as real))
  }

  /** A quotient of a value in [0, 5n] by n > 0 lies in [0, 5]. */
  lemma QuotientInRange(total: real, count: real)
    requires count > 0.0 && 0.0 <= total <= 5.0 * count
    ensures InRatingRange(total / count)
  {
    var q := total / count;
    assert q * count == total;
  }

  /** A rating in [0, 5] keeps the accumulator's invariant. */
  lemma RatedPreservesConsistency(l: Listing, r: real)
    requires RatingConsistent(l) && InRatingRange(r)
    ensures RatingConsistent(Rated(l, r))
  {
    var n := Rated(l, r);
    QuotientInRange(n.totalRatingScore, n.numberOfRatings as real);
  }

  /** The listing after `updateAverageRating` is applied to each of `rs` in turn. */
  function RatedAll(l: Listing, rs: seq<real>): Listing
    decreases |rs|
  {
    if rs == [] then l else RatedAll(Rated(l, rs[0]), rs[1..])
  }

  function Sum(rs: seq<real>): real
    decreases |rs|
  {
    if rs == [] then 0.0 else rs[0] + Sum(rs[1..])
  }

  /** Applying `rs` adds their sum to the total and their number to the count. */
  lemma {:induction false} RatedAllAccumulates(l: Listing, rs: seq<real>)
    ensures RatedAll(l, rs).totalRatingScore == l.totalRatingScore + Sum(rs)
    ensures RatedAll(l, rs).numberOfRatings == l.numberOfRatings + |rs|
    ensures rs != [] ==> RatedAll(l, rs).rating * (RatedAll(l, rs).numberOfRatings as real)
                         == RatedAll(l, rs).totalRatingScore
    ensures SameExceptRatingFields(l, RatedAll(l, rs))
    decreases |rs|
  {
    if rs != [] {
      RatedAllAccumulates(Rated(l, rs[0]), rs[1..]);
    }
  }

  /**
   * Starting from the defaults 0/0 and applying r1..rn, the stored rating is
   * the arithmetic mean of r1..rn.
   */
  lemma RatingIsMean(l: Listing, rs: seq<real>)
    requires l.totalRatingScore == 0.0 && l.numberOfRatings == 0
    requires rs != []
    ensures RatedAll(l, rs).numberOfRatings == |rs|
    ensures RatedAll(l, rs).rating == Sum(rs) / (|rs| as real)
  {
    RatedAllAccumulates(l, rs);
    var n := RatedAll(l, rs);
    assert n.rating * (|rs| as real) == Sum(rs);
  }

  /** If every rating is in [0, 5] the invariant, and so the schema bound, holds throughout. */
  lemma {:induction false} RatedAllStaysInRange(l: Listing, rs: seq<real>)
    requires RatingConsistent(l)
    requires forall i :: 0 <= i < |rs| ==> InRatingRange(rs[i])
    ensures RatingConsistent(RatedAll(l, rs))
    ensures InRatingRange(RatedAll(l, rs).rating)
    decreases |rs|
  {
    if rs != [] {
      RatedPreservesConsistency(l, rs[0]);
      RatedAllStaysInRange(Rated(l, rs[0]), rs[1..]);
    }
  }

  lemma {:induction false} SumRemove(rs: seq<real>, k: nat)
    requires k < |rs|
    ensures Sum(rs) == rs[k] + Sum(rs[..k] + rs[k + 1..])
    decreases |rs|
  {
    if k > 0 {
      SumRemove(rs[1..], k - 1);
      assert rs[1..][..k - 1] + rs[1..][k..] == (rs[..k] + rs[k + 1..])[1..];
    } else {
      assert rs[..k] + rs[k + 1..] == rs[1..];
    }
  }

  /** The sum does not depend on the order of the ratings. */
  lemma {:induction false} SumPermutation(rs: seq<real>, qs: seq<real>)
    requires multiset(rs) == multiset(qs)
    ensures Sum(rs) == Sum(qs)
    decreases |rs|
  {
    if rs != [] {
      assert rs[0] in multiset(qs);
      var k :| 0 <= k < |qs| && qs[k] == rs[0];
      var rest := qs[..k] + qs[k + 1..];
      assert qs == qs[..k] + [qs[k]] + qs[k + 1..];
      assert rs == [rs[0]] + rs[1..];
      assert multiset(qs) == multiset(qs[..k]) + multiset([qs[k]]) + multiset(qs[k + 1..]);
      assert multiset(rest) == multiset(qs[..k]) + multiset(qs[k + 1..]);
      assert multiset(rs) == multiset([rs[0]]) + multiset(rs[1..]);
      assert multiset(rs[1..]) == multiset(rs) - multiset{rs[0]};
      assert multiset(rest) == multiset(qs) - multiset{qs[k]};
      SumPermutation(rs[1..], rest);
      SumRemove(qs, k);
    } else {
      assert |qs| == |multiset(qs)|;
    }
  }

  /** Submitting the same ratings in any order yields the same average. */
  lemma RatingOrderIrrelevant(l: Listing, rs: seq<real>, qs: seq<real>)
    requires l.totalRatingScore == 0.0 && l.numberOfRatings == 0
    requires rs != [] && multiset(rs) == multiset(qs)
    ensures RatedAll(l, rs).rating == RatedAll(l, qs).rating
  {
    assert |rs| == |multiset(rs)| == |qs|;
    RatingIsMean(l, rs);
    RatingIsMean(l, qs);
    SumPermutation(rs, qs);
  }
}
