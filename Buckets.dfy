/**
 * The analyzer's `_categorize_prices` and `_categorize_ratings`: every value is counted in
 * exactly one of six labelled buckets, chosen by a chain of comparisons with fixed bounds.
 * Prices and ratings are Python floats, modelled as reals.
 */
module Buckets {

  const PriceLabels: seq<string> := ["$0-10", "$10-25", "$25-50", "$50-100", "$100-250", "$250+"]
  const PriceKeys: set<string> := {"$0-10", "$10-25", "$25-50", "$50-100", "$100-250", "$250+"}
  /** The upper bounds, exclusive, of the first five price buckets. */
  const PriceBounds: seq<real> := [10.0, 25.0, 50.0, 100.0, 250.0]

  const RatingLabels: seq<string> := ["4.5-5.0", "4.0-4.5", "3.5-4.0", "3.0-3.5", "2.5-3.0", "Below 2.5"]
  const RatingKeys: set<string> := {"4.5-5.0", "4.0-4.5", "3.5-4.0", "3.0-3.5", "2.5-3.0", "Below 2.5"}
  /** The lower bounds, inclusive, of the first five rating buckets. */
  const RatingThresholds: seq<real> := [4.5, 4.0, 3.5, 3.0, 2.5]

  /** The price bucket: the first `price < bound` of the chain that holds, or the last bucket. */
  function PriceBucket(price: real): (k: nat)
    ensures k < 6
  {
    if price < 10.0 then 0
    else if price < 25.0 then 1
    else if price < 50.0 then 2
    else if price < 100.0 then 3
    else if price < 250.0 then 4
    else 5
  }

  /** The rating bucket: the first `rating >= threshold` of the chain that holds, or the last bucket. */
  function RatingBucket(rating: real): (k: nat)
    ensures k < 6
  {
    if rating >= 4.5 then 0
    else if rating >= 4.0 then 1
    else if rating >= 3.5 then 2
    else if rating >= 3.0 then 3
    else if rating >= 2.5 then 4
    else 5
  }

  /** Each price bucket is a half-open interval: from the previous bound (inclusive) to its own (exclusive). */
  lemma PriceBucketSpec(price: real, k: nat)
    requires k < 6
    ensures PriceBucket(price) == k <==>
      (k == 0 || PriceBounds[k - 1] <= price) && (k == 5 || price < PriceBounds[k])
  {
  }

  /** Each rating bucket runs from its own threshold (inclusive) up to the previous one (exclusive). */
  lemma RatingBucketSpec(rating: real, k: nat)
    requires k < 6
    ensures RatingBucket(rating) == k <==>
      (k == 0 || rating < RatingThresholds[k - 1]) && (k == 5 || rating >= RatingThresholds[k])
  {
  }

  function PriceBucketFn(): real -> nat
  {
    PriceBucket
  }

  function RatingBucketFn(): real -> nat
  {
    RatingBucket
  }

  /** How many of `xs` land in bucket `k`. */
  function Tally(xs: seq<real>, bucket: real -> nat, k: nat): (r: nat)
    ensures r <= |xs|
  {
    if xs == [] then 0 else Tally(xs[..|xs| - 1], bucket, k) + (if bucket(xs[|xs| - 1]) == k then 1 else 0)
  }

  /** When every value lands in one of six buckets, the six counts add up to the number of values. */
  lemma {:induction false} TallySum(xs: seq<real>, bucket: real -> nat)
    requires forall x :: bucket(x) < 6
    ensures Tally(xs, bucket, 0) + Tally(xs, bucket, 1) + Tally(xs, bucket, 2) + Tally(xs, bucket, 3) +
      Tally(xs, bucket, 4) + Tally(xs, bucket, 5) == |xs|
  {
    if xs != [] {
      TallySum(xs[..|xs| - 1], bucket);
    }
  }

  lemma PriceCountsSum(prices: seq<real>)
    ensures Tally(prices, PriceBucketFn(), 0) + Tally(prices, PriceBucketFn(), 1) + Tally(prices, PriceBucketFn(), 2) +
      Tally(prices, PriceBucketFn(), 3) + Tally(prices, PriceBucketFn(), 4) + Tally(prices, PriceBucketFn(), 5) == |prices|
  {
    TallySum(prices, PriceBucketFn());
  }

  lemma RatingCountsSum(ratings: seq<real>)
    ensures Tally(ratings, RatingBucketFn(), 0) + Tally(ratings, RatingBucketFn(), 1) + Tally(ratings, RatingBucketFn(), 2) +
      Tally(ratings, RatingBucketFn(), 3) + Tally(ratings, RatingBucketFn(), 4) + Tally(ratings, RatingBucketFn(), 5) == |ratings|
  {
    TallySum(ratings, RatingBucketFn());
  }

  /** Counting one more value adds one to its own bucket and nothing to the others. */
  lemma TallyStep(xs: seq<real>, i: nat, bucket: real -> nat, k: nat)
    requires i < |xs|
    ensures Tally(xs[..i + 1], bucket, k) == Tally(xs[..i], bucket, k) + (if bucket(xs[i]) == k then 1 else 0)
  {
    assert xs[..i + 1][..i] == xs[..i];
  }

  /** The price counts as a dict, keyed by the labels. */
  function PriceRanges(prices: seq<real>): map<string, nat>
  {
    var f := PriceBucketFn();
    map["$0-10" := Tally(prices, f, 0), "$10-25" := Tally(prices, f, 1), "$25-50" := Tally(prices, f, 2),
        "$50-100" := Tally(prices, f, 3), "$100-250" := Tally(prices, f, 4), "$250+" := Tally(prices, f, 5)]
  }

  /** The rating counts as a dict, keyed by the labels. */
  function RatingRanges(ratings: seq<real>): map<string, nat>
  {
    var f := RatingBucketFn();
    map["4.5-5.0" := Tally(ratings, f, 0), "4.0-4.5" := Tally(ratings, f, 1), "3.5-4.0" := Tally(ratings, f, 2),
        "3.0-3.5" := Tally(ratings, f, 3), "2.5-3.0" := Tally(ratings, f, 4), "Below 2.5" := Tally(ratings, f, 5)]
  }

  /** `_categorize_prices`: the six price buckets, each with the number of prices in it. */
  method CategorizePrices(prices: seq<real>) returns (ranges: map<string, nat>)
    ensures ranges.Keys == PriceKeys
    ensures forall k :: 0 <= k < 6 ==> ranges[PriceLabels[k]] == Tally(prices, PriceBucketFn(), k)
    ensures ranges == PriceRanges(prices)
  {
    ranges := map["$0-10" := 0, "$10-25" := 0, "$25-50" := 0, "$50-100" := 0, "$100-250" := 0, "$250+" := 0];
    for i := 0 to |prices|
      invariant ranges.Keys == PriceKeys
      invariant forall k :: 0 <= k < 6 ==> ranges[PriceLabels[k]] == Tally(prices[..i], PriceBucketFn(), k)
    {
      forall k | 0 <= k < 6 {
        TallyStep(prices, i, PriceBucketFn(), k);
      }
      var key := PriceLabels[PriceBucket(prices[i])];
      ranges := ranges[key := ranges[key] + 1];
    }
    assert prices[..|prices|] == prices;
  }

  /** `_categorize_ratings`: the six rating buckets, each with the number of ratings in it. */
  method CategorizeRatings(ratings: seq<real>) returns (ranges: map<string, nat>)
    ensures ranges.Keys == RatingKeys
    ensures forall k :: 0 <= k < 6 ==> ranges[RatingLabels[k]] == Tally(ratings, RatingBucketFn(), k)
    ensures ranges == RatingRanges(ratings)
  {
    ranges := map["4.5-5.0" := 0, "4.0-4.5" := 0, "3.5-4.0" := 0, "3.0-3.5" := 0, "2.5-3.0" := 0, "Below 2.5" := 0];
    for i := 0 to |ratings|
      invariant ranges.Keys == RatingKeys
      invariant forall k :: 0 <= k < 6 ==> ranges[RatingLabels[k]] == Tally(ratings[..i], RatingBucketFn(), k)
    {
      forall k | 0 <= k < 6 {
        TallyStep(ratings, i, RatingBucketFn(), k);
      }
      var key := RatingLabels[RatingBucket(ratings[i])];
      ranges := ranges[key := ranges[key] + 1];
    }
    assert ratings[..|ratings|] == ratings;
  }
}
