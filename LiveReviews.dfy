/** Reviews and ratings of the live scraper: rating, review and sales counts, and the first reviews. */
module LiveReviews {
  import opened Values
  import opened Strings
  import opened Sequences
  import opened Document

  // ---------------------------------------------------------------------------------------------
  // One review

  const ReviewerSelector: Selector := ".reviewer-info, .review-author"
  const ReviewTextSelector: Selector := ".review-text, .review-content, .list--itemReview--d9Z9Z5Z"
  const StarsSelector: Selector := ".rating, .stars"
  const SkuSelector: Selector := ".sku-info, .variant-info, .list--itemSku--idEQSGC"
  const ReviewImageSelector: Selector := ".review-image img"

  /** The number in the first class name of a star element (`rating-4.5` gives 4.5). */
  function StarsRating(stars: Node): Option<real>
  {
    FirstNumber(if ClassesOf(stars) != [] then ClassesOf(stars)[0] else "")
  }

  function ReviewRating(eng: Engine, review: Node): Option<real>
  {
    match SelectOne(eng, review, StarsSelector)
    case Some(stars) => StarsRating(stars)
    case None => None
  }

  /** The review's image sources, in document order, each non-empty. */
  function ReviewImages(eng: Engine, review: Node): seq<string>
  {
    Keep(Select(eng, review, ReviewImageSelector), SourceOf)
  }

  /** A review's mapping from its parts; `images` only when at least one image had a source. */
  function ReviewOf(reviewer: Option<string>, text: Option<string>, rating: Option<real>, sku: Option<string>,
                    images: seq<string>): Mapping
  {
    var m0 := Put(map[], "reviewer_info", StrOf(reviewer));
    var m1 := Put(m0, "review_text", StrOf(text));
    var m2 := Put(m1, "rating", FloatOf(rating));
    var m3 := Put(m2, "sku", StrOf(sku));
    Put(m3, "images", if images != [] then Some(StrList(images)) else None)
  }

  function ParseReview(eng: Engine, review: Node): Mapping
  {
    ReviewOf(TextOfFirst(eng, review, ReviewerSelector), TextOfFirst(eng, review, ReviewTextSelector),
             ReviewRating(eng, review), TextOfFirst(eng, review, SkuSelector), ReviewImages(eng, review))
  }

  method ParseIndividualReview(eng: Engine, review: Node) returns (data: Mapping)
    ensures data == ParseReview(eng, review)
  {
    var images := Collect(Select(eng, review, ReviewImageSelector), SourceOf);
    data := Store(map[], "reviewer_info", StrOf(TextOfFirst(eng, review, ReviewerSelector)));
    data := Store(data, "review_text", StrOf(TextOfFirst(eng, review, ReviewTextSelector)));
    data := Store(data, "rating", FloatOf(ReviewRating(eng, review)));
    data := Store(data, "sku", StrOf(TextOfFirst(eng, review, SkuSelector)));
    if images != [] {
      data := data["images" := StrList(images)];
    }
  }

  /** A review with no part found is the empty mapping, which the caller drops. */
  lemma EmptyReview(reviewer: Option<string>, text: Option<string>, rating: Option<real>, sku: Option<string>,
                    images: seq<string>)
    ensures ReviewOf(reviewer, text, rating, sku, images) == map[] <==>
      reviewer.None? && text.None? && rating.None? && sku.None? && images == []
  {
    var r := ReviewOf(reviewer, text, rating, sku, images);
    if reviewer.Some? {
      assert "reviewer_info" in r;
    } else if text.Some? {
      assert "review_text" in r;
    } else if rating.Some? {
      assert "rating" in r;
    } else if sku.Some? {
      assert "sku" in r;
    } else if images != [] {
      assert "images" in r;
    }
  }

  /** Stored review images all have a non-empty source, in document order. */
  lemma ReviewImagesSpec(eng: Engine, review: Node)
    ensures |ReviewImages(eng, review)| <= |Select(eng, review, ReviewImageSelector)|
    ensures forall src :: src in ReviewImages(eng, review) <==>
      exists j :: 0 <= j < |Select(eng, review, ReviewImageSelector)| &&
        SourceOf(Select(eng, review, ReviewImageSelector)[j]) == Some(src)
    ensures forall src :: src in ReviewImages(eng, review) ==> src != []
  {
    KeepLength(Select(eng, review, ReviewImageSelector), SourceOf);
    KeepMembers(Select(eng, review, ReviewImageSelector), SourceOf);
  }

  // ---------------------------------------------------------------------------------------------
  // Reviews of the product

  /** A `strong` element whose `.string` contains a decimal number. */
  predicate IsRatingStrong(n: Node)
  {
    n.Element? && n.tag == "strong" && StringOf(n).Some? && FirstDecimal(StringOf(n).value).Some?
  }

  function RatingStrongTest(): Node -> bool
  {
    n => IsRatingStrong(n)
  }

  /** The first decimal number in the text of the first rating `strong` element. */
  function Rating(soup: Node): Option<real>
  {
    match Find(soup, RatingStrongTest())
    case Some(e) => FirstDecimal(StrippedText(e))
    case None => None
  }

  const ReviewCountSelectors: seq<Selector> := ["a[href*=\"review\"]", ".reviewer--reviews--cx7Zs_V", ".review-count"]
  const SoldSelectors: seq<Selector> := [".reviewer--sold--ytPeoEy", ".product-sold-count", "[class*=\"sold\"]"]

  /** The first integer in the text of what `sel` finds; an element without digits gives nothing. */
  function CountProbe(eng: Engine, soup: Node): Selector -> Option<int>
  {
    sel => match SelectOne(eng, soup, sel)
           case Some(e) => FirstInteger(TextOf(e))
           case None => None
  }

  /** As `CountProbe`, for an element whose lower-cased text mentions "sold". */
  function SoldProbe(eng: Engine, soup: Node): Selector -> Option<int>
  {
    sel => match SelectOne(eng, soup, sel)
           case Some(e) => if Contains(Lower(TextOf(e)), "sold") then FirstInteger(TextOf(e)) else None
           case None => None
  }

  const ReviewItemSelector: Selector := ".list--itemDesc--JcxNPy5, .review-item, .feedback-item"
  const MaxReviews: nat := 10

  /** A parsed review as a list entry, when it is not empty. */
  function ReviewProbe(eng: Engine): Node -> Option<Value>
  {
    review => if ParseReview(eng, review) != map[] then Some(Dict(ParseReview(eng, review))) else None
  }

  /** The non-empty parses of the first ten review elements, in document order. */
  function IndividualReviews(eng: Engine, soup: Node): seq<Value>
  {
    Keep(Take(Select(eng, soup, ReviewItemSelector), MaxReviews), ReviewProbe(eng))
  }

  function ReviewsOf(rating: Option<real>, reviewCount: Option<int>, soldCount: Option<int>,
                     individual: seq<Value>): Mapping
  {
    var m0 := Put(map[], "rating", FloatOf(rating));
    var m1 := Put(m0, "review_count", IntOf(reviewCount));
    var m2 := Put(m1, "sold_count", IntOf(soldCount));
    Put(m2, "individual_reviews", NonEmptyList(individual))
  }

  /** `reviews_and_ratings`. */
  function Reviews(eng: Engine, soup: Node): Mapping
  {
    ReviewsOf(Rating(soup), FirstSome(ReviewCountSelectors, CountProbe(eng, soup)),
              FirstSome(SoldSelectors, SoldProbe(eng, soup)), IndividualReviews(eng, soup))
  }

  /** The loop over the first ten review elements, keeping the non-empty parses. */
  method ParseFirstReviews(eng: Engine, soup: Node) returns (individual: seq<Value>)
    ensures individual == IndividualReviews(eng, soup)
  {
    var items := Take(Select(eng, soup, ReviewItemSelector), MaxReviews);
    individual := [];
    var i := 0;
    while i < |items|
      invariant 0 <= i <= |items|
      invariant individual == Keep(items[..i], ReviewProbe(eng))
    {
      KeepStep(items, i, ReviewProbe(eng));
      var data := ParseIndividualReview(eng, items[i]);
      if data != map[] {
        individual := individual + [Dict(data)];
      }
      i := i + 1;
    }
    assert items[..|items|] == items;
  }

  method ExtractReviewsAndRatings(eng: Engine, soup: Node) returns (reviews: Mapping)
    ensures reviews == Reviews(eng, soup)
  {
    var reviewCount := FindFirst(ReviewCountSelectors, CountProbe(eng, soup));
    var soldCount := FindFirst(SoldSelectors, SoldProbe(eng, soup));
    var individual := ParseFirstReviews(eng, soup);
    reviews := Store(map[], "rating", FloatOf(Rating(soup)));
    reviews := Store(reviews, "review_count", IntOf(reviewCount));
    reviews := Store(reviews, "sold_count", IntOf(soldCount));
    reviews := Store(reviews, "individual_reviews", NonEmptyList(individual));
  }

  /** At most ten reviews are kept, each the non-empty parse of one of the first ten review elements. */
  lemma ReviewCap(eng: Engine, soup: Node)
    ensures |IndividualReviews(eng, soup)| <= MaxReviews
    ensures forall v :: v in IndividualReviews(eng, soup) <==>
      exists j :: 0 <= j < |Select(eng, soup, ReviewItemSelector)| && j < MaxReviews &&
        ReviewProbe(eng)(Select(eng, soup, ReviewItemSelector)[j]) == Some(v)
  {
    var items := Select(eng, soup, ReviewItemSelector);
    var first := Take(items, MaxReviews);
    KeepLength(first, ReviewProbe(eng));
    KeepMembers(first, ReviewProbe(eng));
    assert forall j :: 0 <= j < |first| ==> first[j] == items[j];
  }

  /** A review element contributes exactly when its parse is not empty, and then contributes that parse. */
  lemma ReviewProbeSpec(eng: Engine, review: Node, v: Value)
    ensures ReviewProbe(eng)(review) == Some(v) <==>
      ParseReview(eng, review) != map[] && v == Dict(ParseReview(eng, review))
  {
  }

  /** No review survives exactly when none of the first ten review elements parses to anything. */
  lemma ReviewsAbsent(eng: Engine, soup: Node)
    ensures IndividualReviews(eng, soup) == [] <==>
      forall j :: 0 <= j < |Select(eng, soup, ReviewItemSelector)| && j < MaxReviews ==>
        ReviewProbe(eng)(Select(eng, soup, ReviewItemSelector)[j]).None?
  {
    var items := Select(eng, soup, ReviewItemSelector);
    var first := Take(items, MaxReviews);
    KeepEmpty(first, ReviewProbe(eng));
    assert forall j :: 0 <= j < |first| ==> first[j] == items[j];
  }

  /** Each key of `reviews_and_ratings` is present exactly when its source gave something; `individual_reviews` needs a surviving review. */
  lemma ReviewsKeys(rating: Option<real>, reviewCount: Option<int>, soldCount: Option<int>, individual: seq<Value>)
    ensures ReviewsOf(rating, reviewCount, soldCount, individual).Keys <=
      {"rating", "review_count", "sold_count", "individual_reviews"}
    ensures "rating" in ReviewsOf(rating, reviewCount, soldCount, individual) <==> rating.Some?
    ensures "review_count" in ReviewsOf(rating, reviewCount, soldCount, individual) <==> reviewCount.Some?
    ensures "sold_count" in ReviewsOf(rating, reviewCount, soldCount, individual) <==> soldCount.Some?
    ensures "individual_reviews" in ReviewsOf(rating, reviewCount, soldCount, individual) <==> individual != []
  {
  }

  /** Review elements after the tenth are never read. */
  lemma ReviewsIgnoreLaterItems(eng: Engine, soup: Node, soup': Node)
    requires Take(Select(eng, soup, ReviewItemSelector), MaxReviews) == Take(Select(eng, soup', ReviewItemSelector), MaxReviews)
    ensures IndividualReviews(eng, soup) == IndividualReviews(eng, soup')
  {
  }

  /**
   * The review count is the first number in the earliest selector's element that has one;
   * elements without digits are passed over, and there is no count when no element has digits.
   */
  lemma ReviewCountCascade(eng: Engine, soup: Node)
    ensures FirstSome(ReviewCountSelectors, CountProbe(eng, soup)).None? <==>
      forall j :: 0 <= j < |ReviewCountSelectors| ==>
        (SelectOne(eng, soup, ReviewCountSelectors[j]).None? ||
         FirstDigits(TextOf(SelectOne(eng, soup, ReviewCountSelectors[j]).value)).None?)
    ensures FirstSome(ReviewCountSelectors, CountProbe(eng, soup)).Some? ==>
      exists k :: 0 <= k < |ReviewCountSelectors| && SelectOne(eng, soup, ReviewCountSelectors[k]).Some? &&
        FirstSome(ReviewCountSelectors, CountProbe(eng, soup)) ==
          FirstInteger(TextOf(SelectOne(eng, soup, ReviewCountSelectors[k]).value)) &&
        (forall j :: 0 <= j < k ==>
          (SelectOne(eng, soup, ReviewCountSelectors[j]).None? ||
           FirstDigits(TextOf(SelectOne(eng, soup, ReviewCountSelectors[j]).value)).None?))
  {
    FirstSomeNone(ReviewCountSelectors, CountProbe(eng, soup));
    if FirstSome(ReviewCountSelectors, CountProbe(eng, soup)).Some? {
      var k := FirstSomeWitness(ReviewCountSelectors, CountProbe(eng, soup));
      assert forall j :: 0 <= j < k ==> CountProbe(eng, soup)(ReviewCountSelectors[j]).None?;
    }
  }

  /** An element with digits under the earliest such selector gives the review count: its first number. */
  lemma ReviewCountAt(eng: Engine, soup: Node, k: nat)
    requires k < |ReviewCountSelectors| && SelectOne(eng, soup, ReviewCountSelectors[k]).Some?
    requires FirstDigits(TextOf(SelectOne(eng, soup, ReviewCountSelectors[k]).value)).Some?
    requires forall j :: 0 <= j < k ==>
      (SelectOne(eng, soup, ReviewCountSelectors[j]).None? ||
       FirstDigits(TextOf(SelectOne(eng, soup, ReviewCountSelectors[j]).value)).None?)
    ensures FirstSome(ReviewCountSelectors, CountProbe(eng, soup)) ==
      Some(DigitsValue(FirstDigits(TextOf(SelectOne(eng, soup, ReviewCountSelectors[k]).value)).value))
  {
    assert forall j :: 0 <= j < k ==> CountProbe(eng, soup)(ReviewCountSelectors[j]).None?;
    FirstSomeAt(ReviewCountSelectors, CountProbe(eng, soup), k);
  }

  /** An element that yields a sales count: found, mentioning "sold" in any case, and with a digit. */
  predicate SoldHit(e: Option<Node>)
  {
    e.Some? && Contains(Lower(TextOf(e.value)), "sold") && FirstDigits(TextOf(e.value)).Some?
  }

  /**
   * The sales count is the first number in the earliest selector's element that mentions "sold"
   * and has a digit; there is none when no selector's element does both.
   */
  lemma SoldCountNeedsSold(eng: Engine, soup: Node)
    ensures FirstSome(SoldSelectors, SoldProbe(eng, soup)).None? <==>
      forall j :: 0 <= j < |SoldSelectors| ==> !SoldHit(SelectOne(eng, soup, SoldSelectors[j]))
    ensures FirstSome(SoldSelectors, SoldProbe(eng, soup)).Some? ==>
      FirstSome(SoldSelectors, SoldProbe(eng, soup)).value >= 0 &&
      exists k :: 0 <= k < |SoldSelectors| && SoldHit(SelectOne(eng, soup, SoldSelectors[k])) &&
        FirstSome(SoldSelectors, SoldProbe(eng, soup)) == FirstInteger(TextOf(SelectOne(eng, soup, SoldSelectors[k]).value)) &&
        forall j :: 0 <= j < k ==> !SoldHit(SelectOne(eng, soup, SoldSelectors[j]))
  {
    assert forall j :: 0 <= j < |SoldSelectors| ==>
      (SoldProbe(eng, soup)(SoldSelectors[j]).Some? <==> SoldHit(SelectOne(eng, soup, SoldSelectors[j])));
    FirstSomeNone(SoldSelectors, SoldProbe(eng, soup));
    if FirstSome(SoldSelectors, SoldProbe(eng, soup)).Some? {
      var k := FirstSomeWitness(SoldSelectors, SoldProbe(eng, soup));
    }
  }

  /** The earliest selector whose element mentions "sold" and has a digit gives the sales count: its first number. */
  lemma SoldCountAt(eng: Engine, soup: Node, k: nat)
    requires k < |SoldSelectors| && SoldHit(SelectOne(eng, soup, SoldSelectors[k]))
    requires forall j :: 0 <= j < k ==> !SoldHit(SelectOne(eng, soup, SoldSelectors[j]))
    ensures FirstSome(SoldSelectors, SoldProbe(eng, soup)) ==
      Some(DigitsValue(FirstDigits(TextOf(SelectOne(eng, soup, SoldSelectors[k]).value)).value))
  {
    assert forall j :: 0 <= j < k ==> SoldProbe(eng, soup)(SoldSelectors[j]).None?;
    FirstSomeAt(SoldSelectors, SoldProbe(eng, soup), k);
  }
}
