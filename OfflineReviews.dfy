/** Reviews and ratings of the offline scraper: rating, review and sales counts, and the first reviews. */
module OfflineReviews {
  import opened Values
  import opened Strings
  import opened Sequences
  import opened Document
  import opened OfflineQueries
  import LiveReviews

  const ReviewCountClass: string := "reviewer--reviews--cx7Zs_V"
  const SoldClass: string := "reviewer--sold--ytPeoEy"
  const ReviewItemClass: string := "list--itemDesc--JcxNPy5"
  const ReviewerPattern: Pattern := "\\w+\\s+\\|\\s+\\d+"
  const ReviewTextClass: string := "list--itemReview--d9Z9Z5Z"
  const SkuClass: string := "list--itemSku--idEQSGC"
  const MaxReviews: nat := 10

  // ---------------------------------------------------------------------------------------------
  // One review

  function ReviewOf(reviewer: Option<string>, text: Option<string>, sku: Option<string>): Mapping
  {
    var m0 := Put(map[], "reviewer_info", StrOf(reviewer));
    var m1 := Put(m0, "review_text", StrOf(text));
    Put(m1, "sku", StrOf(sku))
  }

  /** A review element's mapping: the reviewer line, the review text and the SKU line, each when found. */
  function ParseReview(eng: Engine, review: Node): Mapping
  {
    ReviewOf(FoundText(review, StringTest(eng, "span", ReviewerPattern)),
             FoundText(review, ClassTest("div", ReviewTextClass)),
             FoundText(review, ClassTest("div", SkuClass)))
  }

  method ParseIndividualReview(eng: Engine, review: Node) returns (data: Mapping)
    ensures data == ParseReview(eng, review)
  {
    data := Store(map[], "reviewer_info", StrOf(FoundText(review, StringTest(eng, "span", ReviewerPattern))));
    data := Store(data, "review_text", StrOf(FoundText(review, ClassTest("div", ReviewTextClass))));
    data := Store(data, "sku", StrOf(FoundText(review, ClassTest("div", SkuClass))));
  }

  /** A review is empty, and so dropped, exactly when none of its three parts was found. */
  lemma EmptyReview(reviewer: Option<string>, text: Option<string>, sku: Option<string>)
    ensures ReviewOf(reviewer, text, sku) == map[] <==> reviewer.None? && text.None? && sku.None?
    ensures forall key :: key in ReviewOf(reviewer, text, sku) ==>
      key == "reviewer_info" || key == "review_text" || key == "sku"
  {
    var r := ReviewOf(reviewer, text, sku);
    if reviewer.Some? {
      assert "reviewer_info" in r;
    } else if text.Some? {
      assert "review_text" in r;
    } else if sku.Some? {
      assert "sku" in r;
    }
  }

  // ---------------------------------------------------------------------------------------------
  // Reviews of the product

  function ReviewProbe(eng: Engine): Node -> Option<Value>
  {
    review => if ParseReview(eng, review) != map[] then Some(Dict(ParseReview(eng, review))) else None
  }

  /** The review elements: `div`s with the review item class, in document order. */
  function ReviewItems(soup: Node): seq<Node>
  {
    FindAll(soup, ClassTest("div", ReviewItemClass))
  }

  /** The non-empty parses of the first ten review elements, in document order. */
  function IndividualReviews(eng: Engine, soup: Node): seq<Value>
  {
    Keep(Take(ReviewItems(soup), MaxReviews), ReviewProbe(eng))
  }

  /** The first integer in the stripped text of the first element `test` accepts. */
  function CountOf(soup: Node, test: Node -> bool): Option<int>
  {
    match FoundText(soup, test)
    case Some(t) => FirstInteger(t)
    case None => None
  }

  /** `reviews_and_ratings`; the rating is read exactly as the live scraper reads it. */
  function Reviews(eng: Engine, soup: Node): Mapping
  {
    LiveReviews.ReviewsOf(LiveReviews.Rating(soup), CountOf(soup, ClassTest("a", ReviewCountClass)),
                          CountOf(soup, ClassTest("span", SoldClass)), IndividualReviews(eng, soup))
  }

  /** One review element's contribution: its parse, unless that is empty. */
  method ReviewValue(eng: Engine, item: Node) returns (review: Option<Value>)
    ensures review == ReviewProbe(eng)(item)
  {
    var data := ParseIndividualReview(eng, item);
    review := if data != map[] then Some(Dict(data)) else None;
  }

  /** The loop over the review elements it is given, keeping the non-empty parses. */
  method ParseReviews(eng: Engine, items: seq<Node>) returns (individual: seq<Value>)
    ensures individual == Keep(items, ReviewProbe(eng))
  {
    individual := [];
    var i := 0;
    while i < |items|
      invariant 0 <= i <= |items|
      invariant individual == Keep(items[..i], ReviewProbe(eng))
    {
      KeepStep(items, i, ReviewProbe(eng));
      var review := ReviewValue(eng, items[i]);
      if review.Some? {
        individual := individual + [review.value];
      }
      i := i + 1;
    }
    assert items[..|items|] == items;
  }

  method ExtractReviewsAndRatings(eng: Engine, soup: Node) returns (reviews: Mapping)
    ensures reviews == Reviews(eng, soup)
  {
    var individual := ParseReviews(eng, Take(ReviewItems(soup), MaxReviews));
    reviews := Store(map[], "rating", FloatOf(LiveReviews.Rating(soup)));
    reviews := Store(reviews, "review_count", IntOf(CountOf(soup, ClassTest("a", ReviewCountClass))));
    reviews := Store(reviews, "sold_count", IntOf(CountOf(soup, ClassTest("span", SoldClass))));
    reviews := Store(reviews, "individual_reviews", NonEmptyList(individual));
  }

  /**
   * At most ten reviews are kept, each the non-empty parse of one of the first ten review
   * elements, and each such parse is kept.
   */
  lemma ReviewCap(eng: Engine, soup: Node)
    ensures |IndividualReviews(eng, soup)| <= MaxReviews
    ensures forall v :: v in IndividualReviews(eng, soup) <==>
      exists j :: 0 <= j < |ReviewItems(soup)| && j < MaxReviews && ReviewProbe(eng)(ReviewItems(soup)[j]) == Some(v)
  {
    KeepTake(ReviewItems(soup), MaxReviews, ReviewProbe(eng));
  }

  /** A kept review is a mapping with at least one of its three keys. */
  lemma ReviewProbeSpec(eng: Engine, review: Node, v: Value)
    ensures ReviewProbe(eng)(review) == Some(v) <==>
      ParseReview(eng, review) != map[] && v == Dict(ParseReview(eng, review))
  {
  }

  /** Counts are never negative and are present only when the element's text has digits. */
  lemma CountSpec(soup: Node, test: Node -> bool)
    ensures CountOf(soup, test).Some? <==> FoundText(soup, test).Some? && FirstDigits(FoundText(soup, test).value).Some?
    ensures CountOf(soup, test).Some? ==> CountOf(soup, test).value >= 0
  {
  }
}
