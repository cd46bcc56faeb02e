/** Seller of the live scraper: store link and name, store rating, followers and years in business. */
module LiveSeller {
  import opened Values
  import opened Strings
  import opened Sequences
  import opened Document

  const StoreLinkSelector: Selector := "a[href*=\"/store/\"], .store-link, .seller-link"
  const StoreNameSelector: Selector := ".store-name, .seller-name"
  const StoreRatingSelector: Selector := ".store-rating, .seller-rating"
  const FollowersSelector: Selector := ".store-followers, .follower-count"
  const YearsSelector: Selector := ".store-years, .years-in-business"

  /**
   * The store name inside a store link: the text of its name element, else the link's own text
   * when that is non-empty before stripping (so a link of blanks yields the empty name).
   */
  function StoreNameOf(eng: Engine, link: Node): Option<string>
  {
    match SelectOne(eng, link, StoreNameSelector)
    case Some(name) => Some(StrippedText(name))
    case None => if TextOf(link) != [] then Some(StrippedText(link)) else None
  }

  /** A number read from the first element `sel` matches, by `read` on its whole text. */
  function NumberIn<T>(eng: Engine, soup: Node, sel: Selector, read: string -> Option<T>): Option<T>
  {
    match SelectOne(eng, soup, sel)
    case Some(e) => read(TextOf(e))
    case None => None
  }

  function SellerOf(link: Option<(string, Option<string>)>, rating: Option<real>, followers: Option<int>,
                    years: Option<int>): Mapping
  {
    var m0 := if link.Some? then Put(map["store_url" := Str(link.value.0)], "store_name", StrOf(link.value.1)) else map[];
    var m1 := Put(m0, "store_rating", FloatOf(rating));
    var m2 := Put(m1, "followers", IntOf(followers));
    Put(m2, "years_in_business", IntOf(years))
  }

  /** The store link's `href` (empty when missing) and the store name. */
  function LinkOf(eng: Engine, link: Option<Node>): Option<(string, Option<string>)>
  {
    if link.Some? then Some((AttrOr(link.value, "href", ""), StoreNameOf(eng, link.value))) else None
  }

  function Seller(eng: Engine, soup: Node): Mapping
  {
    SellerOf(LinkOf(eng, SelectOne(eng, soup, StoreLinkSelector)),
             NumberIn(eng, soup, StoreRatingSelector, FirstNumber),
             NumberIn(eng, soup, FollowersSelector, FirstInteger),
             NumberIn(eng, soup, YearsSelector, FirstInteger))
  }

  method BuildSeller(link: Option<(string, Option<string>)>, rating: Option<real>, followers: Option<int>,
                     years: Option<int>) returns (seller: Mapping)
    ensures seller == SellerOf(link, rating, followers, years)
  {
    seller := map[];
    if link.Some? {
      seller := seller["store_url" := Str(link.value.0)];
      seller := Store(seller, "store_name", StrOf(link.value.1));
    }
    seller := Store(seller, "store_rating", FloatOf(rating));
    seller := Store(seller, "followers", IntOf(followers));
    seller := Store(seller, "years_in_business", IntOf(years));
  }

  method ExtractSellerInfo(eng: Engine, soup: Node) returns (seller: Mapping)
    ensures seller == Seller(eng, soup)
  {
    seller := BuildSeller(LinkOf(eng, SelectOne(eng, soup, StoreLinkSelector)),
                          NumberIn(eng, soup, StoreRatingSelector, FirstNumber),
                          NumberIn(eng, soup, FollowersSelector, FirstInteger),
                          NumberIn(eng, soup, YearsSelector, FirstInteger));
  }

  /** A store name is only ever stored with the store URL, and both come from a store link. */
  lemma StoreNameNeedsLink(link: Option<(string, Option<string>)>, rating: Option<real>, followers: Option<int>,
                           years: Option<int>)
    ensures "store_url" in SellerOf(link, rating, followers, years) <==> link.Some?
    ensures "store_name" in SellerOf(link, rating, followers, years) <==> link.Some? && link.value.1.Some?
  {
  }

  /** A link without a name element but with text stores that text stripped, even when it strips to nothing. */
  lemma StoreNameFromLinkText(eng: Engine, link: Node)
    requires SelectOne(eng, link, StoreNameSelector).None? && TextOf(link) != []
    ensures StoreNameOf(eng, link) == Some(StrippedText(link))
  {
  }

  /** The counts are stored as integers and the rating as a number, each exactly when it was read. */
  lemma SellerValues(link: Option<(string, Option<string>)>, rating: Option<real>, followers: Option<int>,
                     years: Option<int>)
    ensures "followers" in SellerOf(link, rating, followers, years) <==> followers.Some?
    ensures followers.Some? ==> SellerOf(link, rating, followers, years)["followers"] == Int(followers.value)
    ensures "years_in_business" in SellerOf(link, rating, followers, years) <==> years.Some?
    ensures years.Some? ==> SellerOf(link, rating, followers, years)["years_in_business"] == Int(years.value)
    ensures "store_rating" in SellerOf(link, rating, followers, years) <==> rating.Some?
    ensures rating.Some? ==> SellerOf(link, rating, followers, years)["store_rating"] == Float(rating.value)
  {
  }

  /**
   * The followers count is there exactly when its element is found and its text holds a digit,
   * and the counts and the rating read are never negative.
   */
  lemma SellerNumbers(eng: Engine, soup: Node)
    ensures NumberIn(eng, soup, FollowersSelector, FirstInteger).Some? <==>
      SelectOne(eng, soup, FollowersSelector).Some? && FirstDigits(TextOf(SelectOne(eng, soup, FollowersSelector).value)).Some?
    ensures NumberIn(eng, soup, FollowersSelector, FirstInteger).Some? ==>
      NumberIn(eng, soup, FollowersSelector, FirstInteger).value >= 0
    ensures NumberIn(eng, soup, YearsSelector, FirstInteger).Some? ==> NumberIn(eng, soup, YearsSelector, FirstInteger).value >= 0
    ensures NumberIn(eng, soup, StoreRatingSelector, FirstNumber).Some? ==>
      NumberIn(eng, soup, StoreRatingSelector, FirstNumber).value >= 0.0
  {
  }
}
