/**
 * The counting and filtering part of the analyzer's `analyze_seller_data`: which seller ratings,
 * years in business, follower counts and seller names are taken from the loaded records, how many
 * sellers pass each threshold, and the ten most frequent seller names.
 */
module SellerReport {
  import opened Values
  import opened Sequences
  import opened Counting
  import opened PyValues
  import NumberText
  import LiveSeller

  /** What one product contributes. */
  datatype SellerRead = SellerRead(rating: Option<real>, years: Option<int>, followers: Option<int>, name: Option<Value>)

  /** `if n:` on an optional int: only a non-zero number is kept. */
  function NonZero(n: Option<int>): (r: Option<int>)
    ensures r.Some? <==> n.Some? && n.value != 0
    ensures r.Some? ==> r == n
  {
    if n.Some? && n.value != 0 then n else None
  }

  /**
   * One product's `seller_info`: `.get` on a non-dict raises AttributeError; a truthy `rating`
   * must be a string; `years_in_business` goes through `int()` and `followers` through
   * `_extract_number_from_text` (their ValueError and TypeError are caught); a `name` other than
   * `'Unknown'` is counted, and an unhashable one raises TypeError, which is not caught there.
   */
  function ReadSellerInfo(py: Py, info: Value): Outcome<SellerRead>
  {
    if !info.Dict? then Failed(AttributeError)
    else
      var fields := info.fields;
      match ReadPercent(py, Lookup(fields, "rating", Null))
      case Failed(f) => Failed(f)
      case Done(rating) =>
        var y := Lookup(fields, "years_in_business", Null);
        var years := if Truthy(y) then ToInt(y) else None;
        var fl := Lookup(fields, "followers", Null);
        var followers := if Truthy(fl) then NonZero(NumberText.NumberFromText(TextOf(py, fl))) else None;
        var name := Lookup(fields, "name", Str("Unknown"));
        if name == Str("Unknown") then Done(SellerRead(rating, years, followers, None))
        else if !Hashable(name) then Failed(TypeError)
        else Done(SellerRead(rating, years, followers, Some(name)))
  }

  /** `product.get('seller_info', {})` then the reading above. */
  function ReadSeller(py: Py, product: Value): Outcome<SellerRead>
  {
    if !product.Dict? then Failed(AttributeError)
    else ReadSellerInfo(py, Lookup(product.fields, "seller_info", EmptyDict))
  }

  /** The three lists and the counter the loop fills. */
  datatype SellerScan = SellerScan(ratings: seq<real>, years: seq<int>, followers: seq<int>, names: seq<Value>)

  function Include(scan: SellerScan, read: SellerRead): SellerScan
  {
    SellerScan(scan.ratings + Listed(read.rating), scan.years + Listed(read.years),
               scan.followers + Listed(read.followers), scan.names + Listed(read.name))
  }

  /** The loop over the products: the first uncaught exception ends it. */
  function ScanSellers(py: Py, products: seq<Value>): Outcome<SellerScan>
  {
    if products == [] then Done(SellerScan([], [], [], []))
    else
      match ScanSellers(py, products[..|products| - 1])
      case Failed(f) => Failed(f)
      case Done(scan) =>
        match ReadSeller(py, products[|products| - 1])
        case Failed(f) => Failed(f)
        case Done(read) => Done(Include(scan, read))
  }

  /** The counts of the analysis; a statistics entry that is `{}` in the source is None here. */
  datatype SellerAnalysis = SellerAnalysis(
    highRatedSellers: Option<nat>,
    experiencedSellers: Option<nat>,
    popularSellers: Option<nat>,
    topSellers: seq<(Value, nat)>)

  function HighRated(): real -> bool { r => r >= 95.0 }
  function Experienced(): int -> bool { y => y >= 5 }
  function Popular(): int -> bool { f => f >= 1000 }

  /** How many of `xs` satisfy `p`: `len([x for x in xs if p(x)])`, when there are any `xs`. */
  function CountOf<T>(xs: seq<T>, p: T -> bool): Option<nat>
  {
    if xs == [] then None else Some(|Filter(xs, p)|)
  }

  function AnalysisOf(scan: SellerScan): SellerAnalysis
  {
    SellerAnalysis(CountOf(scan.ratings, HighRated()), CountOf(scan.years, Experienced()),
                   CountOf(scan.followers, Popular()), MostCommon(scan.names, 10))
  }

  function SellerOutcome(py: Py, products: seq<Value>): Outcome<SellerAnalysis>
  {
    match ScanSellers(py, products)
    case Failed(f) => Failed(f)
    case Done(scan) => Done(AnalysisOf(scan))
  }

  /** A failure in the first `i` products is the failure of the whole loop. */
  lemma {:induction false} ScanFailureStays(py: Py, products: seq<Value>, i: nat)
    requires i <= |products| && ScanSellers(py, products[..i]).Failed?
    ensures ScanSellers(py, products) == ScanSellers(py, products[..i])
    decreases |products| - i
  {
    if i < |products| {
      assert products[..i + 1][..i] == products[..i];
      ScanFailureStays(py, products, i + 1);
    } else {
      assert products[..i] == products;
    }
  }

  /** The loop of `analyze_seller_data`. */
  method ScanProducts(py: Py, products: seq<Value>) returns (r: Outcome<SellerScan>)
    ensures r == ScanSellers(py, products)
  {
    var ratings: seq<real> := [];
    var years: seq<int> := [];
    var followers: seq<int> := [];
    var names: seq<Value> := [];
    for i := 0 to |products|
      invariant ScanSellers(py, products[..i]) == Done(SellerScan(ratings, years, followers, names))
    {
      assert products[..i + 1][..i] == products[..i];
      var read := ReadSeller(py, products[i]);
      if read.Failed? {
        ScanFailureStays(py, products, i + 1);
        return Failed(read.fault);
      }
      ratings := ratings + Listed(read.value.rating);
      years := years + Listed(read.value.years);
      followers := followers + Listed(read.value.followers);
      names := names + Listed(read.value.name);
    }
    assert products[..|products|] == products;
    r := Done(SellerScan(ratings, years, followers, names));
  }

  /** `analyze_seller_data()`: the loop, then the counts over what it read. */
  method AnalyzeSellers(py: Py, products: seq<Value>) returns (r: Outcome<SellerAnalysis>)
    ensures r == SellerOutcome(py, products)
  {
    var scanned := ScanProducts(py, products);
    if scanned.Failed? {
      return Failed(scanned.fault);
    }
    var scan := scanned.value;
    r := Done(SellerAnalysis(CountOf(scan.ratings, HighRated()), CountOf(scan.years, Experienced()),
                             CountOf(scan.followers, Popular()), MostCommon(scan.names, 10)));
  }

  // ---------------------------------------------------------------------------------------------
  // What the analysis promises

  /** No seller counted is `'Unknown'`, and each can be a `Counter` key. */
  lemma {:induction false} NamesKnown(py: Py, products: seq<Value>)
    requires ScanSellers(py, products).Done?
    ensures forall v :: v in ScanSellers(py, products).value.names ==> v != Str("Unknown") && Hashable(v)
  {
    if products != [] {
      NamesKnown(py, products[..|products| - 1]);
    }
  }

  /**
   * `top_sellers` lists at most ten sellers, none of them `'Unknown'`, each once and with the
   * number of products it was named on.
   */
  lemma TopSellers(py: Py, products: seq<Value>)
    requires SellerOutcome(py, products).Done?
    ensures var top := SellerOutcome(py, products).value.topSellers; var names := ScanSellers(py, products).value.names;
      && |top| <= 10
      && (forall k :: 0 <= k < |top| ==> top[k].0 != Str("Unknown") && Hashable(top[k].0) && top[k].1 == Occurrences(names, top[k].0))
      && (forall a, b :: 0 <= a < b < |top| ==> top[a].0 != top[b].0)
  {
    var names := ScanSellers(py, products).value.names;
    NamesKnown(py, products);
    MostCommonEntries(names, 10);
  }

  /** A seller left out of `top_sellers` was named no more often than any seller listed. */
  lemma TopSellersAreMostFrequent(py: Py, products: seq<Value>, seller: Value)
    requires SellerOutcome(py, products).Done?
    requires seller in ScanSellers(py, products).value.names
    requires forall j :: 0 <= j < |SellerOutcome(py, products).value.topSellers| ==> SellerOutcome(py, products).value.topSellers[j].0 != seller
    ensures forall k :: 0 <= k < |SellerOutcome(py, products).value.topSellers| ==>
      Occurrences(ScanSellers(py, products).value.names, seller) <= SellerOutcome(py, products).value.topSellers[k].1
  {
    var names := ScanSellers(py, products).value.names;
    assert SellerOutcome(py, products).value.topSellers == MostCommon(names, 10);
    MostCommonTop(names, 10, seller);
  }

  /** The threshold counts never exceed the number of values read, and each is absent only when none was. */
  lemma ThresholdCounts(py: Py, products: seq<Value>)
    requires SellerOutcome(py, products).Done?
    ensures var a := SellerOutcome(py, products).value; var scan := ScanSellers(py, products).value;
      && (a.highRatedSellers.None? <==> scan.ratings == [])
      && (a.highRatedSellers.Some? ==> a.highRatedSellers.value <= |scan.ratings| <= |products|)
      && (a.experiencedSellers.Some? ==> a.experiencedSellers.value <= |scan.years| <= |products|)
      && (a.popularSellers.Some? ==> a.popularSellers.value <= |scan.followers| <= |products|)
      && (forall f :: f in scan.followers ==> f > 0)
  {
    ScanBounds(py, products);
  }

  /** At most one value of each kind per product; follower counts are positive. */
  lemma {:induction false} ScanBounds(py: Py, products: seq<Value>)
    requires ScanSellers(py, products).Done?
    ensures var scan := ScanSellers(py, products).value;
      |scan.ratings| <= |products| && |scan.years| <= |products| && |scan.followers| <= |products| && |scan.names| <= |products|
    ensures forall f :: f in ScanSellers(py, products).value.followers ==> f > 0
  {
    if products != [] {
      ScanBounds(py, products[..|products| - 1]);
    }
  }

  /**
   * The live scraper's seller section has `store_rating` and `store_name` but neither `rating`
   * nor `name`: the analysis reads no rating and no seller name from it, the years as stored,
   * and the followers as their magnitude.
   */
  lemma LiveSellerRead(py: Py, link: Option<(string, Option<string>)>, rating: Option<real>, followers: Option<int>, years: Option<int>)
    ensures ReadSellerInfo(py, Dict(LiveSeller.SellerOf(link, rating, followers, years))) ==
      Done(SellerRead(None, NonZero(years),
                      if followers.Some? && followers.value != 0 then Some(if followers.value < 0 then -followers.value else followers.value) else None,
                      None))
  {
    var info := LiveSeller.SellerOf(link, rating, followers, years);
    LiveSellerKeys(link, rating, followers, years);
    if followers.Some? && followers.value != 0 {
      IntFollowers(py, followers.value);
    }
  }

  lemma LiveSellerKeys(link: Option<(string, Option<string>)>, rating: Option<real>, followers: Option<int>, years: Option<int>)
    ensures var info := LiveSeller.SellerOf(link, rating, followers, years);
      && "rating" !in info && "name" !in info
      && ("followers" in info <==> followers.Some?) && (followers.Some? ==> info["followers"] == Int(followers.value))
      && ("years_in_business" in info <==> years.Some?) && (years.Some? ==> info["years_in_business"] == Int(years.value))
  {
  }

  /** Products whose seller section has neither `rating` nor `name`, as the live scraper writes it. */
  predicate UnnamedSeller(product: Value)
  {
    && product.Dict?
    && Lookup(product.fields, "seller_info", EmptyDict).Dict?
    && "rating" !in Lookup(product.fields, "seller_info", EmptyDict).fields
    && "name" !in Lookup(product.fields, "seller_info", EmptyDict).fields
  }

  /** Over such products the analysis gets through, with no seller rating statistics and an empty `top_sellers`. */
  lemma {:induction false} UnnamedSellersNotRanked(py: Py, products: seq<Value>)
    requires forall p :: p in products ==> UnnamedSeller(p)
    ensures ScanSellers(py, products).Done?
    ensures ScanSellers(py, products).value.names == [] && ScanSellers(py, products).value.ratings == []
    ensures SellerOutcome(py, products).value.topSellers == [] && SellerOutcome(py, products).value.highRatedSellers.None?
  {
    if products != [] {
      UnnamedSellersNotRanked(py, products[..|products| - 1]);
      assert products[|products| - 1] in products;
    }
    assert MostCommon<Value>([], 10) == [];
  }
}
