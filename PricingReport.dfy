/**
 * The counting and filtering part of the analyzer's `analyze_pricing`: which prices, currencies
 * and discounts are taken from the loaded records, and the statistics that need no floating-point
 * arithmetic (how many, smallest, largest, price buckets, currency counts).
 *
 * As written, the analysis reads `current_price` as a dict with `value` and `currency`, but both
 * scrapers store the current price as a string, so `.get` on it raises AttributeError and the whole
 * analysis fails on any scraped record that has a price.  `ReadCurrentAsWritten` is that code;
 * `ReadCurrent` treats a current price that is not a dict as no price, and the analysis uses it.
 */
module PricingReport {
  import opened Values
  import opened Sequences
  import opened Counting
  import opened PyValues
  import Buckets
  import LivePricing
  import LiveRecord
  import OfflinePricing
  import OfflineRecord

  /** What one product contributes: a price, the currency counted with it, a discount. */
  datatype PriceRead = PriceRead(price: Option<real>, currency: Option<Value>, discount: Option<real>)

  /**
   * `current_price['value']` and `current_price.get('currency', 'Unknown')` from a dict: a price
   * when the value is truthy and `float()` reads it; its currency is counted unless it cannot be
   * a `Counter` key (the TypeError is caught after the price was already kept).
   */
  function CurrentFromDict(py: Py, fields: Mapping): (r: (Option<real>, Option<Value>))
    ensures r.1.Some? ==> r.0.Some? && Hashable(r.1.value)
    ensures r.0.Some? ==> "value" in fields && Truthy(fields["value"])
  {
    var value := Lookup(fields, "value", Null);
    if !Truthy(value) then (None, None)
    else
      match ToFloat(py, value)
      case None => (None, None)
      case Some(x) =>
        var currency := Lookup(fields, "currency", Str("Unknown"));
        (Some(x), if Hashable(currency) then Some(currency) else None)
  }

  /** As written: `current_price.get('value')` raises AttributeError unless the current price is a dict. */
  function ReadCurrentAsWritten(py: Py, current: Value): Outcome<(Option<real>, Option<Value>)>
  {
    if current.Dict? then Done(CurrentFromDict(py, current.fields)) else Failed(AttributeError)
  }

  /** Corrected: a current price that is not a dict, such as the string the scrapers store, gives no price. */
  function ReadCurrent(py: Py, current: Value): Outcome<(Option<real>, Option<Value>)>
  {
    if current.Dict? then Done(CurrentFromDict(py, current.fields)) else Done((None, None))
  }

  function AsWrittenReader(py: Py): Value -> Outcome<(Option<real>, Option<Value>)>
  {
    c => ReadCurrentAsWritten(py, c)
  }

  function CorrectedReader(py: Py): Value -> Outcome<(Option<real>, Option<Value>)>
  {
    c => ReadCurrent(py, c)
  }

  /**
   * One product of the loop: `product.get('pricing', {})` and `pricing.get(...)` raise
   * AttributeError on a non-dict; the current price is read by `readCurrent`; a truthy
   * `discount_percentage` must be a string.
   */
  function ReadPricingBy(py: Py, readCurrent: Value -> Outcome<(Option<real>, Option<Value>)>, product: Value): Outcome<PriceRead>
  {
    if !product.Dict? then Failed(AttributeError)
    else
      var pricing := Lookup(product.fields, "pricing", EmptyDict);
      if !pricing.Dict? then Failed(AttributeError)
      else
        match readCurrent(Lookup(pricing.fields, "current_price", EmptyDict))
        case Failed(f) => Failed(f)
        case Done(pc) =>
          match ReadPercent(py, Lookup(pricing.fields, "discount_percentage", Null))
          case Failed(f) => Failed(f)
          case Done(discount) => Done(PriceRead(pc.0, pc.1, discount))
  }

  /** The lists and the counter the loop fills. */
  datatype PricingScan = PricingScan(prices: seq<real>, currencies: seq<Value>, discounts: seq<real>)

  function Include(scan: PricingScan, read: PriceRead): PricingScan
  {
    PricingScan(scan.prices + Listed(read.price), scan.currencies + Listed(read.currency),
                scan.discounts + Listed(read.discount))
  }

  /** The loop over the products: the first uncaught exception ends it. */
  function ScanBy(py: Py, readCurrent: Value -> Outcome<(Option<real>, Option<Value>)>, products: seq<Value>): Outcome<PricingScan>
  {
    if products == [] then Done(PricingScan([], [], []))
    else
      match ScanBy(py, readCurrent, products[..|products| - 1])
      case Failed(f) => Failed(f)
      case Done(scan) =>
        match ReadPricingBy(py, readCurrent, products[|products| - 1])
        case Failed(f) => Failed(f)
        case Done(read) => Done(Include(scan, read))
  }

  function ScanPricingAsWritten(py: Py, products: seq<Value>): Outcome<PricingScan>
  {
    ScanBy(py, AsWrittenReader(py), products)
  }

  function ScanPricing(py: Py, products: seq<Value>): Outcome<PricingScan>
  {
    ScanBy(py, CorrectedReader(py), products)
  }

  // ---------------------------------------------------------------------------------------------
  // The analysis

  /** The smallest of the values (`min`). */
  function Min(xs: seq<real>): (m: real)
    requires xs != []
    ensures m in xs
    ensures forall x :: x in xs ==> m <= x
  {
    if |xs| == 1 then xs[0]
    else
      var rest := Min(xs[1..]);
      assert forall x :: x in xs ==> x == xs[0] || x in xs[1..];
      if xs[0] <= rest then xs[0] else rest
  }

  /** The largest of the values (`max`). */
  function Max(xs: seq<real>): (m: real)
    requires xs != []
    ensures m in xs
    ensures forall x :: x in xs ==> x <= m
  {
    if |xs| == 1 then xs[0]
    else
      var rest := Max(xs[1..]);
      assert forall x :: x in xs ==> x == xs[0] || x in xs[1..];
      if xs[0] >= rest then xs[0] else rest
  }

  /** `price_statistics` without its mean and median. */
  datatype PriceStatistics = PriceStatistics(minPrice: real, maxPrice: real, priceRanges: map<string, nat>)

  /** `discount_statistics` without its mean and percentage. */
  datatype DiscountStatistics = DiscountStatistics(minDiscount: real, maxDiscount: real, productsWithDiscount: nat)

  /** The analysis; a statistics entry that is `{}` in the source is None here. */
  datatype PricingAnalysis = PricingAnalysis(
    totalProductsWithPricing: nat,
    priceStatistics: Option<PriceStatistics>,
    currencyDistribution: seq<(Value, nat)>,
    discountStatistics: Option<DiscountStatistics>)

  function AnalysisOf(scan: PricingScan): PricingAnalysis
  {
    PricingAnalysis(
      |scan.prices|,
      if scan.prices == [] then None
      else Some(PriceStatistics(Min(scan.prices), Max(scan.prices), Buckets.PriceRanges(scan.prices))),
      CounterItems(scan.currencies),
      if scan.discounts == [] then None
      else Some(DiscountStatistics(Min(scan.discounts), Max(scan.discounts), |scan.discounts|)))
  }

  /** `analyze_pricing()` over the loaded products, with the corrected reading of the current price. */
  function PricingOutcome(py: Py, products: seq<Value>): Outcome<PricingAnalysis>
  {
    match ScanPricing(py, products)
    case Failed(f) => Failed(f)
    case Done(scan) => Done(AnalysisOf(scan))
  }

  /** A failure in the first `i` products is the failure of the whole loop. */
  lemma {:induction false} ScanFailureStays(py: Py, readCurrent: Value -> Outcome<(Option<real>, Option<Value>)>, products: seq<Value>, i: nat)
    requires i <= |products| && ScanBy(py, readCurrent, products[..i]).Failed?
    ensures ScanBy(py, readCurrent, products) == ScanBy(py, readCurrent, products[..i])
    decreases |products| - i
  {
    if i < |products| {
      assert products[..i + 1][..i] == products[..i];
      ScanFailureStays(py, readCurrent, products, i + 1);
    } else {
      assert products[..i] == products;
    }
  }

  /** The loop of `analyze_pricing`: prices, currencies and discounts appended product by product. */
  method ScanProducts(py: Py, products: seq<Value>) returns (r: Outcome<PricingScan>)
    ensures r == ScanPricing(py, products)
  {
    var prices: seq<real> := [];
    var currencies: seq<Value> := [];
    var discounts: seq<real> := [];
    for i := 0 to |products|
      invariant ScanPricing(py, products[..i]) == Done(PricingScan(prices, currencies, discounts))
    {
      assert products[..i + 1][..i] == products[..i];
      var read := ReadPricingBy(py, CorrectedReader(py), products[i]);
      if read.Failed? {
        ScanFailureStays(py, CorrectedReader(py), products, i + 1);
        return Failed(read.fault);
      }
      prices := prices + Listed(read.value.price);
      currencies := currencies + Listed(read.value.currency);
      discounts := discounts + Listed(read.value.discount);
    }
    assert products[..|products|] == products;
    r := Done(PricingScan(prices, currencies, discounts));
  }

  /** `analyze_pricing()`: the loop, then the statistics of what it read. */
  method AnalyzePricing(py: Py, products: seq<Value>) returns (r: Outcome<PricingAnalysis>)
    ensures r == PricingOutcome(py, products)
  {
    var scanned := ScanProducts(py, products);
    if scanned.Failed? {
      return Failed(scanned.fault);
    }
    var prices, currencies, discounts := scanned.value.prices, scanned.value.currencies, scanned.value.discounts;
    var priceStatistics: Option<PriceStatistics> := None;
    if prices != [] {
      var ranges := Buckets.CategorizePrices(prices);
      priceStatistics := Some(PriceStatistics(Min(prices), Max(prices), ranges));
    }
    var discountStatistics: Option<DiscountStatistics> := None;
    if discounts != [] {
      discountStatistics := Some(DiscountStatistics(Min(discounts), Max(discounts), |discounts|));
    }
    r := Done(PricingAnalysis(|prices|, priceStatistics, CounterItems(currencies), discountStatistics));
  }

  // ---------------------------------------------------------------------------------------------
  // What the analysis promises

  /** Every currency counted came with a price, and at most one price and one discount come from each product. */
  lemma {:induction false} ScanBounds(py: Py, readCurrent: Value -> Outcome<(Option<real>, Option<Value>)>, products: seq<Value>)
    requires forall c :: readCurrent(c).Done? ==> (readCurrent(c).value.1.Some? ==> readCurrent(c).value.0.Some?)
    requires ScanBy(py, readCurrent, products).Done?
    ensures |ScanBy(py, readCurrent, products).value.currencies| <= |ScanBy(py, readCurrent, products).value.prices| <= |products|
    ensures |ScanBy(py, readCurrent, products).value.discounts| <= |products|
  {
    if products != [] {
      ScanBounds(py, readCurrent, products[..|products| - 1]);
    }
  }

  /**
   * `total_products_with_pricing` is the number of prices read, at most one per product;
   * `price_statistics` and `discount_statistics` stay empty exactly when nothing was read; the
   * smallest and largest are read values bounding all others; the six price buckets share out
   * all the prices; the currency counts add up to no more than the prices.
   */
  lemma PricingSpec(py: Py, products: seq<Value>)
    requires PricingOutcome(py, products).Done?
    ensures var a := PricingOutcome(py, products).value; var scan := ScanPricing(py, products).value;
      && a.totalProductsWithPricing == |scan.prices| <= |products|
      && (a.priceStatistics.None? <==> scan.prices == [])
      && (a.discountStatistics.None? <==> scan.discounts == [])
      && (a.priceStatistics.Some? ==>
            && a.priceStatistics.value.minPrice in scan.prices && a.priceStatistics.value.maxPrice in scan.prices
            && (forall x :: x in scan.prices ==> a.priceStatistics.value.minPrice <= x <= a.priceStatistics.value.maxPrice))
      && (a.discountStatistics.Some? ==>
            && a.discountStatistics.value.productsWithDiscount == |scan.discounts| <= |products|
            && (forall x :: x in scan.discounts ==>
                  a.discountStatistics.value.minDiscount <= x <= a.discountStatistics.value.maxDiscount))
  {
    ScanBounds(py, CorrectedReader(py), products);
  }

  /** The six price ranges together count every price once. */
  lemma PriceRangesTotal(py: Py, products: seq<Value>)
    requires PricingOutcome(py, products).Done? && PricingOutcome(py, products).value.priceStatistics.Some?
    ensures var a := PricingOutcome(py, products).value; var ranges := a.priceStatistics.value.priceRanges;
      ranges.Keys == Buckets.PriceKeys &&
      ranges["$0-10"] + ranges["$10-25"] + ranges["$25-50"] + ranges["$50-100"] + ranges["$100-250"] + ranges["$250+"]
        == a.totalProductsWithPricing
  {
    var scan := ScanPricing(py, products).value;
    Buckets.PriceCountsSum(scan.prices);
  }

  /** Each currency appears once in the distribution, with the number of prices counted in it. */
  lemma CurrencyDistribution(py: Py, products: seq<Value>)
    requires PricingOutcome(py, products).Done?
    ensures var a := PricingOutcome(py, products).value; var scan := ScanPricing(py, products).value;
      && (forall k :: 0 <= k < |a.currencyDistribution| ==>
            a.currencyDistribution[k].1 == Occurrences(scan.currencies, a.currencyDistribution[k].0) > 0)
      && (forall c :: c in scan.currencies ==> exists k :: 0 <= k < |a.currencyDistribution| && a.currencyDistribution[k].0 == c)
      && (forall i, j :: 0 <= i < j < |a.currencyDistribution| ==> a.currencyDistribution[i].0 != a.currencyDistribution[j].0)
  {
    var scan := ScanPricing(py, products).value;
    CounterItemsSpec(scan.currencies);
    forall k | 0 <= k < |CounterItems(scan.currencies)|
      ensures Occurrences(scan.currencies, CounterItems(scan.currencies)[k].0) > 0
    {
      OccursIffMember(scan.currencies, CounterItems(scan.currencies)[k].0);
    }
  }

  // ---------------------------------------------------------------------------------------------
  // The reading as written, and the correction

  /** Whenever the code as written gets through a product, the corrected reading gets the same. */
  lemma {:induction false} CorrectedAgrees(py: Py, products: seq<Value>)
    requires ScanPricingAsWritten(py, products).Done?
    ensures ScanPricing(py, products) == ScanPricingAsWritten(py, products)
  {
    if products != [] {
      CorrectedAgrees(py, products[..|products| - 1]);
    }
  }

  /** A product the corrected loop gets through: a dict, with a dict `pricing`, whose truthy `discount_percentage` is a string. */
  predicate PricingReadable(product: Value)
  {
    && product.Dict?
    && Lookup(product.fields, "pricing", EmptyDict).Dict?
    && var d := Lookup(Lookup(product.fields, "pricing", EmptyDict).fields, "discount_percentage", Null);
       !Truthy(d) || d.Str?
  }

  /** The corrected reading gets through a product exactly when it is readable. */
  lemma ReadableRead(py: Py, product: Value)
    ensures ReadPricingBy(py, CorrectedReader(py), product).Done? <==> PricingReadable(product)
  {
  }

  /** The corrected analysis fails exactly when some product is not readable. */
  lemma {:induction false} CorrectedFailsOnlyOnMalformed(py: Py, products: seq<Value>)
    ensures ScanPricing(py, products).Done? <==> forall p :: p in products ==> PricingReadable(p)
  {
    if products != [] {
      var init := products[..|products| - 1];
      CorrectedFailsOnlyOnMalformed(py, init);
      ReadableRead(py, products[|products| - 1]);
      assert forall p :: p in products <==> p in init || p == products[|products| - 1];
    }
  }

  /** As written, a product whose `pricing` holds a string `current_price` raises AttributeError. */
  lemma StringPriceFails(py: Py, product: Value)
    requires product.Dict? && "pricing" in product.fields && product.fields["pricing"].Dict?
    requires var pricing := product.fields["pricing"].fields; "current_price" in pricing && pricing["current_price"].Str?
    ensures ReadPricingBy(py, AsWrittenReader(py), product) == Failed(AttributeError)
  {
  }

  /** As written, one such product anywhere among the loaded ones ends the whole analysis with AttributeError. */
  lemma {:induction false} StringPriceEndsAnalysis(py: Py, products: seq<Value>, i: nat)
    requires i < |products| && products[i].Dict? && "pricing" in products[i].fields && products[i].fields["pricing"].Dict?
    requires var pricing := products[i].fields["pricing"].fields; "current_price" in pricing && pricing["current_price"].Str?
    ensures ScanPricingAsWritten(py, products).Failed?
  {
    StringPriceFails(py, products[i]);
    var prefix := products[..i + 1];
    assert prefix[..i] == products[..i] && prefix[i] == products[i];
    ScanFailureStays(py, AsWrittenReader(py), products, i + 1);
  }

  /** A record whose pricing holds a string current price and no discount percentage. */
  lemma ScrapedPricing(py: Py, record: Mapping, pricing: Mapping)
    requires "pricing" in record && record["pricing"] == Dict(pricing)
    requires "current_price" in pricing && pricing["current_price"].Str? && "discount_percentage" !in pricing
    ensures ReadPricingBy(py, AsWrittenReader(py), Dict(record)) == Failed(AttributeError)
    ensures ReadPricingBy(py, CorrectedReader(py), Dict(record)) == Done(PriceRead(None, None, None))
  {
    StringPriceFails(py, Dict(record));
  }

  /** The live scraper's pricing with a current price stores it as a string, and has no discount percentage. */
  lemma LivePriceIsString(current: string, original: Option<string>, bulk: Option<string>, discount: Option<string>, tax: Option<string>)
    ensures var pricing := LivePricing.PricingOf(Some(current), original, bulk, discount, tax);
      "current_price" in pricing && pricing["current_price"] == Str(current) && "discount_percentage" !in pricing
  {
    LivePricing.PricingKeys(Some(current), original, bulk, discount, tax);
  }

  /** The offline scraper's pricing with a current price stores it as a string, and has no discount percentage. */
  lemma OfflinePriceIsString(current: string, bulk: Option<string>, original: Option<string>, tax: Option<string>)
    ensures var pricing := OfflinePricing.PricingOf(Some(current), bulk, original, tax);
      "current_price" in pricing && pricing["current_price"] == Str(current) && "discount_percentage" !in pricing
  {
    OfflinePricing.PricingKeys(Some(current), bulk, original, tax);
  }

  /**
   * As written, a live record with a current price ends the analysis with AttributeError;
   * the corrected reading gets through it and takes nothing from it.
   */
  lemma LiveRecordPricing(py: Py, url: string, p: LiveRecord.Product, c: LiveRecord.Context, timestamp: string, language: string,
                          current: string, original: Option<string>, bulk: Option<string>, discount: Option<string>, tax: Option<string>)
    requires p.pricing == LivePricing.PricingOf(Some(current), original, bulk, discount, tax)
    ensures ReadPricingBy(py, AsWrittenReader(py), Dict(LiveRecord.RecordOf(url, p, c, timestamp, language))) == Failed(AttributeError)
    ensures ReadPricingBy(py, CorrectedReader(py), Dict(LiveRecord.RecordOf(url, p, c, timestamp, language))) == Done(PriceRead(None, None, None))
  {
    LivePriceIsString(current, original, bulk, discount, tax);
    ScrapedPricing(py, LiveRecord.RecordOf(url, p, c, timestamp, language), p.pricing);
  }

  /** The same for the offline scraper's record. */
  lemma OfflineRecordPricing(py: Py, pr: OfflineRecord.Product, cx: OfflineRecord.Context, timestamp: string,
                             current: string, bulk: Option<string>, original: Option<string>, tax: Option<string>)
    requires pr.pricing == OfflinePricing.PricingOf(Some(current), bulk, original, tax)
    ensures ReadPricingBy(py, AsWrittenReader(py), Dict(OfflineRecord.RecordOf(pr, cx, timestamp))) == Failed(AttributeError)
    ensures ReadPricingBy(py, CorrectedReader(py), Dict(OfflineRecord.RecordOf(pr, cx, timestamp))) == Done(PriceRead(None, None, None))
  {
    OfflinePriceIsString(current, bulk, original, tax);
    ScrapedPricing(py, OfflineRecord.RecordOf(pr, cx, timestamp), pr.pricing);
  }
}
