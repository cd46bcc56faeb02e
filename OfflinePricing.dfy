/** Pricing of the offline scraper: the current price with its one fallback, bulk, original and tax notes. */
module OfflinePricing {
  import opened Values
  import opened Strings
  import opened Sequences
  import opened Document
  import opened OfflineQueries

  const PriceClass: string := "product-price-value"
  const AltPriceClass: string := "price--currentPriceText--V8_y_b5"
  const OriginalPriceClass: string := "price--originalPrice"
  const BulkStyle: string := "color: #D3031C"
  const BulkMarker: string := "za szt"
  /** The tax pattern `Cena bez podatku|bez podatku` is a search for its second alternative (see `TaxPatternIsWord`). */
  const TaxWord: string := "bez podatku"

  /**
   * The current price from the first lookup and the alternative one: the alternative is used
   * only when the first found nothing or an empty text, and then only when it found something.
   */
  function CurrentPriceOf(first: Option<string>, alt: Option<string>): Option<string>
  {
    if first.Some? && first.value != [] then first
    else if alt.Some? then alt
    else first
  }

  /** A `span` whose `style` mentions the bulk colour (`style=lambda x: x and 'color: #D3031C' in x`). */
  function BulkStyleTest(): Node -> bool
  {
    (n: Node) => n.Element? && n.tag == "span" && Attr(n, "style").Some? && Contains(Attr(n, "style").value, BulkStyle)
  }

  /** The first bulk-coloured span, stripped, when its text mentions "za szt"; later spans are not looked at. */
  function BulkPriceOf(span: Option<Node>): Option<string>
  {
    if span.Some? && Contains(TextOf(span.value), BulkMarker) then Some(StrippedText(span.value)) else None
  }

  function PricingOf(current: Option<string>, bulk: Option<string>, original: Option<string>, tax: Option<string>): Mapping
  {
    var m0 := Put(map[], "current_price", StrOf(current));
    var m1 := Put(m0, "bulk_price", StrOf(bulk));
    var m2 := Put(m1, "original_price", StrOf(original));
    Put(m2, "tax_info", StrOf(tax))
  }

  /** `extract_pricing`. */
  function Pricing(soup: Node): Mapping
  {
    PricingOf(CurrentPriceOf(FoundText(soup, ClassTest("span", PriceClass)), FoundText(soup, ClassTest("span", AltPriceClass))),
              BulkPriceOf(Find(soup, BulkStyleTest())),
              FoundText(soup, ClassTest("span", OriginalPriceClass)),
              FoundText(soup, WordTest("span", TaxWord)))
  }

  /** The main price, then the alternative lookup when `pricing.get('current_price')` is missing or empty. */
  method ReadCurrentPrice(soup: Node) returns (pricing: Mapping)
    ensures pricing == Put(map[], "current_price",
      StrOf(CurrentPriceOf(FoundText(soup, ClassTest("span", PriceClass)), FoundText(soup, ClassTest("span", AltPriceClass)))))
  {
    var first := FoundText(soup, ClassTest("span", PriceClass));
    pricing := Store(map[], "current_price", StrOf(first));
    assert HasTruthy(pricing, "current_price") <==> first.Some? && first.value != [];
    if !HasTruthy(pricing, "current_price") {
      var alt := FoundText(soup, ClassTest("span", AltPriceClass));
      if alt.Some? {
        pricing := pricing["current_price" := Str(alt.value)];
      }
    }
  }

  method ExtractPricing(soup: Node) returns (pricing: Mapping)
    ensures pricing == Pricing(soup)
  {
    pricing := ReadCurrentPrice(soup);
    pricing := Store(pricing, "bulk_price", StrOf(BulkPriceOf(Find(soup, BulkStyleTest()))));
    pricing := Store(pricing, "original_price", StrOf(FoundText(soup, ClassTest("span", OriginalPriceClass))));
    pricing := Store(pricing, "tax_info", StrOf(FoundText(soup, WordTest("span", TaxWord))));
  }

  /**
   * The alternative price is not consulted when the first lookup found a non-empty text; it
   * replaces a missing or empty first result when it found something; there is no price only
   * when neither lookup found an element.
   */
  lemma PriceFallback(first: Option<string>, alt: Option<string>)
    ensures first.Some? && first.value != [] ==> forall alt' :: CurrentPriceOf(first, alt') == first
    ensures (first.None? || first.value == []) && alt.Some? ==> CurrentPriceOf(first, alt) == alt
    ensures CurrentPriceOf(first, alt).None? <==> first.None? && alt.None?
    ensures CurrentPriceOf(first, alt) == first || CurrentPriceOf(first, alt) == alt
  {
  }

  /** `re.compile(r'Cena bez podatku|bez podatku')` matches exactly the strings containing "bez podatku". */
  lemma TaxPatternIsWord(s: string)
    ensures Contains(s, "Cena bez podatku") || Contains(s, TaxWord) <==> Contains(s, TaxWord)
  {
    if Contains(s, "Cena bez podatku") {
      ContainsTail(s, "Cena bez podatku", 5);
      assert "Cena bez podatku"[5..] == TaxWord;
    }
  }

  /** A bulk price needs the first bulk-coloured span to mention "za szt". */
  lemma BulkNeedsMarker(span: Option<Node>)
    ensures BulkPriceOf(span).Some? <==> span.Some? && Contains(TextOf(span.value), BulkMarker)
  {
  }

  /** Each key of `pricing` is present exactly when its source gave a value; no currency is derived. */
  lemma PricingKeys(current: Option<string>, bulk: Option<string>, original: Option<string>, tax: Option<string>)
    ensures forall key :: key in PricingOf(current, bulk, original, tax) ==>
      key == "current_price" || key == "bulk_price" || key == "original_price" || key == "tax_info"
    ensures "current_price" in PricingOf(current, bulk, original, tax) <==> current.Some?
    ensures "bulk_price" in PricingOf(current, bulk, original, tax) <==> bulk.Some?
    ensures "original_price" in PricingOf(current, bulk, original, tax) <==> original.Some?
    ensures "tax_info" in PricingOf(current, bulk, original, tax) <==> tax.Some?
    ensures "currency" !in PricingOf(current, bulk, original, tax)
  {
  }
}
