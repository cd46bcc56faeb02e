/** Pricing of the live scraper: current and original price cascades, bulk and tax notes, currency. */
module LivePricing {
  import opened Values
  import opened Strings
  import opened Sequences
  import opened Document

  const PriceSelectors: seq<Selector> := [
    "span.product-price-value",
    ".price--currentPriceText--V8_y_b5",
    ".pdp-comp-price-current",
    "[data-pl=\"product-price\"] .price--current--I3Zeidd span"]

  const OriginalPriceSelectors: seq<Selector> :=
    [".price--originalPrice", ".product-price-original", ".price--lineThrough"]

  const BulkPattern: Pattern := "za szt|per piece|pieces?"
  const TaxPattern: Pattern := "(?i)bez podatku|tax|VAT"
  const DiscountSelector: Selector := ".discount-percent, .sale-percent"

  const CurrencySymbols: string := "€$£¥₹₽"

  /** `re.search(r'^([A-Z]{3}|[€$£¥₹₽])', price).group(1)`: a leading ISO code or currency sign. */
  function LeadingCurrency(price: string): (r: Option<string>)
    ensures r.Some? ==> r.value <= price
    ensures r.Some? ==>
      (|r.value| == 3 && forall k :: 0 <= k < 3 ==> IsUpper(r.value[k])) ||
      (|r.value| == 1 && r.value[0] in CurrencySymbols)
  {
    if |price| >= 3 && IsUpper(price[0]) && IsUpper(price[1]) && IsUpper(price[2]) then
      assert price[..3][0] == price[0] && price[..3][1] == price[1] && price[..3][2] == price[2];
      Some(price[..3])
    else if |price| >= 1 && price[0] in CurrencySymbols then Some(price[..1])
    else None
  }

  /** A price that opens with neither three capitals nor a currency sign has no currency. */
  lemma NoCurrency(price: string)
    requires price == [] || price[0] !in CurrencySymbols
    requires |price| < 3 || !IsUpper(price[0]) || !IsUpper(price[1]) || !IsUpper(price[2])
    ensures LeadingCurrency(price).None?
  {
  }

  /** A leading currency sign is the currency, whatever follows it. */
  lemma CurrencySign(price: string)
    requires price != [] && price[0] in CurrencySymbols
    ensures LeadingCurrency(price) == Some([price[0]])
  {
    assert !IsUpper(price[0]);
    assert price[..1] == [price[0]];
  }

  /** A price that opens with three capital letters has those three letters as its currency, whatever follows. */
  lemma CurrencyCode(price: string)
    requires |price| >= 3 && IsUpper(price[0]) && IsUpper(price[1]) && IsUpper(price[2])
    ensures LeadingCurrency(price) == Some(price[..3])
  {
  }

  /** `pricing` from what its sources gave; `currency` is derived from a non-empty current price. */
  function PricingOf(current: Option<string>, original: Option<string>, bulk: Option<string>,
                     discount: Option<string>, tax: Option<string>): Mapping
  {
    var m0 := Put(map[], "current_price", StrOf(current));
    var m1 := Put(m0, "original_price", StrOf(original));
    var m2 := Put(m1, "bulk_price", StrOf(bulk));
    var m3 := Put(m2, "discount", StrOf(discount));
    var m4 := Put(m3, "currency",
      if current.Some? && current.value != [] then StrOf(LeadingCurrency(current.value)) else None);
    Put(m4, "tax_info", StrOf(tax))
  }

  function BulkPrice(eng: Engine, soup: Node): Option<string>
  {
    match TruthyString(eng, soup, BulkPattern)
    case Some((_, parent)) => Some(StrippedText(parent))
    case None => None
  }

  function TaxInfo(eng: Engine, soup: Node): Option<string>
  {
    match TruthyString(eng, soup, TaxPattern)
    case Some((text, _)) => Some(Strip(text))
    case None => None
  }

  function Pricing(eng: Engine, soup: Node): Mapping
  {
    PricingOf(FirstSome(PriceSelectors, TextProbe(eng, soup)),
              FirstSome(OriginalPriceSelectors, TextProbe(eng, soup)),
              BulkPrice(eng, soup),
              TextOfFirst(eng, soup, DiscountSelector),
              TaxInfo(eng, soup))
  }

  method BuildPricing(current: Option<string>, original: Option<string>, bulk: Option<string>,
                      discount: Option<string>, tax: Option<string>) returns (pricing: Mapping)
    ensures pricing == PricingOf(current, original, bulk, discount, tax)
  {
    pricing := Store(map[], "current_price", StrOf(current));
    pricing := Store(pricing, "original_price", StrOf(original));
    pricing := Store(pricing, "bulk_price", StrOf(bulk));
    pricing := Store(pricing, "discount", StrOf(discount));
    var currency := None;
    if current.Some? && current.value != [] {
      currency := StrOf(LeadingCurrency(current.value));
    }
    pricing := Store(pricing, "currency", currency);
    pricing := Store(pricing, "tax_info", StrOf(tax));
  }

  method ExtractPricing(eng: Engine, soup: Node) returns (pricing: Mapping)
    ensures pricing == Pricing(eng, soup)
  {
    var current := FindFirst(PriceSelectors, TextProbe(eng, soup));
    var original := FindFirst(OriginalPriceSelectors, TextProbe(eng, soup));
    pricing := BuildPricing(current, original, BulkPrice(eng, soup), TextOfFirst(eng, soup, DiscountSelector),
                            TaxInfo(eng, soup));
  }

  /**
   * `currency` is present exactly when the current price is non-empty and opens with three
   * capitals or a currency sign, and it is that opening token.
   */
  lemma CurrencyPresence(current: Option<string>, original: Option<string>, bulk: Option<string>,
                         discount: Option<string>, tax: Option<string>)
    ensures "currency" in PricingOf(current, original, bulk, discount, tax) <==>
      current.Some? && current.value != [] && LeadingCurrency(current.value).Some?
    ensures "currency" in PricingOf(current, original, bulk, discount, tax) ==>
      exists token :: token <= current.value && token != [] &&
        PricingOf(current, original, bulk, discount, tax)["currency"] == Str(token)
  {
  }

  /** Every key of `pricing` comes from its own source; nothing else is stored. */
  lemma PricingKeys(current: Option<string>, original: Option<string>, bulk: Option<string>,
                    discount: Option<string>, tax: Option<string>)
    ensures PricingOf(current, original, bulk, discount, tax).Keys <=
      {"current_price", "original_price", "bulk_price", "discount", "currency", "tax_info"}
    ensures "current_price" in PricingOf(current, original, bulk, discount, tax) <==> current.Some?
    ensures "tax_info" in PricingOf(current, original, bulk, discount, tax) <==> tax.Some?
  {
  }

}
