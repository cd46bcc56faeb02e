/**
 * The live scraper's record: every extractor's mapping under its fixed key, with the URL, the
 * scraping timestamp and the page language; and the scraper object that keeps the last record.
 */
module LiveRecord {
  import opened Values
  import opened Document
  import LiveBasic
  import LivePricing
  import LiveReviews
  import LiveVariations
  import LiveImages
  import LiveShipping
  import LiveSpecs
  import LiveSeller
  import LiveScripts
  import LiveMeta

  /** The thirteen top-level keys of a record. */
  const RecordKeys: set<string> := {
    "url", "basic_info", "pricing", "reviews_and_ratings", "product_variations", "images", "shipping_info",
    "specifications", "seller_info", "javascript_data", "meta_tags", "scraping_timestamp", "page_language"}

  /** The product's own sections of the record. */
  datatype Product = Product(basic: Mapping, pricing: Mapping, reviews: Mapping, variations: Mapping, images: Mapping)

  /** The sections about delivery, the seller and the page itself. */
  datatype Context = Context(shipping: Mapping, specs: Mapping, seller: Mapping, js: Mapping, meta: Mapping)

  function ProductOf(eng: Engine, soup: Node, currentUrl: Option<string>): Product
  {
    Product(LiveBasic.BasicInfo(eng, soup, currentUrl), LivePricing.Pricing(eng, soup),
            LiveReviews.Reviews(eng, soup), LiveVariations.Variations(eng, soup), LiveImages.Images(eng, soup))
  }

  function ContextOf(eng: Engine, soup: Node): Context
  {
    Context(LiveShipping.Shipping(eng, soup), LiveSpecs.Specifications(eng, soup), LiveSeller.Seller(eng, soup),
            LiveScripts.JavascriptData(eng, soup), LiveMeta.MetaTags(eng, soup))
  }

  /** The record from its parts; every extractor's mapping is stored, even when it is empty. */
  function RecordOf(url: string, p: Product, c: Context, timestamp: string, language: string): Mapping
  {
    map[
      "url" := Str(url),
      "basic_info" := Dict(p.basic),
      "pricing" := Dict(p.pricing),
      "reviews_and_ratings" := Dict(p.reviews),
      "product_variations" := Dict(p.variations),
      "images" := Dict(p.images),
      "shipping_info" := Dict(c.shipping),
      "specifications" := Dict(c.specs),
      "seller_info" := Dict(c.seller),
      "javascript_data" := Dict(c.js),
      "meta_tags" := Dict(c.meta),
      "scraping_timestamp" := Str(timestamp),
      "page_language" := Str(language)]
  }

  /**
   * `_extract_all_data(soup, url)`.  The timestamp (`datetime.now().isoformat()`) and the driver's
   * current URL, which the product-id chain reads, are inputs.
   */
  function AllData(eng: Engine, soup: Node, url: string, timestamp: string, currentUrl: Option<string>): Mapping
  {
    RecordOf(url, ProductOf(eng, soup, currentUrl), ContextOf(eng, soup), timestamp, LiveBasic.Language(eng, soup))
  }

  method ExtractProduct(eng: Engine, soup: Node, currentUrl: Option<string>) returns (p: Product)
    ensures p == ProductOf(eng, soup, currentUrl)
  {
    var basic := LiveBasic.ExtractBasicInfo(eng, soup, currentUrl);
    var pricing := LivePricing.ExtractPricing(eng, soup);
    var reviews := LiveReviews.ExtractReviewsAndRatings(eng, soup);
    var variations := LiveVariations.ExtractProductVariations(eng, soup);
    var images := LiveImages.ExtractImages(eng, soup);
    p := Product(basic, pricing, reviews, variations, images);
  }

  method ExtractContext(eng: Engine, soup: Node) returns (c: Context)
    ensures c == ContextOf(eng, soup)
  {
    var shipping := LiveShipping.ExtractShipping(eng, soup);
    var specs := LiveSpecs.ExtractSpecifications(eng, soup);
    var seller := LiveSeller.ExtractSellerInfo(eng, soup);
    var js := LiveScripts.ExtractJavascriptData(eng, soup);
    var meta := LiveMeta.ExtractMetaTags(eng, soup);
    c := Context(shipping, specs, seller, js, meta);
  }

  method ExtractAllData(eng: Engine, soup: Node, url: string, timestamp: string, currentUrl: Option<string>)
    returns (record: Mapping)
    ensures record == AllData(eng, soup, url, timestamp, currentUrl)
  {
    var c := ExtractContext(eng, soup);
    var p := ExtractProduct(eng, soup, currentUrl);
    var language := LiveBasic.Language(eng, soup);
    record := RecordOf(url, p, c, timestamp, language);
  }

  /** Every key of the record is one of the thirteen. */
  lemma RecordKeysOnly(url: string, p: Product, c: Context, timestamp: string, language: string)
    ensures forall key :: key in RecordOf(url, p, c, timestamp, language) ==> key in RecordKeys
  {
  }

  /** Each of the thirteen keys is present, however little the page yields. */
  lemma RecordKeysPresent(url: string, p: Product, c: Context, timestamp: string, language: string)
    ensures forall key :: key in RecordKeys ==> key in RecordOf(url, p, c, timestamp, language)
  {
  }

  /** Each section is stored as a mapping; the URL is stored as given. */
  lemma RecordSections(url: string, p: Product, c: Context, timestamp: string, language: string)
    ensures RecordOf(url, p, c, timestamp, language)["url"] == Str(url)
    ensures RecordOf(url, p, c, timestamp, language)["specifications"] == Dict(c.specs)
    ensures forall key :: key in RecordKeys && key != "url" && key != "scraping_timestamp" && key != "page_language" ==>
      RecordOf(url, p, c, timestamp, language)[key].Dict?
  {
  }

  /** The live scraper object: it keeps the record of the last page it scraped. */
  class LiveScraper {
    var productData: Mapping

    constructor()
      ensures productData == map[]
    {
      productData := map[];
    }

    /**
     * `scrape_product`: when loading the page succeeds (`page` is its parse), the record is
     * built, kept and returned; when it fails, `{}` is returned and the kept record is untouched.
     */
    method ScrapeProduct(eng: Engine, page: Option<Node>, url: string, timestamp: string, currentUrl: Option<string>)
      returns (result: Mapping)
      modifies this
      ensures page.Some? ==> productData == AllData(eng, page.value, url, timestamp, currentUrl) && result == productData
      ensures page.None? ==> result == map[] && productData == old(productData)
    {
      if page.None? {
        return map[];
      }
      productData := ExtractAllData(eng, page.value, url, timestamp, currentUrl);
      result := productData;
    }
  }
}
