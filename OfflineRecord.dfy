/**
 * The offline scraper's record: the eight extractors' mappings under their fixed keys and the
 * scraping timestamp; and the scraper object that keeps the parsed page and the last record.
 */
module OfflineRecord {
  import opened Values
  import opened Document
  import OfflineBasic
  import OfflinePricing
  import OfflineReviews
  import OfflineVariations
  import OfflineImages
  import OfflineShipping
  import OfflineScripts
  import OfflineMeta
  import LiveRecord

  /** The nine top-level keys of a record. */
  const RecordKeys: set<string> := {
    "basic_info", "pricing", "reviews_and_ratings", "product_variations", "images", "shipping_info",
    "javascript_data", "meta_tags", "scraping_timestamp"}

  /** The product's own sections of the record. */
  datatype Product = Product(basic: Mapping, pricing: Mapping, reviews: Mapping, variations: Mapping)

  /** The sections about images, delivery and the page itself. */
  datatype Context = Context(images: Mapping, shipping: Mapping, js: Mapping, meta: Mapping)

  function ProductOf(eng: Engine, soup: Node): Product
  {
    Product(OfflineBasic.BasicInfo(soup), OfflinePricing.Pricing(soup),
            OfflineReviews.Reviews(eng, soup), OfflineVariations.Variations(soup))
  }

  function ContextOf(eng: Engine, soup: Node): Context
  {
    Context(OfflineImages.Images(eng, soup), OfflineShipping.Shipping(eng, soup),
            OfflineScripts.JavascriptData(eng, soup), OfflineMeta.MetaTags(soup))
  }

  /** The record from its parts; every extractor's mapping is stored, even when it is empty. */
  function RecordOf(p: Product, c: Context, timestamp: string): Mapping
  {
    map[
      "basic_info" := Dict(p.basic),
      "pricing" := Dict(p.pricing),
      "reviews_and_ratings" := Dict(p.reviews),
      "product_variations" := Dict(p.variations),
      "images" := Dict(c.images),
      "shipping_info" := Dict(c.shipping),
      "javascript_data" := Dict(c.js),
      "meta_tags" := Dict(c.meta),
      "scraping_timestamp" := Str(timestamp)]
  }

  /** The record `scrape_all` builds from a loaded page; the timestamp (`datetime.now().isoformat()`) is an input. */
  function AllData(eng: Engine, soup: Node, timestamp: string): Mapping
  {
    RecordOf(ProductOf(eng, soup), ContextOf(eng, soup), timestamp)
  }

  method ExtractProduct(eng: Engine, soup: Node) returns (p: Product)
    ensures p == ProductOf(eng, soup)
  {
    var basic := OfflineBasic.ExtractBasicInfo(soup);
    var pricing := OfflinePricing.ExtractPricing(soup);
    var reviews := OfflineReviews.ExtractReviewsAndRatings(eng, soup);
    var variations := OfflineVariations.ExtractProductVariations(soup);
    p := Product(basic, pricing, reviews, variations);
  }

  method ExtractContext(eng: Engine, soup: Node) returns (c: Context)
    ensures c == ContextOf(eng, soup)
  {
    var images := OfflineImages.ExtractImages(eng, soup);
    var shipping := OfflineShipping.ExtractShipping(eng, soup);
    var js := OfflineScripts.ExtractJavascriptData(eng, soup);
    var meta := OfflineMeta.ExtractMetaTags(soup);
    c := Context(images, shipping, js, meta);
  }

  method ExtractAllData(eng: Engine, soup: Node, timestamp: string) returns (record: Mapping)
    ensures record == AllData(eng, soup, timestamp)
  {
    var p := ExtractProduct(eng, soup);
    var c := ExtractContext(eng, soup);
    record := RecordOf(p, c, timestamp);
  }

  /** Every key of the record is one of the nine. */
  lemma RecordKeysOnly(p: Product, c: Context, timestamp: string)
    ensures forall key :: key in RecordOf(p, c, timestamp) ==> key in RecordKeys
  {
  }

  /** Each of the nine keys is present, however little the page yields. */
  lemma RecordKeysPresent(p: Product, c: Context, timestamp: string)
    ensures forall key :: key in RecordKeys ==> key in RecordOf(p, c, timestamp)
  {
  }

  /** Each section is stored as a mapping, and the timestamp as given. */
  lemma RecordSections(p: Product, c: Context, timestamp: string)
    ensures RecordOf(p, c, timestamp)["scraping_timestamp"] == Str(timestamp)
    ensures RecordOf(p, c, timestamp)["meta_tags"] == Dict(c.meta)
    ensures forall key :: key in RecordKeys && key != "scraping_timestamp" ==> RecordOf(p, c, timestamp)[key].Dict?
  {
  }

  /**
   * Unlike the live record, this one has no `url`, `specifications`, `seller_info` or
   * `page_language`; its other nine keys are all keys of the live record.
   */
  lemma NarrowerThanLive(p: Product, c: Context, timestamp: string)
    ensures "url" !in RecordOf(p, c, timestamp) && "specifications" !in RecordOf(p, c, timestamp)
    ensures "seller_info" !in RecordOf(p, c, timestamp) && "page_language" !in RecordOf(p, c, timestamp)
    ensures RecordKeys < LiveRecord.RecordKeys
  {
    RecordKeysOnly(p, c, timestamp);
    assert "url" in LiveRecord.RecordKeys - RecordKeys;
  }

  /** The offline scraper object: the parsed page once loaded, and the record of the last scrape. */
  class ProductScraper {
    var soup: Option<Node>
    var productData: Mapping

    constructor()
      ensures soup == None && productData == map[]
    {
      soup := None;
      productData := map[];
    }

    /**
     * `load_html`: reading and parsing the file is outside the model; `parsed` is its outcome,
     * None when reading raised.  On success the parse is kept; on failure nothing changes.
     */
    method LoadHtml(parsed: Option<Node>) returns (ok: bool)
      modifies this
      ensures ok <==> parsed.Some?
      ensures ok ==> soup == parsed
      ensures !ok ==> soup == old(soup)
      ensures productData == old(productData)
    {
      if parsed.None? {
        return false;
      }
      soup := parsed;
      ok := true;
    }

    /**
     * `scrape_all`: when loading fails, `{}` is returned and the kept record is untouched;
     * otherwise the nine-key record of the loaded page is built, kept and returned.
     */
    method ScrapeAll(eng: Engine, parsed: Option<Node>, timestamp: string) returns (result: Mapping)
      modifies this
      ensures parsed.None? ==> result == map[] && soup == old(soup) && productData == old(productData)
      ensures parsed.Some? ==> soup == parsed && productData == AllData(eng, parsed.value, timestamp) && result == productData
    {
      var ok := LoadHtml(parsed);
      if !ok {
        return map[];
      }
      productData := ExtractAllData(eng, parsed.value, timestamp);
      result := productData;
    }
  }
}
