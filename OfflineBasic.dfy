/** Basic information and store details of the offline scraper. */
module OfflineBasic {
  import opened Values
  import opened Strings
  import opened Sequences
  import opened Document
  import opened OfflineQueries
  import LiveBasic

  const StoreLinkClass: string := "store-detail--wrap--IhR4e1j"
  const StoreNameClass: string := "store-detail--storeName--hpOD8R8"

  /** The placeholder `extract_category` returns for every page. */
  const Category: string := "Electronics"

  // ---------------------------------------------------------------------------------------------
  // Store

  /** The store mapping from the store link, when there is one: its `href` and the name inside it. */
  function StoreOf(link: Option<(string, Option<string>)>): Mapping
  {
    match link
    case None => map[]
    case Some((url, name)) => Put(map["store_url" := Str(url)], "store_name", StrOf(name))
  }

  /** `extract_store_info`. */
  function StoreInfo(soup: Node): Mapping
  {
    match Find(soup, ClassTest("a", StoreLinkClass))
    case Some(link) => StoreOf(Some((AttrOr(link, "href", ""), FoundText(link, ClassTest("span", StoreNameClass)))))
    case None => StoreOf(None)
  }

  method ExtractStoreInfo(soup: Node) returns (store: Mapping)
    ensures store == StoreInfo(soup)
  {
    store := map[];
    var link := Find(soup, ClassTest("a", StoreLinkClass));
    if link.Some? {
      store := store["store_url" := Str(AttrOr(link.value, "href", ""))];
      var name := FoundText(link.value, ClassTest("span", StoreNameClass));
      if name.Some? {
        store := store["store_name" := Str(name.value)];
      }
    }
  }

  /**
   * The store mapping is empty exactly when there is no store link; `store_url` is then the
   * link's `href` (empty when it has none), and a name is only read inside the link.
   */
  lemma StoreSpec(link: Option<(string, Option<string>)>)
    ensures StoreOf(link) == map[] <==> link.None?
    ensures link.Some? ==> StoreOf(link)["store_url"] == Str(link.value.0)
    ensures "store_name" in StoreOf(link) <==> link.Some? && link.value.1.Some?
    ensures forall key :: key in StoreOf(link) ==> key == "store_url" || key == "store_name"
  {
    if link.Some? {
      assert "store_url" in StoreOf(link);
    }
  }

  // ---------------------------------------------------------------------------------------------
  // Basic information

  /** The stripped text of the `h1` marked `data-pl="product-title"`. */
  function Title(soup: Node): Option<string>
  {
    FoundText(soup, AttrTest("h1", "data-pl", "product-title"))
  }

  /** The id in the content of the `og:url` meta tag; no other source is consulted. */
  function OgUrlId(soup: Node): Option<string>
  {
    match Find(soup, AttrTest("meta", "property", "og:url"))
    case Some(m) => LiveBasic.ItemId(AttrOr(m, "content", ""))
    case None => None
  }

  /** `basic_info` from its sources: the title, the id, the constant category and the store when it is not empty. */
  function BasicInfoOf(title: Option<string>, productId: Option<string>, store: Mapping): Mapping
  {
    var m0 := Put(map[], "title", StrOf(title));
    var m1 := Put(m0, "product_id", StrOf(productId));
    Put(m1["category" := Str(Category)], "store", NonEmptyDict(store))
  }

  /** `extract_basic_info`. */
  function BasicInfo(soup: Node): Mapping
  {
    BasicInfoOf(Title(soup), OgUrlId(soup), StoreInfo(soup))
  }

  method BuildBasicInfo(title: Option<string>, productId: Option<string>, store: Mapping) returns (info: Mapping)
    ensures info == BasicInfoOf(title, productId, store)
  {
    info := Store(map[], "title", StrOf(title));
    info := Store(info, "product_id", StrOf(productId));
    info := info["category" := Str(Category)];
    if store != map[] {
      info := info["store" := Dict(store)];
    }
  }

  method ExtractBasicInfo(soup: Node) returns (info: Mapping)
    ensures info == BasicInfo(soup)
  {
    var store := ExtractStoreInfo(soup);
    info := BuildBasicInfo(Title(soup), OgUrlId(soup), store);
  }

  /**
   * The category is always "Electronics", whatever the page; `store` is there exactly when the
   * store mapping is not empty, and the title and id exactly when found.
   */
  lemma BasicInfoKeys(title: Option<string>, productId: Option<string>, store: Mapping)
    ensures BasicInfoOf(title, productId, store)["category"] == Str("Electronics")
    ensures "store" in BasicInfoOf(title, productId, store) <==> store != map[]
    ensures store != map[] ==> BasicInfoOf(title, productId, store)["store"] == Dict(store)
    ensures "title" in BasicInfoOf(title, productId, store) <==> title.Some?
    ensures "product_id" in BasicInfoOf(title, productId, store) <==> productId.Some?
    ensures forall key :: key in BasicInfoOf(title, productId, store) ==>
      key == "title" || key == "product_id" || key == "category" || key == "store"
  {
  }

  /** Two pages get the same category, whatever they hold. */
  lemma CategoryIgnoresPage(soup: Node, soup': Node)
    ensures BasicInfo(soup)["category"] == BasicInfo(soup')["category"] == Str(Category)
  {
    BasicInfoKeys(Title(soup), OgUrlId(soup), StoreInfo(soup));
    BasicInfoKeys(Title(soup'), OgUrlId(soup'), StoreInfo(soup'));
  }

  /** A product id is a non-empty run of digits taken from the `og:url` content. */
  lemma ProductIdDigits(soup: Node)
    ensures OgUrlId(soup).Some? ==> OgUrlId(soup).value != [] && AllDigits(OgUrlId(soup).value)
  {
    match Find(soup, AttrTest("meta", "property", "og:url"))
    case Some(m) => LiveBasic.ItemIdLeftmost(AttrOr(m, "content", ""));
    case None =>
  }
}
