/**
 * Basic product information of the live scraper: the title cascade, the product-id priority
 * chain, the breadcrumb category, the brand cascade and the page-language detection.
 */
module LiveBasic {
  import opened Values
  import opened Strings
  import opened Sequences
  import opened Document

  const TitleSelectors: seq<Selector> :=
    ["h1[data-pl=\"product-title\"]", ".title--wrap--UUHae_g h1", ".product-title", "h1"]

  /** The title: the stripped text of what the earliest matching title selector finds first. */
  function Title(eng: Engine, soup: Node): Option<string>
  {
    FirstSome(TitleSelectors, TextProbe(eng, soup))
  }

  /** The first title selector that matches anything decides the title; the later ones are not consulted. */
  lemma TitleCascade(eng: Engine, soup: Node, k: nat)
    requires k < |TitleSelectors| && SelectOne(eng, soup, TitleSelectors[k]).Some?
    requires forall j :: 0 <= j < k ==> SelectOne(eng, soup, TitleSelectors[j]).None?
    ensures Title(eng, soup) == Some(StrippedText(SelectOne(eng, soup, TitleSelectors[k]).value))
  {
    FirstSomeAt(TitleSelectors, TextProbe(eng, soup), k);
  }

  /** There is no title exactly when no title selector matches. */
  lemma TitleAbsent(eng: Engine, soup: Node)
    ensures Title(eng, soup).None? <==>
      forall j :: 0 <= j < |TitleSelectors| ==> SelectOne(eng, soup, TitleSelectors[j]).None?
  {
    FirstSomeNone(TitleSelectors, TextProbe(eng, soup));
    assert forall j :: 0 <= j < |TitleSelectors| ==>
      (TextProbe(eng, soup)(TitleSelectors[j]).None? <==> SelectOne(eng, soup, TitleSelectors[j]).None?);
  }

  // ---------------------------------------------------------------------------------------------
  // Product id

  /** Whether `/item/(\d+)\.html` matches at position `i` of `s`, and the digits it captures. */
  function ItemIdAt(s: string, i: nat): (r: Option<string>)
    requires i <= |s|
    ensures r.Some? ==> r.value != [] && AllDigits(r.value) && "/item/" + r.value + ".html" <= s[i..]
  {
    if "/item/" <= s[i..] then
      var j := DigitRunEnd(s, i + 6);
      if j > i + 6 && ".html" <= s[j..] then
        assert s[i..][..6] == "/item/" && s[i..][6..j - i] == s[i + 6..j] && s[i..][j - i..] == s[j..];
        assert "/item/" + s[i + 6..j] + ".html" <= s[i..];
        Some(s[i + 6..j])
      else None
    else None
  }

  /** A run of digits from `i` that stops at `e` ends, for `DigitRunEnd`, at `e`. */
  lemma {:induction false} DigitRunEndAt(s: string, i: nat, e: nat)
    requires i <= e <= |s|
    requires forall k :: i <= k < e ==> IsDigit(s[k])
    requires e == |s| || !IsDigit(s[e])
    ensures DigitRunEnd(s, i) == e
    decreases e - i
  {
    if i < e {
      DigitRunEndAt(s, i + 1, e);
    }
  }

  /** Every occurrence of `/item/<digits>.html` is found by the matcher at its position. */
  lemma ItemIdAtComplete(s: string, i: nat, d: string)
    requires i <= |s| && d != [] && AllDigits(d) && "/item/" + d + ".html" <= s[i..]
    ensures ItemIdAt(s, i) == Some(d)
  {
    var w := "/item/" + d + ".html";
    assert w[..6] == "/item/";
    assert "/item/" <= s[i..];
    var j := i + 6 + |d|;
    assert forall k :: 0 <= k < |d| ==> s[i + 6 + k] == w[6 + k] == d[k];
    assert s[j] == w[6 + |d|] == '.';
    DigitRunEndAt(s, i + 6, j);
    assert s[i + 6..j] == d;
    assert forall k :: 0 <= k < 5 ==> s[j..][k] == w[6 + |d| + k];
  }

  function ItemIdProbe(s: string): nat -> Option<string>
  {
    (i: nat) => if i <= |s| then ItemIdAt(s, i) else None
  }

  /** `re.search(r'/item/(\d+)\.html', url).group(1)`: the digits of the leftmost `/item/<digits>.html`. */
  function ItemId(url: string): (r: Option<string>)
  {
    FirstAt(0, |url|, ItemIdProbe(url))
  }

  /** The id found is the leftmost occurrence; there is none only when no position matches. */
  lemma ItemIdLeftmost(url: string)
    ensures ItemId(url).None? <==> forall i :: 0 <= i <= |url| ==> ItemIdAt(url, i).None?
    ensures ItemId(url).Some? ==> ItemId(url).value != [] && AllDigits(ItemId(url).value)
    ensures ItemId(url).Some? ==>
      exists i :: 0 <= i <= |url| && ItemIdAt(url, i) == ItemId(url) &&
        forall j :: 0 <= j < i ==> ItemIdAt(url, j).None?
  {
    FirstAtLeftmost(0, |url|, ItemIdProbe(url));
    assert forall i :: 0 <= i <= |url| ==> ItemIdProbe(url)(i) == ItemIdAt(url, i);
  }

  /** A URL with no earlier `/item/<digits>.html` yields the digits of its first one. */
  lemma ItemIdOfUrl(url: string, i: nat, d: string)
    requires i <= |url| && d != [] && AllDigits(d) && "/item/" + d + ".html" <= url[i..]
    requires forall j :: 0 <= j < i ==> ItemIdAt(url, j).None?
    ensures ItemId(url) == Some(d)
  {
    ItemIdAtComplete(url, i, d);
    ItemIdLeftmost(url);
    var r := ItemId(url);
    assert r.Some?;
    var i' :| 0 <= i' <= |url| && ItemIdAt(url, i') == r && forall j :: 0 <= j < i' ==> ItemIdAt(url, j).None?;
  }

  const ProductIdScriptPattern: Pattern := "productId[\"']?\\s*:\\s*[\"']?(\\d+)"

  function ScriptIdProbe(eng: Engine): Node -> Option<string>
  {
    script => eng.search(ProductIdScriptPattern, TextOf(script))
  }

  /** The id in the `og:url` meta tag's content. */
  function OgUrlId(eng: Engine, soup: Node): Option<string>
  {
    match SelectOne(eng, soup, "meta[property=\"og:url\"]")
    case Some(m) => ItemId(AttrOr(m, "content", ""))
    case None => None
  }

  /** The id in the browser's current URL; `currentUrl` is None when there is no browser. */
  function DriverId(currentUrl: Option<string>): Option<string>
  {
    match currentUrl
    case Some(u) => ItemId(u)
    case None => None
  }

  /** The id in the first script whose text has a `productId: <digits>` assignment. */
  function ScriptProductId(eng: Engine, soup: Node): Option<string>
  {
    FirstSome(FindAll(soup, TagTest("script")), ScriptIdProbe(eng))
  }

  /** The product id: from the `og:url` meta, else from the current URL, else from the scripts. */
  function ProductId(eng: Engine, soup: Node, currentUrl: Option<string>): Option<string>
  {
    if OgUrlId(eng, soup).Some? then OgUrlId(eng, soup)
    else if DriverId(currentUrl).Some? then DriverId(currentUrl)
    else ScriptProductId(eng, soup)
  }

  /** An id in the `og:url` meta wins whatever the browser URL and the scripts say. */
  lemma ProductIdOgUrlFirst(eng: Engine, soup: Node, u1: Option<string>, u2: Option<string>)
    requires OgUrlId(eng, soup).Some?
    ensures ProductId(eng, soup, u1) == ProductId(eng, soup, u2) == OgUrlId(eng, soup)
    ensures AllDigits(ProductId(eng, soup, u1).value) && ProductId(eng, soup, u1).value != []
  {
    var r := OgUrlId(eng, soup);
    var url := AttrOr(SelectOne(eng, soup, "meta[property=\"og:url\"]").value, "content", "");
    ItemIdLeftmost(url);
  }

  /** Without an id in `og:url`, a browser URL naming an item decides the id; the scripts are not read. */
  lemma ProductIdDriverSecond(eng: Engine, soup: Node, url: string, i: nat, d: string)
    requires OgUrlId(eng, soup).None?
    requires i <= |url| && d != [] && AllDigits(d) && "/item/" + d + ".html" <= url[i..]
    requires forall j :: 0 <= j < i ==> ItemIdAt(url, j).None?
    ensures ProductId(eng, soup, Some(url)) == Some(d)
  {
    ItemIdOfUrl(url, i, d);
  }

  /**
   * Without an id in `og:url` or the browser URL, the earliest script in which the `productId`
   * pattern matches decides the id; later scripts are not read.
   */
  lemma ProductIdScriptThird(eng: Engine, soup: Node, currentUrl: Option<string>, j: nat)
    requires OgUrlId(eng, soup).None? && DriverId(currentUrl).None?
    requires j < |FindAll(soup, TagTest("script"))|
    requires eng.search(ProductIdScriptPattern, TextOf(FindAll(soup, TagTest("script"))[j])).Some?
    requires forall i :: 0 <= i < j ==> eng.search(ProductIdScriptPattern, TextOf(FindAll(soup, TagTest("script"))[i])).None?
    ensures ProductId(eng, soup, currentUrl) == eng.search(ProductIdScriptPattern, TextOf(FindAll(soup, TagTest("script"))[j]))
  {
    FirstSomeAt(FindAll(soup, TagTest("script")), ScriptIdProbe(eng), j);
  }

  /** There is no product id exactly when none of the three sources yields one. */
  lemma ProductIdNone(eng: Engine, soup: Node, currentUrl: Option<string>)
    ensures ProductId(eng, soup, currentUrl).None? <==>
      && OgUrlId(eng, soup).None?
      && (currentUrl.Some? ==> forall i :: 0 <= i <= |currentUrl.value| ==> ItemIdAt(currentUrl.value, i).None?)
      && (forall j :: 0 <= j < |FindAll(soup, TagTest("script"))| ==>
            eng.search(ProductIdScriptPattern, TextOf(FindAll(soup, TagTest("script"))[j])).None?)
  {
    FirstSomeNone(FindAll(soup, TagTest("script")), ScriptIdProbe(eng));
    if currentUrl.Some? {
      ItemIdLeftmost(currentUrl.value);
    }
  }

  // ---------------------------------------------------------------------------------------------
  // Category

  const BreadcrumbSelector: Selector := ".breadcrumb a, .nav-breadcrumb a"

  predicate IsHomeCrumb(text: string)
  {
    var t := Lower(text);
    t == "home" || t == "accueil" || t == "startseite"
  }

  function IsHomeCrumbTest(): string -> bool
  {
    t => IsHomeCrumb(t)
  }

  /** The stripped text of each breadcrumb. */
  function CrumbTexts(crumbs: seq<Node>): (r: seq<string>)
    ensures |r| == |crumbs|
    ensures forall k :: 0 <= k < |crumbs| ==> r[k] == StrippedText(crumbs[k])
  {
    seq(|crumbs|, k requires 0 <= k < |crumbs| => StrippedText(crumbs[k]))
  }

  /**
   * The category: the last breadcrumb that is not a home link, when there are at least two
   * breadcrumbs; else the `category` meta tag's content; else "Unknown".
   */
  function Category(eng: Engine, soup: Node): string
  {
    var crumbs := Select(eng, soup, BreadcrumbSelector);
    var fromCrumbs := if |crumbs| > 1 then LastNot(CrumbTexts(crumbs), IsHomeCrumbTest()) else None;
    if fromCrumbs.Some? then fromCrumbs.value
    else match SelectOne(eng, soup, "meta[name=\"category\"]")
      case Some(m) => AttrOr(m, "content", "")
      case None => "Unknown"
  }

  /** A category taken from the breadcrumbs is never a home link, and every crumb after it is one. */
  lemma CategoryFromCrumbs(eng: Engine, soup: Node)
    requires |Select(eng, soup, BreadcrumbSelector)| > 1
    requires !forall k :: 0 <= k < |Select(eng, soup, BreadcrumbSelector)| ==>
      IsHomeCrumb(StrippedText(Select(eng, soup, BreadcrumbSelector)[k]))
    ensures !IsHomeCrumb(Category(eng, soup))
    ensures exists k :: (0 <= k < |Select(eng, soup, BreadcrumbSelector)| &&
      Category(eng, soup) == StrippedText(Select(eng, soup, BreadcrumbSelector)[k]) &&
      (forall j :: k < j < |Select(eng, soup, BreadcrumbSelector)| ==>
        IsHomeCrumb(StrippedText(Select(eng, soup, BreadcrumbSelector)[j]))))
  {
    var texts := CrumbTexts(Select(eng, soup, BreadcrumbSelector));
    assert LastNot(texts, IsHomeCrumbTest()).Some?;
  }

  /** A single breadcrumb is not enough: the category then comes from the meta tag, or is "Unknown". */
  lemma CategoryIgnoresSingleCrumb(eng: Engine, soup: Node)
    requires |Select(eng, soup, BreadcrumbSelector)| <= 1
    ensures SelectOne(eng, soup, "meta[name=\"category\"]").None? ==> Category(eng, soup) == "Unknown"
    ensures SelectOne(eng, soup, "meta[name=\"category\"]").Some? ==>
      Category(eng, soup) == AttrOr(SelectOne(eng, soup, "meta[name=\"category\"]").value, "content", "")
  {
  }

  // ---------------------------------------------------------------------------------------------
  // Brand

  const BrandSelectors: seq<Selector> := [".product-brand", ".brand-name", "[data-brand]", ".manufacturer"]

  /** The brand an element gives: its stripped text, or else its `data-brand` attribute, when non-empty. */
  function BrandOf(e: Node): (r: Option<string>)
    ensures r.Some? ==> r.value != []
  {
    var b := if StrippedText(e) != [] then StrippedText(e) else AttrOr(e, "data-brand", "");
    if b != [] then Some(b) else None
  }

  function BrandProbe(eng: Engine, soup: Node): Selector -> Option<string>
  {
    sel => match SelectOne(eng, soup, sel)
           case Some(e) => BrandOf(e)
           case None => None
  }

  function Brand(eng: Engine, soup: Node): Option<string>
  {
    FirstSome(BrandSelectors, BrandProbe(eng, soup))
  }

  /**
   * The brand comes from the earliest brand selector whose element gives a non-empty brand; a
   * matched element giving none does not stop the search.
   */
  lemma BrandCascade(eng: Engine, soup: Node)
    ensures Brand(eng, soup).None? <==>
      forall j :: 0 <= j < |BrandSelectors| ==>
        (SelectOne(eng, soup, BrandSelectors[j]).None? || BrandOf(SelectOne(eng, soup, BrandSelectors[j]).value).None?)
    ensures Brand(eng, soup).Some? ==> Brand(eng, soup).value != []
    ensures Brand(eng, soup).Some? ==>
      exists k :: 0 <= k < |BrandSelectors| && SelectOne(eng, soup, BrandSelectors[k]).Some? &&
        Brand(eng, soup) == BrandOf(SelectOne(eng, soup, BrandSelectors[k]).value) &&
        (forall j :: 0 <= j < k ==>
          (SelectOne(eng, soup, BrandSelectors[j]).None? || BrandOf(SelectOne(eng, soup, BrandSelectors[j]).value).None?))
  {
    FirstSomeNone(BrandSelectors, BrandProbe(eng, soup));
    if Brand(eng, soup).Some? {
      var k := FirstSomeWitness(BrandSelectors, BrandProbe(eng, soup));
      assert forall j :: 0 <= j < k ==> BrandProbe(eng, soup)(BrandSelectors[j]).None?;
    }
  }

  /** The earliest selector whose element gives a brand decides it; later selectors are not consulted. */
  lemma BrandAt(eng: Engine, soup: Node, k: nat)
    requires k < |BrandSelectors| && SelectOne(eng, soup, BrandSelectors[k]).Some?
    requires BrandOf(SelectOne(eng, soup, BrandSelectors[k]).value).Some?
    requires forall j :: 0 <= j < k ==>
      (SelectOne(eng, soup, BrandSelectors[j]).None? || BrandOf(SelectOne(eng, soup, BrandSelectors[j]).value).None?)
    ensures Brand(eng, soup) == BrandOf(SelectOne(eng, soup, BrandSelectors[k]).value)
  {
    assert forall j :: 0 <= j < k ==> BrandProbe(eng, soup)(BrandSelectors[j]).None?;
    FirstSomeAt(BrandSelectors, BrandProbe(eng, soup), k);
  }

  // ---------------------------------------------------------------------------------------------
  // Page language

  const PolishLetters: string := "ąćęłńóśźż"
  const FrenchLetters: string := "àáâãäåæçèéêëìíîïñòóôõöøùúûüý"
  const GermanLetters: string := "äöüß"

  predicate HasAny(s: string, letters: string)
  {
    exists k :: 0 <= k < |s| && s[k] in letters
  }

  /** The character heuristic on a text sample: Polish, then French, then German letters, else English. */
  function LanguageOfText(sample: string): string
  {
    if HasAny(sample, PolishLetters) then "pl"
    else if HasAny(sample, FrenchLetters) then "fr"
    else if HasAny(sample, GermanLetters) then "de"
    else "en"
  }

  /** German is only reported for a sample with an `ß` and no Polish or French letter: ä, ö and ü count as French. */
  lemma GermanNeedsSharpS(sample: string)
    ensures LanguageOfText(sample) == "de" <==>
      (exists k :: 0 <= k < |sample| && sample[k] == 'ß') &&
      !HasAny(sample, PolishLetters) && !HasAny(sample, FrenchLetters)
  {
    if LanguageOfText(sample) == "de" {
      var k :| 0 <= k < |sample| && sample[k] in GermanLetters;
      assert sample[k] != 'ä' && sample[k] != 'ö' && sample[k] != 'ü' by {
        assert 'ä' in FrenchLetters && 'ö' in FrenchLetters && 'ü' in FrenchLetters;
      }
    }
  }

  /**
   * The page language from its three sources: the html element's `lang` attribute when
   * non-empty, else the `language` meta tag's content, else the heuristic on the first 1000
   * characters of the page text.
   */
  function LanguageFrom(lang: Option<string>, meta: Option<Node>, text: string): string
  {
    if lang.Some? then lang.value
    else if meta.Some? then AttrOr(meta.value, "content", "")
    else LanguageOfText(Take(text, 1000))
  }

  /** The non-empty `lang` attribute of the first html element. */
  function HtmlLang(soup: Node): Option<string>
  {
    match Find(soup, TagTest("html"))
    case Some(html) => NonEmptyAttr(html, "lang")
    case None => None
  }

  function Language(eng: Engine, soup: Node): string
  {
    LanguageFrom(HtmlLang(soup), SelectOne(eng, soup, "meta[name=\"language\"]"), TextOf(soup))
  }

  /** A non-empty `lang` overrides the meta tag and the text; the meta tag overrides the text. */
  lemma LanguagePriority(lang: Option<string>, meta: Option<Node>, text: string, text': string)
    ensures lang.Some? ==> LanguageFrom(lang, meta, text) == lang.value
    ensures lang.None? && meta.Some? ==> LanguageFrom(lang, meta, text) == LanguageFrom(lang, meta, text')
  {
  }

  /** The heuristic only reads the first 1000 characters, and only answers pl, fr, de or en. */
  lemma LanguageSampleOnly(meta: Option<Node>, text: string, rest: string)
    requires |text| >= 1000
    ensures LanguageFrom(None, None, text + rest) == LanguageFrom(None, None, text) == LanguageOfText(text[..1000])
    ensures LanguageFrom(None, None, text) in {"pl", "fr", "de", "en"}
  {
    assert (text + rest)[..1000] == text[..1000];
  }

  /** `<html><head><script>var s="straße"</script></head><body><p>Hello</p></body></html>`. */
  const ScriptedPage: Node :=
    Element("[document]", map[], [], [
      Element("html", map[], [], [
        Element("head", map[], [], [Element("script", map[], [], [TextNode("var s=\"straße\"")])]),
        Element("body", map[], [], [Element("p", map[], [], [TextNode("Hello")])])])])

  /** Every special letter of the heuristic lies outside ASCII. */
  lemma LettersNotAscii()
    ensures forall j :: 0 <= j < |PolishLetters| ==> PolishLetters[j] >= 128 as char
    ensures forall j :: 0 <= j < |FrenchLetters| ==> FrenchLetters[j] >= 128 as char
    ensures forall j :: 0 <= j < |GermanLetters| ==> GermanLetters[j] >= 128 as char
  {
  }

  /** A sample in plain ASCII is English. */
  lemma AsciiIsEnglish(sample: string)
    requires forall k :: 0 <= k < |sample| ==> sample[k] < 128 as char
    ensures LanguageOfText(sample) == "en"
  {
    LettersNotAscii();
  }

  /** The page text of `ScriptedPage` is the paragraph's alone. */
  lemma ScriptedPageText()
    ensures TextOf(ScriptedPage) == "Hello"
  {
    var html := ScriptedPage.children[0];
    var head := html.children[0];
    var body := html.children[1];
    assert TextStrings(head.children) == [];
    assert TextStrings(body.children) == ["Hello"];
    assert TextStrings(html.children) == ["Hello"];
    assert TextStrings(ScriptedPage.children) == ["Hello"];
  }

  lemma ScriptedPageNoLang()
    ensures HtmlLang(ScriptedPage).None?
  {
    var html := ScriptedPage.children[0];
    assert Elements(ScriptedPage.children)[0] == html;
  }

  /**
   * The text heuristic samples the page's text, which leaves out scripts: the `ß` inside the
   * script of `ScriptedPage` is not seen, and the page, without `lang` or a language meta tag,
   * is English.
   */
  lemma ScriptTextNotSampled(eng: Engine)
    requires SelectOne(eng, ScriptedPage, "meta[name=\"language\"]").None?
    ensures TextOf(ScriptedPage) == "Hello"
    ensures Language(eng, ScriptedPage) == "en"
  {
    ScriptedPageText();
    ScriptedPageNoLang();
    HeuristicLanguage(eng, ScriptedPage);
    HelloIsEnglish();
  }

  /** Without a `lang` attribute or a language meta tag, the page text decides. */
  lemma HeuristicLanguage(eng: Engine, soup: Node)
    requires HtmlLang(soup).None? && SelectOne(eng, soup, "meta[name=\"language\"]").None?
    ensures Language(eng, soup) == LanguageOfText(Take(TextOf(soup), 1000))
  {
  }

  lemma HelloIsEnglish()
    ensures LanguageOfText(Take("Hello", 1000)) == "en"
  {
    AsciiIsEnglish("Hello");
  }

  // ---------------------------------------------------------------------------------------------
  // The basic-information mapping

  /** `basic_info` from its four sources: title, product id (when non-empty), category (always) and brand. */
  function BasicInfoOf(title: Option<string>, productId: Option<string>, category: string, brand: Option<string>): Mapping
  {
    var m0 := Put(map[], "title", StrOf(title));
    var m1 := Put(m0, "product_id", if productId.Some? && productId.value != [] then StrOf(productId) else None);
    Put(m1["category" := Str(category)], "brand", StrOf(brand))
  }

  function BasicInfo(eng: Engine, soup: Node, currentUrl: Option<string>): Mapping
  {
    BasicInfoOf(Title(eng, soup), ProductId(eng, soup, currentUrl), Category(eng, soup), Brand(eng, soup))
  }

  /** Builds `basic_info` from the values its sources gave, key by key. */
  method BuildBasicInfo(title: Option<string>, productId: Option<string>, category: string, brand: Option<string>)
    returns (info: Mapping)
    ensures info == BasicInfoOf(title, productId, category, brand)
  {
    info := map[];
    if title.Some? {
      info := info["title" := Str(title.value)];
    }
    if productId.Some? && productId.value != [] {
      info := info["product_id" := Str(productId.value)];
    }
    info := info["category" := Str(category)];
    if brand.Some? {
      info := info["brand" := Str(brand.value)];
    }
  }

  method ExtractBasicInfo(eng: Engine, soup: Node, currentUrl: Option<string>) returns (info: Mapping)
    ensures info == BasicInfo(eng, soup, currentUrl)
  {
    var title := FindFirst(TitleSelectors, TextProbe(eng, soup));
    var brand := FindFirst(BrandSelectors, BrandProbe(eng, soup));
    info := BuildBasicInfo(title, ProductId(eng, soup, currentUrl), Category(eng, soup), brand);
  }

  /** The keys of `basic_info`: `category` always, each other key exactly when its source yields a value. */
  lemma BasicInfoKeys(title: Option<string>, productId: Option<string>, category: string, brand: Option<string>)
    ensures BasicInfoOf(title, productId, category, brand)["category"] == Str(category)
    ensures BasicInfoOf(title, productId, category, brand).Keys <= {"title", "product_id", "category", "brand"}
    ensures "title" in BasicInfoOf(title, productId, category, brand) <==> title.Some?
    ensures "brand" in BasicInfoOf(title, productId, category, brand) <==> brand.Some?
    ensures "product_id" in BasicInfoOf(title, productId, category, brand) <==>
      productId.Some? && productId.value != []
  {
  }
}
