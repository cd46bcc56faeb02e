/** Meta tags of the live scraper: OpenGraph properties, app links and three named meta tags. */
module LiveMeta {
  import opened Values
  import opened Strings
  import opened Sequences
  import opened Document

  const OgSelector: Selector := "meta[property^=\"og:\"]"
  const AppLinkSelector: Selector := "meta[property^=\"al:\"]"
  const ImportantMeta: seq<string> := ["description", "keywords", "author"]

  /** What one OpenGraph tag contributes: `og_<property without "og:">`, when that and the content are non-empty. */
  function OgEntry(tag: Node): Mapping
  {
    var prop := ReplaceAll(AttrOr(tag, "property", ""), "og:", "");
    var content := AttrOr(tag, "content", "");
    if prop != [] && content != [] then map["og_" + prop := Str(content)] else map[]
  }

  /** What one app-link tag contributes: its property as it is, when that and the content are non-empty. */
  function AppLinkEntry(tag: Node): Mapping
  {
    var prop := AttrOr(tag, "property", "");
    var content := AttrOr(tag, "content", "");
    if prop != [] && content != [] then map[prop := Str(content)] else map[]
  }

  /** `meta[name="<name>"]`: its content, or the empty string when it has none. */
  function NamedEntry(eng: Engine, soup: Node, name: string): Mapping
  {
    match SelectOne(eng, soup, "meta[name=\"" + name + "\"]")
    case Some(tag) => map[name := Str(AttrOr(tag, "content", ""))]
    case None => map[]
  }

  function NamedEntryFn(eng: Engine, soup: Node): string -> Mapping
  {
    name => NamedEntry(eng, soup, name)
  }

  /** An OpenGraph entry: a key `og_` followed by something, and a non-empty text. */
  predicate OgShaped(key: string, v: Value)
  {
    |key| > 3 && key[..3] == "og_" && v.Str? && v.s != []
  }

  /** A named entry: one of the three names, with a text. */
  predicate NamedShaped(key: string, v: Value)
  {
    (key == "description" || key == "keywords" || key == "author") && v.Str?
  }

  /** `meta_tags`: the OpenGraph entries, `app_links` when some app link was kept, then the named tags. */
  function MetaOf(og: Mapping, appLinks: Mapping, named: Mapping): Mapping
  {
    (if appLinks != map[] then og["app_links" := Dict(appLinks)] else og) + named
  }

  function MetaTags(eng: Engine, soup: Node): Mapping
  {
    MetaOf(MergeAll(Select(eng, soup, OgSelector), OgEntry),
           MergeAll(Select(eng, soup, AppLinkSelector), AppLinkEntry),
           MergeAll(ImportantMeta, NamedEntryFn(eng, soup)))
  }

  method ExtractMetaTags(eng: Engine, soup: Node) returns (meta: Mapping)
    ensures meta == MetaTags(eng, soup)
  {
    meta := MergeEach(Select(eng, soup, OgSelector), OgEntry);
    var appLinks := MergeEach(Select(eng, soup, AppLinkSelector), AppLinkEntry);
    if appLinks != map[] {
      meta := meta["app_links" := Dict(appLinks)];
    }
    var named := MergeEach(ImportantMeta, NamedEntryFn(eng, soup));
    meta := meta + named;
  }

  /** Every OpenGraph entry is keyed `og_...` and holds a non-empty content. */
  lemma OgEntries(tags: seq<Node>)
    ensures forall key :: key in MergeAll(tags, OgEntry) ==> OgShaped(key, MergeAll(tags, OgEntry)[key])
  {
    forall j, key | 0 <= j < |tags| && key in OgEntry(tags[j])
      ensures OgShaped(key, OgEntry(tags[j])[key])
    {
      var prop := ReplaceAll(AttrOr(tags[j], "property", ""), "og:", "");
      assert key == "og_" + prop;
      assert key[..3] == "og_";
    }
    MergeEntries(tags, OgEntry, OgShaped);
  }

  /** Only the three names are read from named meta tags, and a found tag is stored even without content. */
  lemma NamedEntries(eng: Engine, soup: Node)
    ensures forall key :: key in MergeAll(ImportantMeta, NamedEntryFn(eng, soup)) ==>
      NamedShaped(key, MergeAll(ImportantMeta, NamedEntryFn(eng, soup))[key])
  {
    forall j, key | 0 <= j < |ImportantMeta| && key in NamedEntryFn(eng, soup)(ImportantMeta[j])
      ensures NamedShaped(key, NamedEntryFn(eng, soup)(ImportantMeta[j])[key])
    {
      assert key == ImportantMeta[j];
    }
    MergeEntries(ImportantMeta, NamedEntryFn(eng, soup), NamedShaped);
  }

  /**
   * `app_links` is present exactly when some app-link tag had a property and a content, and
   * the OpenGraph entries survive beside it and the named tags.
   */
  lemma AppLinksPresence(og: Mapping, appLinks: Mapping, named: Mapping)
    requires forall key :: key in og ==> OgShaped(key, og[key])
    requires forall key :: key in named ==> NamedShaped(key, named[key])
    ensures "app_links" in MetaOf(og, appLinks, named) <==> appLinks != map[]
    ensures appLinks != map[] ==> MetaOf(og, appLinks, named)["app_links"] == Dict(appLinks)
    ensures forall key :: key in og ==> key in MetaOf(og, appLinks, named) && MetaOf(og, appLinks, named)[key] == og[key]
  {
    assert "app_links"[..3][0] == 'a';
    forall key | key in og
      ensures key !in named && key != "app_links"
    {
      assert key[..3] == "og_";
      assert "description"[..3][0] == 'd' && "keywords"[..3][0] == 'k' && "author"[..3][0] == 'a';
    }
  }
}
