/** Meta tags of the offline scraper: five OpenGraph properties and the app links. */
module OfflineMeta {
  import opened Values
  import opened Strings
  import opened Sequences
  import opened Document
  import opened OfflineQueries
  import LiveMeta

  const OgTags: seq<string> := ["og:title", "og:description", "og:image", "og:url", "og:type"]
  const OgNames: seq<string> := ["title", "description", "image", "url", "type"]

  /** `tag.replace(':', '_')`. */
  function OgKey(tag: string): string
  {
    ReplaceAll(tag, ":", "_")
  }

  /** What one listed OpenGraph property contributes: its content (empty when it has none) when its tag is there. */
  function OgEntry(soup: Node, tag: string): Mapping
  {
    match Find(soup, AttrTest("meta", "property", tag))
    case Some(e) => map[OgKey(tag) := Str(AttrOr(e, "content", ""))]
    case None => map[]
  }

  function OgEntryFn(soup: Node): string -> Mapping
  {
    tag => OgEntry(soup, tag)
  }

  /** `find_all('meta', {'property': re.compile(r'^al:')})`: meta tags whose property starts with `al:`. */
  function AppLinkTest(): Node -> bool
  {
    (n: Node) => n.Element? && n.tag == "meta" && Attr(n, "property").Some? && "al:" <= Attr(n, "property").value
  }

  /** `meta_tags`: the OpenGraph entries, and `app_links` whenever some `al:` tag exists, even if none had content. */
  function MetaOf(og: Mapping, alTags: seq<Node>): Mapping
  {
    if alTags != [] then og["app_links" := Dict(MergeAll(alTags, LiveMeta.AppLinkEntry))] else og
  }

  function MetaTags(soup: Node): Mapping
  {
    MetaOf(MergeAll(OgTags, OgEntryFn(soup)), FindAll(soup, AppLinkTest()))
  }

  method ExtractMetaTags(soup: Node) returns (meta: Mapping)
    ensures meta == MetaTags(soup)
  {
    meta := MergeEach(OgTags, OgEntryFn(soup));
    var alTags := FindAll(soup, AppLinkTest());
    if alTags != [] {
      var links := MergeEach(alTags, LiveMeta.AppLinkEntry);
      meta := meta["app_links" := Dict(links)];
    }
  }

  /** Replacing `:` in `og:<name>`, for a name without `:`, gives `og_<name>`. */
  lemma OgKeyOf(name: string)
    requires ':' !in name
    ensures OgKey("og:" + name) == "og_" + name
  {
    NoColonUnchanged(name);
    var t := "og:" + name;
    var t1 := t[1..];
    var t2 := t1[1..];
    assert t[0] == 'o' && t1[0] == 'g' && t2[0] == ':' && t2[1..] == name;
    assert !(":" <= t) && !(":" <= t1) && ":" <= t2;
    assert ReplaceAll(t2, ":", "_") == "_" + name;
    assert ReplaceAll(t1, ":", "_") == "g_" + name;
    assert ReplaceAll(t, ":", "_") == "og_" + name;
  }

  /** A string without `:` is left as it is. */
  lemma {:induction false} NoColonUnchanged(s: string)
    requires ':' !in s
    ensures ReplaceAll(s, ":", "_") == s
  {
    if s != [] {
      assert s[0] != ':';
      NoColonUnchanged(s[1..]);
    }
  }

  /** One of the five listed OpenGraph properties, as `og_<name>`. */
  predicate IsOgKey(key: string, v: Value)
  {
    exists k :: 0 <= k < |OgNames| && key == "og_" + OgNames[k]
  }

  /** The five listed tags give the keys `og_title`, `og_description`, `og_image`, `og_url` and `og_type`. */
  lemma OgKeyAt(j: nat)
    requires j < |OgTags|
    ensures OgKey(OgTags[j]) == "og_" + OgNames[j]
  {
    assert OgTags[j] == "og:" + OgNames[j];
    assert ':' !in OgNames[j];
    OgKeyOf(OgNames[j]);
  }

  /** A listed tag contributes at most its own key. */
  lemma OgEntryKey(soup: Node, tag: string)
    ensures forall key :: key in OgEntry(soup, tag) ==> key == OgKey(tag)
  {
  }

  /** Only the five listed properties are read, each stored as `og_<name>`. */
  lemma OgEntries(soup: Node)
    ensures forall key :: key in MergeAll(OgTags, OgEntryFn(soup)) ==> IsOgKey(key, MergeAll(OgTags, OgEntryFn(soup))[key])
  {
    var f := OgEntryFn(soup);
    forall j, key | 0 <= j < |OgTags| && key in f(OgTags[j])
      ensures IsOgKey(key, f(OgTags[j])[key])
    {
      assert f(OgTags[j]) == OgEntry(soup, OgTags[j]);
      OgEntryKey(soup, OgTags[j]);
      OgKeyAt(j);
    }
    MergeEntries(OgTags, f, IsOgKey);
  }

  /** `app_links` is there exactly when some `al:` tag exists, holding the tags' non-empty entries. */
  lemma AppLinksPresence(og: Mapping, alTags: seq<Node>)
    ensures "app_links" in MetaOf(og, alTags) <==> alTags != [] || "app_links" in og
    ensures alTags != [] ==> MetaOf(og, alTags)["app_links"] == Dict(MergeAll(alTags, LiveMeta.AppLinkEntry))
    ensures forall key :: key in og && key != "app_links" ==> key in MetaOf(og, alTags) && MetaOf(og, alTags)[key] == og[key]
  {
  }

  /**
   * One `al:` tag without content gives an empty `app_links` here, while the live scraper stores
   * no `app_links` at all.
   */
  lemma EmptyAppLinks(og: Mapping, tag: Node, named: Mapping)
    requires AttrOr(tag, "content", "") == []
    requires "app_links" !in named
    ensures MetaOf(og, [tag])["app_links"] == Dict(map[])
    ensures "app_links" in og || "app_links" !in LiveMeta.MetaOf(og, MergeAll([tag], LiveMeta.AppLinkEntry), named)
  {
    assert [tag][..0] == [];
    assert MergeAll([tag], LiveMeta.AppLinkEntry) == LiveMeta.AppLinkEntry(tag) == map[];
  }
}
