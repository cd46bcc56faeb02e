/**
 * JavaScript data of the offline scraper: `window.runParams` and `window._d_c_.DCData`, each
 * from the scripts that mention it, stored only when the captured object parses as JSON.
 */
module OfflineScripts {
  import opened Values
  import opened Strings
  import opened Sequences
  import opened Document
  import opened OfflineQueries
  import LiveImages
  import LiveScripts

  const RunParamsWord: string := "window.runParams"
  const RunParamsPattern: Pattern := "(?s)window\\.runParams\\s*=\\s*({.*?});"
  const DCDataWord: string := "window._d_c_"
  const DCDataPattern: Pattern := "(?s)window\\._d_c_\\.DCData\\s*=\\s*({.*?});"

  /** What one script contributes under `key`: the parsed capture; nothing when there is no match or it does not parse. */
  function ScriptEntry(eng: Engine, key: string, pattern: Pattern, script: Node): Mapping
  {
    match LiveImages.ParsedGroup(eng, pattern, TextOf(script))
    case Some(v) => map[key := v]
    case None => map[]
  }

  function ScriptEntryFn(eng: Engine, key: string, pattern: Pattern): Node -> Mapping
  {
    script => ScriptEntry(eng, key, pattern, script)
  }

  /** The scripts whose single string mentions `word`, in document order. */
  function ScriptsWith(soup: Node, word: string): seq<Node>
  {
    FindAll(soup, WordTest("script", word))
  }

  /** `javascript_data`: the `runParams` loop, then the `DCData` loop, a later script replacing an earlier one. */
  function JavascriptData(eng: Engine, soup: Node): Mapping
  {
    MergeAll(ScriptsWith(soup, RunParamsWord), ScriptEntryFn(eng, "runParams", RunParamsPattern))
    + MergeAll(ScriptsWith(soup, DCDataWord), ScriptEntryFn(eng, "DCData", DCDataPattern))
  }

  method ExtractJavascriptData(eng: Engine, soup: Node) returns (js: Mapping)
    ensures js == JavascriptData(eng, soup)
  {
    js := MergeEach(ScriptsWith(soup, RunParamsWord), ScriptEntryFn(eng, "runParams", RunParamsPattern));
    var dc := MergeEach(ScriptsWith(soup, DCDataWord), ScriptEntryFn(eng, "DCData", DCDataPattern));
    js := js + dc;
  }

  /**
   * The entry is there exactly when some script's capture parses, and then it is the parse of
   * the last such script: a capture that does not parse leaves no trace, unlike the live
   * scraper's raw-text fallback.
   */
  lemma EntryPresence(eng: Engine, key: string, pattern: Pattern, scripts: seq<Node>)
    ensures key in MergeAll(scripts, ScriptEntryFn(eng, key, pattern)) <==>
      exists j :: 0 <= j < |scripts| && LiveImages.ParsedGroup(eng, pattern, TextOf(scripts[j])).Some?
    ensures forall k :: k in MergeAll(scripts, ScriptEntryFn(eng, key, pattern)) ==> k == key
  {
    var f := ScriptEntryFn(eng, key, pattern);
    MergeKeys(scripts, f);
    assert forall j :: 0 <= j < |scripts| ==>
      (key in f(scripts[j]) <==> LiveImages.ParsedGroup(eng, pattern, TextOf(scripts[j])).Some?);
  }

  /** The last script whose capture parses decides the value. */
  lemma LastParsedWins(eng: Engine, key: string, pattern: Pattern, scripts: seq<Node>, j: nat)
    requires j < |scripts| && LiveImages.ParsedGroup(eng, pattern, TextOf(scripts[j])).Some?
    requires forall i :: j < i < |scripts| ==> LiveImages.ParsedGroup(eng, pattern, TextOf(scripts[i])).None?
    ensures key in MergeAll(scripts, ScriptEntryFn(eng, key, pattern))
    ensures MergeAll(scripts, ScriptEntryFn(eng, key, pattern))[key] ==
      LiveImages.ParsedGroup(eng, pattern, TextOf(scripts[j])).value
  {
    var f := ScriptEntryFn(eng, key, pattern);
    assert key in f(scripts[j]);
    assert forall i :: j < i < |scripts| ==> key !in f(scripts[i]);
    MergeLastWins(scripts, f, key, j);
  }

  /** Only `runParams` and `DCData` are ever stored, and `DCData` from the second loop alone. */
  lemma ScriptKeys(eng: Engine, soup: Node)
    ensures forall k :: k in JavascriptData(eng, soup) ==> k == "runParams" || k == "DCData"
    ensures "DCData" in JavascriptData(eng, soup) <==>
      "DCData" in MergeAll(ScriptsWith(soup, DCDataWord), ScriptEntryFn(eng, "DCData", DCDataPattern))
  {
    EntryPresence(eng, "runParams", RunParamsPattern, ScriptsWith(soup, RunParamsWord));
    EntryPresence(eng, "DCData", DCDataPattern, ScriptsWith(soup, DCDataWord));
  }

  /** A `runParams` capture that is not JSON is dropped here; the live scraper keeps it as text. */
  lemma NoRawFallback(eng: Engine, script: Node, g: string)
    requires eng.search(RunParamsPattern, TextOf(script)) == Some(g) && eng.parseJson(g).None?
    ensures ScriptEntry(eng, "runParams", RunParamsPattern, script) == map[]
    ensures LiveScripts.JsEntry(eng, TextOf(script), LiveScripts.JsObjects[0]) == map["runParams" := Str(g)]
  {
  }
}
