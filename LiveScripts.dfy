/**
 * JavaScript data of the live scraper: the objects assigned to `window.runParams`,
 * `window._d_c_.DCData`, `window.productData` and `window.pageData` in the page's scripts,
 * parsed as JSON or, when that fails, kept as the raw text.
 */
module LiveScripts {
  import opened Values
  import opened Strings
  import opened Sequences
  import opened Document

  /** The key each object is stored under and the pattern capturing it (`.` also matches newlines). */
  const JsObjects: seq<(string, Pattern)> := [
    ("runParams", "(?s)window\\.runParams\\s*=\\s*({.*?});"),
    ("DCData", "(?s)window\\._d_c_\\.DCData\\s*=\\s*({.*?});"),
    ("productData", "(?s)window\\.productData\\s*=\\s*({.*?});"),
    ("pageData", "(?s)window\\.pageData\\s*=\\s*({.*?});")]

  /** The captured object: its JSON value, or the text itself when it does not parse. */
  function JsValue(eng: Engine, group: string): Value
  {
    match eng.parseJson(group)
    case Some(v) => v
    case None => Str(group)
  }

  /** What one object pattern contributes for one script's text. */
  function JsEntry(eng: Engine, content: string, entry: (string, Pattern)): Mapping
  {
    match eng.search(entry.1, content)
    case Some(g) => map[entry.0 := JsValue(eng, g)]
    case None => map[]
  }

  function JsEntryFn(eng: Engine, content: string): ((string, Pattern)) -> Mapping
  {
    entry => JsEntry(eng, content, entry)
  }

  /** What one script contributes: every object its text assigns. */
  function ScriptJs(eng: Engine, content: string): Mapping
  {
    MergeAll(JsObjects, JsEntryFn(eng, content))
  }

  function ScriptJsFn(eng: Engine): Node -> Mapping
  {
    script => ScriptJs(eng, TextOf(script))
  }

  /** `javascript_data`: every script in turn, a later script's object replacing an earlier one's. */
  function JavascriptData(eng: Engine, soup: Node): Mapping
  {
    MergeAll(FindAll(soup, TagTest("script")), ScriptJsFn(eng))
  }

  method ExtractJavascriptData(eng: Engine, soup: Node) returns (js: Mapping)
    ensures js == JavascriptData(eng, soup)
  {
    var scripts := FindAll(soup, TagTest("script"));
    js := map[];
    var i := 0;
    while i < |scripts|
      invariant 0 <= i <= |scripts|
      invariant js == MergeAll(scripts[..i], ScriptJsFn(eng))
    {
      MergeStep(scripts, i, ScriptJsFn(eng));
      var found := MergeEach(JsObjects, JsEntryFn(eng, TextOf(scripts[i])));
      js := js + found;
      i := i + 1;
    }
    assert scripts[..|scripts|] == scripts;
  }

  /** A script's text assigns object `k` exactly when its pattern matches, and then the parsed or raw capture is stored. */
  lemma ScriptJsEntry(eng: Engine, content: string, k: nat)
    requires k < |JsObjects|
    ensures JsObjects[k].0 in ScriptJs(eng, content) <==> eng.search(JsObjects[k].1, content).Some?
    ensures eng.search(JsObjects[k].1, content).Some? ==>
      ScriptJs(eng, content)[JsObjects[k].0] == JsValue(eng, eng.search(JsObjects[k].1, content).value)
  {
    MergeKeys(JsObjects, JsEntryFn(eng, content));
    assert forall j :: 0 <= j < |JsObjects| ==> (JsObjects[k].0 in JsEntry(eng, content, JsObjects[j]) ==> j == k);
    if eng.search(JsObjects[k].1, content).Some? {
      MergeLastWins(JsObjects, JsEntryFn(eng, content), JsObjects[k].0, k);
    }
  }

  /** One of the four names the objects are stored under. */
  predicate JsKey(key: string, v: Value)
  {
    key == "runParams" || key == "DCData" || key == "productData" || key == "pageData"
  }

  /** A script's text yields only the four names. */
  lemma ScriptJsKeys(eng: Engine, content: string)
    ensures forall key :: key in ScriptJs(eng, content) ==> JsKey(key, ScriptJs(eng, content)[key])
  {
    forall j, key | 0 <= j < |JsObjects| && key in JsEntryFn(eng, content)(JsObjects[j])
      ensures JsKey(key, JsEntryFn(eng, content)(JsObjects[j])[key])
    {
      assert key == JsObjects[j].0;
    }
    MergeEntries(JsObjects, JsEntryFn(eng, content), JsKey);
  }

  /** Only the four object names are ever stored. */
  lemma JsKeys(eng: Engine, scripts: seq<Node>)
    ensures forall key :: key in MergeAll(scripts, ScriptJsFn(eng)) ==> JsKey(key, MergeAll(scripts, ScriptJsFn(eng))[key])
  {
    forall j | 0 <= j < |scripts|
      ensures forall key :: key in ScriptJsFn(eng)(scripts[j]) ==> JsKey(key, ScriptJsFn(eng)(scripts[j])[key])
    {
      ScriptJsKeys(eng, TextOf(scripts[j]));
    }
    MergeEntries(scripts, ScriptJsFn(eng), JsKey);
  }

  /**
   * The last script that assigns an entry decides its value: its JSON value, or the raw
   * captured text when that is not valid JSON.
   */
  lemma JsLastScriptWins(eng: Engine, scripts: seq<Node>, j: nat, k: nat)
    requires j < |scripts| && k < |JsObjects|
    requires eng.search(JsObjects[k].1, TextOf(scripts[j])).Some?
    requires forall i :: j < i < |scripts| ==> eng.search(JsObjects[k].1, TextOf(scripts[i])).None?
    ensures JsObjects[k].0 in MergeAll(scripts, ScriptJsFn(eng))
    ensures MergeAll(scripts, ScriptJsFn(eng))[JsObjects[k].0] ==
      JsValue(eng, eng.search(JsObjects[k].1, TextOf(scripts[j])).value)
  {
    var key := JsObjects[k].0;
    var f := ScriptJsFn(eng);
    ObjectAbsentLater(eng, scripts, j, k);
    ScriptJsEntry(eng, TextOf(scripts[j]), k);
    assert key in f(scripts[j]);
    assert f(scripts[j])[key] == JsValue(eng, eng.search(JsObjects[k].1, TextOf(scripts[j])).value);
    MergeLastWins(scripts, f, key, j);
  }

  /** Scripts whose text does not assign object `k` contribute nothing under its name. */
  lemma ObjectAbsentLater(eng: Engine, scripts: seq<Node>, j: nat, k: nat)
    requires k < |JsObjects|
    requires forall i :: j < i < |scripts| ==> eng.search(JsObjects[k].1, TextOf(scripts[i])).None?
    ensures forall i :: j < i < |scripts| ==> JsObjects[k].0 !in ScriptJsFn(eng)(scripts[i])
  {
    forall i | j < i < |scripts|
      ensures JsObjects[k].0 !in ScriptJsFn(eng)(scripts[i])
    {
      ScriptJsEntry(eng, TextOf(scripts[i]), k);
    }
  }

  /** A capture that is not valid JSON is kept as text. */
  lemma RawFallback(eng: Engine, group: string)
    requires eng.parseJson(group).None?
    ensures JsValue(eng, group) == Str(group)
  {
  }
}
