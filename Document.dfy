/**
 * The parsed page as the extractors see it, and the parser library's query primitives over it.
 *
 * A page is a tree of elements and text strings; the root is the parser's document object.
 * Three things the parser library and Python's `re`/`json` modules compute are parameters of the
 * model, gathered in an `Engine`: whether a CSS selector matches an element, the first match of a
 * regular expression in a string (its first group, or the whole match for a pattern without one),
 * the `(key, value)` pairs `re.findall` returns for a two-group pattern, and what `json.loads`
 * returns (None when it raises).  Everything proved here holds whatever these functions are.
 */
module Document {
  import opened Values
  import opened Strings
  import opened Sequences

  type Selector = string
  type Pattern = string

  /** An element (its tag, its attributes other than `class`, its classes, its children) or a text string. */
  datatype Node =
    | Element(tag: string, attrs: map<string, string>, classes: seq<string>, children: seq<Node>)
    | TextNode(content: string)

  datatype Engine = Engine(
    matches: (Selector, Node) -> bool,
    search: (Pattern, string) -> Option<string>,
    findPairs: (Pattern, string) -> seq<(string, string)>,
    parseJson: string -> Option<Value>)

  function ChildrenOf(n: Node): seq<Node>
  {
    if n.Element? then n.children else []
  }

  /** Every element below the nodes `cs`, in document order. */
  function Elements(cs: seq<Node>): seq<Node>
    decreases cs
  {
    if cs == [] then []
    else (if cs[0].Element? then [cs[0]] + Elements(cs[0].children) else []) + Elements(cs[1..])
  }

  /** The elements strictly below `scope`, in document order (what `select` and `find_all` search). */
  function Descendants(scope: Node): seq<Node>
  {
    Elements(ChildrenOf(scope))
  }

  /**
   * The elements whose strings the parser stores under classes of their own (`Script`,
   * `Stylesheet`, `TemplateString`), which `get_text()` on any other element passes over.
   */
  const StringContainers: set<string> := {"script", "style", "template"}

  /**
   * The text strings below the nodes `cs` that `get_text()` collects, in document order: every
   * string except those inside a script, style or template element among `cs` or below them.
   */
  function TextStrings(cs: seq<Node>): seq<string>
    decreases cs
  {
    if cs == [] then []
    else
      (if cs[0].TextNode? then [cs[0].content]
       else if cs[0].tag in StringContainers then []
       else TextStrings(cs[0].children))
      + TextStrings(cs[1..])
  }

  /** Every text string below `cs`, paired with the element that contains it. */
  function TextsWithParent(cs: seq<Node>, parent: Node): seq<(string, Node)>
    decreases cs
  {
    if cs == [] then []
    else
      (if cs[0].TextNode? then [(cs[0].content, parent)] else TextsWithParent(cs[0].children, cs[0]))
      + TextsWithParent(cs[1..], parent)
  }

  /**
   * `get_text()`.  A script's (or style's) own strings are its children, so `script.get_text()`
   * is the script's source; the page's text leaves out every script, style and template.
   */
  function TextOf(n: Node): string
  {
    if n.TextNode? then n.content else Concat(TextStrings(n.children))
  }

  function StripAll(ss: seq<string>): seq<string>
  {
    if ss == [] then [] else [Strip(ss[0])] + StripAll(ss[1..])
  }

  lemma TextStringsAppend(cs: seq<Node>, ds: seq<Node>)
    ensures TextStrings(cs + ds) == TextStrings(cs) + TextStrings(ds)
  {
    if cs == [] {
      assert cs + ds == ds;
    } else {
      assert (cs + ds)[0] == cs[0];
      assert (cs + ds)[1..] == cs[1..] + ds;
      TextStringsAppend(cs[1..], ds);
    }
  }

  /**
   * A script, style or template element among an element's children adds nothing to the text
   * of that element, stripped or not.
   */
  lemma {:induction false} ContainerTextSkipped(n: Node, k: nat)
    requires n.Element? && k < |n.children| && n.children[k].Element?
    requires n.children[k].tag in StringContainers
    ensures TextOf(n) == TextOf(n.(children := n.children[..k] + n.children[k + 1..]))
    ensures StrippedText(n) == StrippedText(n.(children := n.children[..k] + n.children[k + 1..]))
  {
    var cs := n.children;
    assert cs == cs[..k] + ([cs[k]] + cs[k + 1..]);
    TextStringsAppend(cs[..k], [cs[k]] + cs[k + 1..]);
    TextStringsAppend([cs[k]], cs[k + 1..]);
    assert TextStrings([cs[k]]) == [];
    TextStringsAppend(cs[..k], cs[k + 1..]);
    var m := n.(children := cs[..k] + cs[k + 1..]);
    assert TextStrings(m.children) == TextStrings(cs);
  }

  /** `get_text(strip=True)`: every string stripped, joined with nothing between them. */
  function StrippedText(n: Node): string
  {
    if n.TextNode? then Strip(n.content) else Concat(StripAll(TextStrings(n.children)))
  }

  /** The `.string` property: the text of a node whose only descendant line is a single string. */
  function StringOf(n: Node): Option<string>
  {
    match n
    case TextNode(t) => Some(t)
    case Element(_, _, _, cs) => if |cs| == 1 then StringOf(cs[0]) else None
  }

  /** The tag name (`tag.name`); a text string has none. */
  function TagOf(n: Node): string
  {
    if n.Element? then n.tag else ""
  }

  /** `tag.get(name)` for an attribute other than `class`. */
  function Attr(n: Node, name: string): Option<string>
  {
    if n.Element? && name in n.attrs then Some(n.attrs[name]) else None
  }

  /** `tag.get(name, default)`. */
  function AttrOr(n: Node, name: string, default: string): string
  {
    if n.Element? && name in n.attrs then n.attrs[name] else default
  }

  /** `tag.get('class', [])`. */
  function ClassesOf(n: Node): seq<string>
  {
    if n.Element? then n.classes else []
  }

  /** A non-empty attribute value, as `if tag.get(name):` tests it. */
  function NonEmptyAttr(n: Node, name: string): (r: Option<string>)
    ensures r.Some? ==> r.value != []
  {
    if n.Element? && name in n.attrs && n.attrs[name] != [] then Some(n.attrs[name]) else None
  }

  /** `tag.get('src') or tag.get('data-src')`, when that is non-empty. */
  function SourceOf(n: Node): (r: Option<string>)
    ensures r.Some? ==> r.value != []
  {
    if NonEmptyAttr(n, "src").Some? then NonEmptyAttr(n, "src") else NonEmptyAttr(n, "data-src")
  }

  /** `scope.select(sel)`: the matching elements below `scope`, in document order. */
  function Select(eng: Engine, scope: Node, sel: Selector): seq<Node>
  {
    Filter(Descendants(scope), SelectorTest(eng, sel))
  }

  function SelectorTest(eng: Engine, sel: Selector): Node -> bool
  {
    n => eng.matches(sel, n)
  }

  /** `scope.select_one(sel)`: the first matching element below `scope`. */
  function SelectOne(eng: Engine, scope: Node, sel: Selector): Option<Node>
  {
    First(Select(eng, scope, sel))
  }

  /** What `select_one` finds is a matching element below the scope; it finds nothing only when none matches. */
  lemma SelectOneSpec(eng: Engine, scope: Node, sel: Selector)
    ensures SelectOne(eng, scope, sel).Some? ==>
      SelectOne(eng, scope, sel).value in Descendants(scope) && eng.matches(sel, SelectOne(eng, scope, sel).value)
    ensures SelectOne(eng, scope, sel).None? <==> forall e :: e in Descendants(scope) ==> !eng.matches(sel, e)
  {
    FilterMembers(Descendants(scope), SelectorTest(eng, sel));
    var s := Select(eng, scope, sel);
    if s != [] {
      assert s[0] in s;
    }
  }

  /** `scope.find_all(...)` with a test on name and attributes: the satisfying elements below `scope`. */
  function FindAll(scope: Node, test: Node -> bool): seq<Node>
  {
    Filter(Descendants(scope), test)
  }

  /** `scope.find(...)`: the first satisfying element below `scope`. */
  function Find(scope: Node, test: Node -> bool): Option<Node>
  {
    First(FindAll(scope, test))
  }

  /** The elements below `scope` with tag `tag` (`find_all(tag)`). */
  function TagTest(tag: string): Node -> bool
  {
    (n: Node) => n.Element? && n.tag == tag
  }

  function StringHitTest(eng: Engine, pattern: Pattern): ((string, Node)) -> bool
  {
    (p: (string, Node)) => eng.search(pattern, p.0).Some?
  }

  /**
   * `soup.find(string=re.compile(pattern))` with its `.parent`: the first text string below
   * `scope` that the pattern matches, with its containing element.
   */
  function FindString(eng: Engine, scope: Node, pattern: Pattern): Option<(string, Node)>
  {
    First(Filter(TextsWithParent(ChildrenOf(scope), scope), StringHitTest(eng, pattern)))
  }

  /** The stripped text of the first element `sel` matches, if any (`if elem: elem.get_text(strip=True)`). */
  function TextOfFirst(eng: Engine, scope: Node, sel: Selector): Option<string>
  {
    match SelectOne(eng, scope, sel)
    case Some(e) => Some(StrippedText(e))
    case None => None
  }

  /** `TextOfFirst` as a function of the selector, for the cascades that take text verbatim. */
  function TextProbe(eng: Engine, scope: Node): Selector -> Option<string>
  {
    sel => TextOfFirst(eng, scope, sel)
  }

  /** The first text string matching `pattern`, when it is non-empty (`if elem:` on it). */
  function TruthyString(eng: Engine, soup: Node, pattern: Pattern): Option<(string, Node)>
  {
    var hit := FindString(eng, soup, pattern);
    if hit.Some? && hit.value.0 != [] then hit else None
  }
}
