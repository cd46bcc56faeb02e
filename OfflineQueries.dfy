/**
 * The queries the offline scraper makes with `find`/`find_all` and keyword filters: a tag with a
 * class, a tag with an attribute value, a tag carrying an attribute, and a tag whose single
 * string a pattern matches.
 */
module OfflineQueries {
  import opened Values
  import opened Strings
  import opened Sequences
  import opened Document

  /** `find_all(tag, class_=cls)`: an element with that tag and `cls` among its classes. */
  function ClassTest(tag: string, cls: string): Node -> bool
  {
    (n: Node) => n.Element? && n.tag == tag && cls in n.classes
  }

  /** `find_all(tag, {name: value})`: an element with that tag whose attribute `name` is `value`. */
  function AttrTest(tag: string, name: string, value: string): Node -> bool
  {
    (n: Node) => n.Element? && n.tag == tag && Attr(n, name) == Some(value)
  }

  /** `find_all(tag, {name: True})`: an element with that tag carrying attribute `name`. */
  function HasAttrTest(tag: string, name: string): Node -> bool
  {
    (n: Node) => n.Element? && n.tag == tag && name in n.attrs
  }

  /** `find_all(tag, string=re.compile(pattern))`: an element with that tag whose `.string` the pattern matches. */
  function StringTest(eng: Engine, tag: string, pattern: Pattern): Node -> bool
  {
    (n: Node) => n.Element? && n.tag == tag && StringOf(n).Some? && eng.search(pattern, StringOf(n).value).Some?
  }

  /** As `StringTest`, for a pattern that is a plain word: its `.string` contains `word`. */
  function WordTest(tag: string, word: string): Node -> bool
  {
    (n: Node) => n.Element? && n.tag == tag && StringOf(n).Some? && Contains(StringOf(n).value, word)
  }

  /** `elem = scope.find(...); if elem: elem.get_text(strip=True)`. */
  function FoundText(scope: Node, test: Node -> bool): Option<string>
  {
    match Find(scope, test)
    case Some(e) => Some(StrippedText(e))
    case None => None
  }
}
