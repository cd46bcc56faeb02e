/**
 * The values a scraper record holds, as Python's `dict`/`list`/`str`/`int`/`float`/`bool`/`None`
 * and as `json.loads` returns them.  Floats are modelled exactly, as `real`.
 */
module Values {

  datatype Option<+T> = None | Some(value: T)

  datatype Value =
    | Null
    | Bool(b: bool)
    | Int(i: int)
    | Float(r: real)
    | Str(s: string)
    | List(items: seq<Value>)
    | Dict(fields: map<string, Value>)

  /** A Python dict with string keys; key order is not modelled. */
  type Mapping = map<string, Value>

  /** Python truthiness of a value (`if v:`). */
  predicate Truthy(v: Value)
  {
    match v
    case Null => false
    case Bool(b) => b
    case Int(i) => i != 0
    case Float(r) => r != 0.0
    case Str(s) => s != []
    case List(items) => items != []
    case Dict(fields) => fields != map[]
  }

  /** `m.get(key)` is truthy. */
  predicate HasTruthy(m: Mapping, key: string)
  {
    key in m && Truthy(m[key])
  }

  /** `m[key] = v` when there is a value to store, `m` otherwise. */
  function Put(m: Mapping, key: string, v: Option<Value>): Mapping
  {
    if v.Some? then m[key := v.value] else m
  }

  /** `Str` of an optional string. */
  function StrOf(s: Option<string>): (r: Option<Value>)
    ensures r.Some? <==> s.Some?
    ensures s.Some? ==> r.value == Str(s.value)
  {
    if s.Some? then Some(Str(s.value)) else None
  }

  function IntOf(n: Option<int>): (r: Option<Value>)
    ensures r.Some? <==> n.Some?
    ensures n.Some? ==> r.value == Int(n.value)
  {
    if n.Some? then Some(Int(n.value)) else None
  }

  function FloatOf(x: Option<real>): (r: Option<Value>)
    ensures r.Some? <==> x.Some?
    ensures x.Some? ==> r.value == Float(x.value)
  {
    if x.Some? then Some(Float(x.value)) else None
  }

  /** A list of strings as a value. */
  function StrList(ss: seq<string>): (r: Value)
    ensures r.List? && |r.items| == |ss|
    ensures forall k :: 0 <= k < |ss| ==> r.items[k] == Str(ss[k])
  {
    List(seq(|ss|, k requires 0 <= k < |ss| => Str(ss[k])))
  }

  /** A list value, stored only when it has entries (`if items: d[key] = items`). */
  function NonEmptyList(items: seq<Value>): (r: Option<Value>)
    ensures r.Some? <==> items != []
    ensures r.Some? ==> r.value == List(items)
  {
    if items != [] then Some(List(items)) else None
  }

  /** `if v: m[key] = v` as a statement: stores the value when there is one. */
  method Store(m: Mapping, key: string, v: Option<Value>) returns (r: Mapping)
    ensures r == Put(m, key, v)
  {
    r := m;
    if v.Some? {
      r := r[key := v.value];
    }
  }

  /**
   * How a step that can raise ended: with its result, or with an exception after building
   * `partial`.  The extractors catch every exception and return what they had built.
   */
  datatype Attempt = Completed(result: Mapping) | Raised(partial: Mapping)

  /** `try: ... except Exception: pass; return d`. */
  function Recovered(a: Attempt): Mapping
  {
    match a
    case Completed(m) => m
    case Raised(m) => m
  }

  /** A mapping as a list entry, when it is not empty (`if d: items.append(d)`). */
  function NonEmptyDict(m: Mapping): (r: Option<Value>)
    ensures r.Some? <==> m != map[]
  {
    if m != map[] then Some(Dict(m)) else None
  }

  /** `d.update({})` changes nothing. */
  lemma UpdateWithEmpty(m: Mapping, e: Mapping)
    requires e == map[]
    ensures m + e == m
  {
  }

  /** Updating with `b` and then with `c` is updating with `b` updated by `c`. */
  lemma UpdateAssoc(a: Mapping, b: Mapping, c: Mapping)
    ensures (a + b) + c == a + (b + c)
  {
  }
}
