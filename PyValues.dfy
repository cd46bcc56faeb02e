/**
 * What the analyzer's reading of a loaded record relies on from Python itself: `dict.get` on a
 * value that may not be a dict, `float()`, `int()` and `str()` on any value, and which values can
 * be `Counter` keys.  Exceptions the analyzer does not catch end an analysis as a `Fault`.
 */
module PyValues {
  import opened Values
  import opened Strings
  import NumberText

  /**
   * The exceptions that escape an analysis: a missing method (`.get` on a non-dict, `.replace`
   * on a non-str) and an unhashable `Counter` key.
   */
  datatype Fault = AttributeError | TypeError

  /** How a step of an analysis ended: with its value, or with an exception nobody catches. */
  datatype Outcome<T> = Done(value: T) | Failed(fault: Fault)

  /**
   * The built-ins the model leaves to Python: `float()` of a string (None where it raises
   * ValueError) and `str()` of a float, a bool or a container.
   */
  datatype Py = Py(floatOf: string -> Option<real>, text: Value -> string)

  const EmptyDict: Value := Dict(map[])

  /** `m.get(key, default)` on a dict. */
  function Lookup(m: Mapping, key: string, default: Value): Value
  {
    if key in m then m[key] else default
  }

  /** A list or a dict cannot be a `Counter` key: using one raises TypeError. */
  predicate Hashable(v: Value)
  {
    !v.List? && !v.Dict?
  }

  /** `int(x)` of a float: the integer part, rounded toward zero. */
  function Truncate(x: real): (r: int)
    ensures x >= 0.0 ==> r as real <= x < r as real + 1.0
    ensures x < 0.0 ==> r as real - 1.0 < x <= r as real
  {
    if x >= 0.0 then x.Floor else -((-x).Floor)
  }

  /** `float(v)`; None where it raises ValueError or TypeError. */
  function ToFloat(py: Py, v: Value): Option<real>
  {
    match v
    case Str(s) => py.floatOf(s)
    case Int(i) => Some(i as real)
    case Float(x) => Some(x)
    case Bool(b) => Some(if b then 1.0 else 0.0)
    case _ => None
  }

  /** `int(v)`; None where it raises ValueError or TypeError. */
  function ToInt(v: Value): Option<int>
  {
    match v
    case Str(s) => PyInt(s)
    case Int(i) => Some(i)
    case Float(x) => Some(Truncate(x))
    case Bool(b) => Some(if b then 1 else 0)
    case _ => None
  }

  /** `str(v)`: a string is itself and an int its decimal digits; the rest is left to Python. */
  function TextOf(py: Py, v: Value): string
  {
    match v
    case Str(s) => s
    case Int(i) => NumberText.IntText(i)
    case _ => py.text(v)
  }

  /**
   * `if v: float(v.replace('%', ''))` inside `try ... except (ValueError, TypeError)`: nothing
   * for a falsy value, AttributeError (not caught) for a truthy value that is not a string, and
   * otherwise what `float()` reads once every `%` is gone.
   */
  function ReadPercent(py: Py, v: Value): (r: Outcome<Option<real>>)
    ensures r.Failed? <==> Truthy(v) && !v.Str?
    ensures r.Failed? ==> r.fault == AttributeError
    ensures !Truthy(v) ==> r == Done(None)
  {
    if !Truthy(v) then Done(None)
    else if !v.Str? then Failed(AttributeError)
    else Done(py.floatOf(ReplaceAll(v.s, "%", "")))
  }

  /** What a percentage reads as: the text after removing its `%` signs, never the signs. */
  lemma PercentIgnoresSign(py: Py, s: string)
    requires s != []
    ensures ReadPercent(py, Str(s)) == Done(py.floatOf(ReplaceAll(s, "%", "")))
    ensures '%' !in ReplaceAll(s, "%", "")
  {
    ReplaceCharRemoves(s, '%', "");
  }

  /** An int in place of text reads as its magnitude, as a str of its digits would. */
  lemma IntFollowers(py: Py, n: int)
    requires n != 0
    ensures NumberText.NumberFromText(TextOf(py, Int(n))) == Some(if n < 0 then -n else n)
  {
    NumberText.IntTextRead(n);
  }
}
