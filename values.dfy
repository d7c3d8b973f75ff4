/**
 * The dynamically typed configuration values the predictor layer works on,
 * and the few Python behaviours over them that the core relies on.
 */
module Values {

  datatype Option<+T> = None | Some(value: T)

  datatype Result<+T, +E> = Ok(value: T) | Err(error: E)

  /**
   * A configuration value as it arrives from the YAML configuration or from a
   * keyword argument. `Float` is a Python float; no arithmetic is ever done on
   * it here, so it is kept as an exact real. `Bool` is kept apart from `Int`
   * although Python treats `bool` as a subclass of `int`; the functions below
   * say where that matters.
   */
  datatype Value =
    | NoneV
    | Bool(b: bool)
    | Int(i: int)
    | Float(x: real)
    | Str(s: string)
    | List(items: seq<Value>)
    | Dict(entries: map<string, Value>)

  /** A keyword-argument dictionary (`params`, `conf`, a result row). */
  type Params = map<string, Value>

  /** `d.get(key, default)`. */
  function Get(d: Params, key: string, default: Value): (v: Value)
    ensures key in d ==> v == d[key]
    ensures key !in d ==> v == default
  {
    if key in d then d[key] else default
  }

  /** Python truthiness, as used by `if self.params.get("scale_x")`. */
  predicate Truthy(v: Value)
  {
    match v
    case NoneV => false
    case Bool(b) => b
    case Int(i) => i != 0
    case Float(x) => x != 0.0
    case Str(s) => |s| > 0
    case List(items) => |items| > 0
    case Dict(entries) => |entries| > 0
  }

  /**
   * The integer a value denotes where Python's `range` and `+ 1` accept it:
   * an `int`, or a `bool` (which is an `int` subclass). Anything else makes
   * `range` raise a TypeError.
   */
  function AsInt(v: Value): (r: Option<int>)
    ensures r.Some? <==> (v.Int? || v.Bool?)
    ensures v.Int? ==> r == Some(v.i)
  {
    match v
    case Int(i) => Some(i)
    case Bool(b) => Some(if b then 1 else 0)
    case _ => None
  }

  /** A Python dict that several parties hold a reference to and update in place. */
  class DictRef {
    var items: Params

    constructor (items: Params)
      ensures this.items == items
    {
      this.items := items;
    }
  }
}
