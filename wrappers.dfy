/** Optional values: a Python `dict.get` that may find nothing, or a field a document may lack. */
module Wrappers {

  datatype Option<+T> = None | Some(value: T) {

    /** The value, or `default` when there is none (Python's `d.get(key, default)`). */
    function GetOr(default: T): T {
      match this
      case Some(v) => v
      case None => default
    }
  }

  /** A call to a collaborator: it returns a value or raises. */
  datatype Call<T> = Returned(value: T) | Failed
}

/** The JSON values an LLM reply can carry, reduced to what the decision rules look at. */
module Json {
  import opened Wrappers
  import Text

  /** Arrays and objects are kept only by their size: the rules only ask whether they are empty. */
  datatype Value = Null | Bool(b: bool) | Num(n: real) | Str(s: string) | Array(length: nat) | Object(size: nat)

  /** A decoded JSON object. */
  type Doc = map<string, Value>

  /** `d.get(key, default)`. */
  function Get(d: Doc, key: string, default: Value): (v: Value)
    ensures key in d ==> v == d[key]
    ensures key !in d ==> v == default
  {
    if key in d then d[key] else default
  }

  /** Python truthiness of a decoded JSON value. */
  predicate Truthy(v: Value) {
    match v
    case Null => false
    case Bool(b) => b
    case Num(n) => n != 0.0
    case Str(s) => s != ""
    case Array(k) => k > 0
    case Object(k) => k > 0
  }

  /** `float(v)` for a decoded JSON value; None where Python raises (null, arrays, objects, unparsable text). */
  function ToFloat(v: Value): (r: Option<real>)
    ensures v.Num? ==> r == Some(v.n)
    ensures v.Bool? ==> r == Some(if v.b then 1.0 else 0.0)
    ensures v.Str? ==> r == Text.ParseDecimal(v.s)
    ensures v.Null? || v.Array? || v.Object? ==> r.None?
  {
    match v
    case Null => None
    case Bool(b) => Some(if b then 1.0 else 0.0)
    case Num(n) => Some(n)
    case Str(s) => Text.ParseDecimal(s)
    case Array(_) => None
    case Object(_) => None
  }
}
