/** Decoded JSON payloads as the gateway integration sees them, with the few
    Python operations the integration applies to them: truthiness, `dict.get`,
    the `in` operator and `len`.  An operation Python would refuse raises a
    `PyError`, which the integration never catches unless it says so. */
module PyValues {

  import opened Text

  datatype Option<+T> = None | Some(value: T)

  datatype Result<+T, +E> = Ok(value: T) | Err(error: E)

  /** The built-in exceptions that surface from a payload of the wrong shape. */
  datatype PyError = TypeError | AttributeError | KeyError | ValueError

  /** A decoded JSON value (fractional JSON numbers are not modelled). */
  datatype Value =
    | Null
    | Bool(b: bool)
    | Int(i: int)
    | Str(s: string)
    | List(items: seq<Value>)
    | Dict(fields: map<string, Value>)

  /** Python truthiness: `bool(v)`. */
  predicate Truthy(v: Value) {
    match v
    case Null => false
    case Bool(b) => b
    case Int(i) => i != 0
    case Str(s) => s != ""
    case List(xs) => xs != []
    case Dict(m) => m != map[]
  }

  /** `m.get(key, default)` on a dict. */
  function GetOr(m: map<string, Value>, key: string, default: Value): (r: Value)
    ensures key in m ==> r == m[key]
    ensures key !in m ==> r == default
  {
    if key in m then m[key] else default
  }

  /** `m.get(key)`: a missing key reads as None. */
  function Get(m: map<string, Value>, key: string): Value {
    GetOr(m, key, Null)
  }

  /** `v.get(key, default)` on a value that may not be a dict: only a dict
      has a `get` method. */
  function GetAttrOr(v: Value, key: string, default: Value): (r: Result<Value, PyError>)
    ensures r.Ok? <==> v.Dict?
    ensures v.Dict? ==> r.value == GetOr(v.fields, key, default)
    ensures r.Err? ==> r.error == AttributeError
  {
    if v.Dict? then Ok(GetOr(v.fields, key, default)) else Err(AttributeError)
  }

  /** `v.get(key)` on a value that may not be a dict. */
  function GetAttr(v: Value, key: string): Result<Value, PyError> {
    GetAttrOr(v, key, Null)
  }

  /** `p` occurs as a contiguous block of `s`. */
  predicate IsSubstring(p: string, s: string) {
    StartsWith(s, p) || (s != [] && IsSubstring(p, s[1..]))
  }

  /** Python's `key in container` for a string key. */
  function Contains(container: Value, key: string): (r: Result<bool, PyError>)
    ensures container.Dict? ==> r == Ok(key in container.fields)
    ensures r.Err? <==> !(container.Dict? || container.Str? || container.List?)
  {
    match container
    case Dict(m) => Ok(key in m)
    case Str(s) => Ok(IsSubstring(key, s))
    case List(xs) => Ok(Str(key) in xs)
    case _ => Err(TypeError)
  }

  /** Python's `len(v)`. */
  function Len(v: Value): (r: Result<nat, PyError>)
    ensures v.List? ==> r == Ok(|v.items|)
    ensures r.Err? <==> !(v.Dict? || v.Str? || v.List?)
  {
    match v
    case Dict(m) => Ok(|m|)
    case Str(s) => Ok(|s|)
    case List(xs) => Ok(|xs|)
    case _ => Err(TypeError)
  }
}
