/** The Python values the lifecycle code passes around: optional values,
    the exceptions it raises, and the settings dictionaries (execution
    settings, INCAR keys, phonopy settings, calculator keyword arguments). */
module Values {

  datatype Option<T> = None | Some(value: T)

  /** The exceptions that escape from the modelled operations. */
  datatype Error =
    | KeyError(key: string)
    | IndexError
    | TypeError(what: string)
    | AttributeError(name: string)
    | NameError(name: string)
    | ValueError(text: string)
    | OSError(path: string)
    | IOError(path: string)
    | UnboundLocalError(name: string)
    | NotImplementedError

  datatype Result<T> = Ok(value: T) | Err(error: Error)

  /** An operation that returns nothing or raises. */
  datatype Outcome = Pass | Raise(error: Error)

  /** A JSON/YAML-like Python value. Floats are kept abstract as reals. */
  datatype Value =
    | NoneV
    | BoolV(b: bool)
    | IntV(i: int)
    | RealV(x: real)
    | StrV(s: string)
    | ListV(items: seq<Value>)
    | DictV(entries: map<string, Value>)

  type Settings = map<string, Value>

  /** Python's `d[key]` on a value that should be a dict. */
  function Lookup(d: Value, key: string): (r: Result<Value>)
    ensures r.Ok? <==> d.DictV? && key in d.entries
    ensures r.Ok? ==> r.value == d.entries[key]
  {
    if !d.DictV? then Err(TypeError("subscript of a non-dict"))
    else if key in d.entries then Ok(d.entries[key])
    else Err(KeyError(key))
  }

  /** Python's `xs[k]` on a list or a string, with negative indices counting
      from the end. */
  function Subscript(xs: Value, k: int): (r: Result<Value>)
    ensures xs.ListV? && 0 <= k < |xs.items| ==> r == Ok(xs.items[k])
    ensures xs.ListV? && -|xs.items| <= k < 0 ==> r == Ok(xs.items[|xs.items| + k])
    ensures (xs.ListV? || xs.StrV?) && r.Err? ==> r.error == IndexError
  {
    match xs
    case ListV(items) =>
      if 0 <= k < |items| then Ok(items[k])
      else if -|items| <= k < 0 then Ok(items[|items| + k])
      else Err(IndexError)
    case StrV(s) =>
      if 0 <= k < |s| then Ok(StrV([s[k]]))
      else if -|s| <= k < 0 then Ok(StrV([s[|s| + k]]))
      else Err(IndexError)
    case DictV(_) => Err(KeyError("integer key"))
    case _ => Err(TypeError("subscript"))
  }

  /** Python 2's `n < v` for an int `n`: numbers compare by value (a bool
      counts as 0 or 1); any non-number compares greater than every number. */
  predicate IntLess(n: int, v: Value)
  {
    match v
    case IntV(i) => n < i
    case BoolV(b) => n < (if b then 1 else 0)
    case RealV(x) => (n as real) < x
    case NoneV => false
    case _ => true
  }
}
