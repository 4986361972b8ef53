/** The Python values that the job pool passes around: request bodies, job
    results, and the exceptions a call can raise. */
module Values {

  datatype Option<+T> = None | Some(value: T)

  /** The outcome of a Python call: it returns a value or raises an exception. */
  datatype Result<+T> = Ok(value: T) | Raise(error: PyError)

  datatype PyError =
    | KeyError(key: string)
    | ValueError(message: string)
    | RuntimeError(message: string)

  /** A JSON request body, taken as an object whose fields hold strings. */
  type Payload = map<string, string>

  /** Python values. A job's stored result is only ever `NoneValue` or a
      `MeanTable`, the dictionary from location to mean that the states_mean
      aggregation returns; `BoolValue`, `IntValue` and `FloatValue` are here
      only so that `EqualsTrue` says what Python's `== True` means. */
  datatype Value =
    | NoneValue
    | BoolValue(b: bool)
    | IntValue(i: int)
    | FloatValue(f: real)
    | MeanTable(means: map<string, real>)

  /** Python's `v == True`: `bool` is a subclass of `int`, so `1` and `1.0`
      compare equal to `True` as well; `None` and dictionaries never do. */
  predicate EqualsTrue(v: Value)
    ensures EqualsTrue(v) <==> v in {BoolValue(true), IntValue(1), FloatValue(1.0)}
  {
    match v
    case BoolValue(b) => b
    case IntValue(i) => i == 1
    case FloatValue(f) => f == 1.0
    case _ => false
  }

  /** `d.get(key, None)` */
  function Get(d: Payload, key: string): (r: Option<string>)
    ensures r.None? <==> key !in d
    ensures r.Some? ==> r.value == d[key]
  {
    if key in d then Some(d[key]) else None
  }
}
