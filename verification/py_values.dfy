/** Python values as they cross the boundary between the orchestrator and the
    crews: the JSON-like objects a crew returns, Python's truthiness and
    `dict.get`, and the exceptions the modelled code can raise. */
module Py {

  /** A dynamically typed Python value of the kinds a crew or tool returns. */
  datatype Value =
    | NoneV
    | BoolV(b: bool)
    | IntV(i: int)
    | StrV(s: string)
    | ListV(items: seq<Value>)
    | DictV(entries: map<string, Value>)

  /** Exceptions raised by the modelled code. */
  datatype PyError =
    | IndexError       // `xs[-1]` on an empty list
    | AttributeError   // `.get` on something that is not a dict
    | TypeError        // iterating over something that is not iterable
    | ValidationError  // a pydantic model rejecting its fields
    | Raised(exception: string)  // any other exception, by class name, raised inside a collaborator

  /** The outcome of a Python call: its value, or the exception it raised. */
  datatype Result<+T> = Ok(value: T) | Err(error: PyError)

  datatype Option<+T> = None | Some(value: T)

  /** Python's `bool(v)`. */
  predicate Truthy(v: Value) {
    match v
    case NoneV => false
    case BoolV(b) => b
    case IntV(i) => i != 0
    case StrV(s) => s != ""
    case ListV(xs) => xs != []
    case DictV(m) => m != map[]
  }

  /** Python's `d.get(key, default)`. */
  function Get(d: map<string, Value>, key: string, default: Value): Value {
    if key in d then d[key] else default
  }
}
