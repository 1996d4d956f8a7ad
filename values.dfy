/** The parsed YAML document and the exceptions the orchestrator raises. */
module Values {
  import opened Wrappers

  /** A node of the parsed specification document (mapping keys are text). */
  datatype Value =
    | Null
    | Bool(b: bool)
    | Int(i: int)
    | Str(s: string)
    | List(items: seq<Value>)
    | Dict(fields: map<string, Value>)

  /** Python truthiness: null, false, 0 and empty containers are falsy. */
  predicate Truthy(v: Value) {
    match v
    case Null => false
    case Bool(b) => b
    case Int(i) => i != 0
    case Str(s) => s != ""
    case List(items) => items != []
    case Dict(fields) => fields != map[]
  }

  /** `d.get(key, default)` on a mapping. */
  function GetOr(m: map<string, Value>, key: string, default: Value): Value {
    if key in m then m[key] else default
  }

  /** `len(v)`; None where Python raises TypeError (null, booleans, numbers). */
  function Len(v: Value): Option<nat> {
    match v
    case Str(s) => Some(|s|)
    case List(items) => Some(|items|)
    case Dict(fields) => Some(|fields|)
    case _ => None
  }

  /** The exceptions that reach the caller. */
  datatype Error =
    | FileFormatError(path: string, entry: Option<Value>)  // humilis.exceptions.FileFormatError
    | RequiresVaultError                                   // humilis.exceptions.RequiresVaultError
    | TypeError(operation: string)
    | AttributeError(attribute: string)
    | KeyError(key: string)
    | UnboundLocalError(variable: string)
}
