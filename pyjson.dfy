/**
 * The value that `response.json()` hands to the script, and the two
 * Python operations the script applies to it: taking its truth value
 * (`if x:`) and subscripting it with a string key (`x["key"]`).
 */
module PyJson {
  import opened Wrappers

  /** A decoded JSON document. Numbers are kept as integers. */
  datatype Json =
    | Null
    | Bool(b: bool)
    | Num(n: int)
    | Str(s: string)
    | Arr(elems: seq<Json>)
    | Obj(fields: map<string, Json>)

  /** The exceptions that reading a decoded document can raise. */
  datatype PyError =
    | KeyError(key: string)  // a dict without the key
    | TypeError              // subscripting or iterating something that does not allow it

  /** Python's truth value: None, False, 0, "", [] and {} are false, everything else is true. */
  predicate Truthy(j: Json) {
    match j
    case Null => false
    case Bool(b) => b
    case Num(n) => n != 0
    case Str(s) => s != ""
    case Arr(elems) => elems != []
    case Obj(fields) => fields != map[]
  }

  /** `j[key]`: the value under `key` of a dict, KeyError for a dict without it, TypeError otherwise. */
  function Subscript(j: Json, key: string): Result<Json, PyError> {
    match j
    case Obj(fields) => if key in fields then Success(fields[key]) else Failure(KeyError(key))
    case _ => Failure(TypeError)
  }
}
