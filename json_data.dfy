/** Decoded JSON documents as Python's `json` module and Flask hand them to the
    emulator, together with the few Python rules about such values that the
    modelled code depends on: truthiness, hashability and `dict.get`. */
module JsonData {

  datatype Option<+T> = None | Some(value: T)

  datatype Result<+T, +E> = Ok(value: T) | Err(error: E)

  /** A decoded JSON value: `dict` objects, `list`s, `str`, `int`, `float`, `bool` and `None`. */
  datatype Json =
    | JNull
    | JBool(b: bool)
    | JInt(i: int)
    | JReal(r: real)
    | JStr(s: string)
    | JArr(items: seq<Json>)
    | JObj(fields: map<string, Json>)

  /** Python's truth value of a decoded JSON value (`if not data: ...`). */
  predicate Truthy(j: Json) {
    match j
    case JNull => false
    case JBool(b) => b
    case JInt(i) => i != 0
    case JReal(r) => r != 0.0
    case JStr(s) => s != ""
    case JArr(items) => items != []
    case JObj(fields) => fields != map[]
  }

  /** Whether Python accepts the value as a `dict` key; lists and dicts raise `TypeError`. */
  predicate Hashable(j: Json) {
    !j.JArr? && !j.JObj?
  }

  /** Python's `d.get(key, default)`. */
  function Get(d: map<string, Json>, key: string, default: Json): Json {
    if key in d then d[key] else default
  }

  /** The empty list `[]` that the modelled code uses as a default. */
  const EmptyList: Json := JArr([])
}
