/**
 * The values a JSON request body decodes to in Python, together with the two
 * pieces of Python semantics the handlers and validators depend on: truthiness
 * (`not v`) and `len(v)`. JSON numbers are modelled as integers only.
 */
module Json {

  datatype Value =
    | JNull
    | JBool(b: bool)
    | JInt(i: int)
    | JStr(s: string)
    | JArr(items: seq<Value>)
    | JObj(fields: map<string, Value>)

  /** `not v` in Python: None, False, 0 and every empty container are falsy. */
  predicate Falsy(v: Value) {
    match v
    case JNull => true
    case JBool(b) => !b
    case JInt(i) => i == 0
    case JStr(s) => s == ""
    case JArr(items) => items == []
    case JObj(fields) => fields == map[]
  }

  /** `len(v)` is defined (does not raise TypeError) exactly for strings, lists and dicts. */
  predicate HasLen(v: Value) {
    v.JStr? || v.JArr? || v.JObj?
  }

  /** `len(v)`: characters of a string, items of a list, keys of a dict. */
  function Len(v: Value): (r: nat)
    requires HasLen(v)
    ensures r == 0 <==> Falsy(v)
  {
    match v
    case JStr(s) => |s|
    case JArr(items) => |items|
    case JObj(fields) => |fields|
  }
}
