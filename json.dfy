/** Decoded JSON values, as `json.loads` returns them, and the typed reads the agents
    make of a decoded object with `dict.get`. Decoding itself is a library call and
    stays a parameter (`Decoder`). */
module Json {
  import opened Wrappers
  import opened Errors

  datatype Json =
    | JNull
    | JBool(b: bool)
    | JNum(n: real)
    | JStr(s: string)
    | JArr(items: seq<Json>)
    | JObj(fields: map<string, Json>)

  type Object = map<string, Json>

  /** `json.loads`: `None` when the text does not decode. */
  type Decoder = string -> Option<Json>

  /** Python's type name of a decoded value (a JSON number is shown as `float`). */
  function TypeName(j: Json): string {
    match j
    case JNull => "NoneType"
    case JBool(_) => "bool"
    case JNum(_) => "float"
    case JStr(_) => "str"
    case JArr(_) => "list"
    case JObj(_) => "dict"
  }

  /** The `AttributeError` raised by calling `.get` on a decoded value that is not an object. */
  function NoGetError(j: Json): Error {
    Other("'" + TypeName(j) + "' object has no attribute 'get'")
  }

  /** `obj.get(key, default)`. */
  function Get(obj: Object, key: string, default: Json): (r: Json)
    ensures key in obj ==> r == obj[key]
    ensures key !in obj ==> r == default
  {
    if key in obj then obj[key] else default
  }

  predicate AllStrings(items: seq<Json>) {
    forall i :: 0 <= i < |items| ==> items[i].JStr?
  }

  function Strings(items: seq<Json>): (r: seq<string>)
    requires AllStrings(items)
    ensures |r| == |items|
    ensures forall i :: 0 <= i < |r| ==> items[i] == JStr(r[i])
  {
    if items == [] then [] else [items[0].s] + Strings(items[1..])
  }

  /** `obj.get(key)` read as a string; `None` when absent or not a string. */
  function TextField(obj: Object, key: string): Option<string> {
    if key in obj && obj[key].JStr? then Some(obj[key].s) else None
  }

  /** `obj.get(key)` read as a list of strings; `None` when absent or of another shape. */
  function TextListField(obj: Object, key: string): Option<seq<string>> {
    if key in obj && obj[key].JArr? && AllStrings(obj[key].items)
    then Some(Strings(obj[key].items))
    else None
  }

  /** The walrus test `if x := obj.get(key)` on a string field: present and non-empty. */
  function NonEmptyText(obj: Object, key: string): Option<string> {
    match TextField(obj, key)
    case Some(s) => if s != [] then Some(s) else None
    case None => None
  }

  /** The same test on a list field: present and non-empty. */
  function NonEmptyList(obj: Object, key: string): Option<seq<string>> {
    match TextListField(obj, key)
    case Some(l) => if l != [] then Some(l) else None
    case None => None
  }
}
