/** JavaScript values as they travel between the tools, the workflows and storage. */
module Json {

  /** A JSON-like value. `JUndefined` stands for JavaScript's `undefined`: a missing
      property, a missing optional field, or a property whose value is `undefined`. */
  datatype Json =
    | JUndefined
    | JNull
    | JBool(b: bool)
    | JNum(n: int)
    | JStr(s: string)
    | JArr(items: seq<Json>)
    | JObj(fields: seq<(string, Json)>)

  /** JavaScript truthiness: `undefined`, `null`, `false`, `0` and `""` are falsy;
      every array and object is truthy. */
  predicate Truthy(v: Json) {
    match v
    case JUndefined => false
    case JNull => false
    case JBool(b) => b
    case JNum(n) => n != 0
    case JStr(s) => s != ""
    case JArr(_) => true
    case JObj(_) => true
  }

  /** The first value stored under `key` in a field list (object literals in the
      model never repeat a key). */
  function Lookup(fields: seq<(string, Json)>, key: string): (r: Json)
    ensures r == JUndefined || exists i :: 0 <= i < |fields| && fields[i] == (key, r)
    ensures (forall i :: 0 <= i < |fields| ==> fields[i].0 != key) ==> r == JUndefined
  {
    if fields == [] then JUndefined
    else if fields[0].0 == key then fields[0].1
    else
      var r := Lookup(fields[1..], key);
      assert forall i :: 0 <= i < |fields[1..]| ==> fields[1..][i] == fields[i + 1];
      r
  }

  /** Property access with optional chaining, `v?.key`: on anything that is not an
      object the result is `undefined`. */
  function Get(v: Json, key: string): Json {
    if v.JObj? then Lookup(v.fields, key) else JUndefined
  }

  /** `key in v` for an object value: the property exists, whatever its value. */
  predicate HasKey(v: Json, key: string) {
    v.JObj? && exists i :: 0 <= i < |v.fields| && v.fields[i].0 == key
  }
}
