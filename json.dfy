/** JSON documents as the core sees them after `JSON.parse`, and the few
    JavaScript coercions the core applies to them. */
module Json {
  import opened Wrappers
  import Text

  /** A parsed JSON value. Numbers are integers here; objects keep their
      members in insertion order, and `Get` reads the first member of a name
      (JavaScript objects never hold two). */
  datatype Json =
    | JNull
    | JBool(b: bool)
    | JNumber(n: int)
    | JString(s: string)
    | JArray(items: seq<Json>)
    | JObject(members: seq<(string, Json)>)

  /** JavaScript truthiness: `null`, `false`, `0` and `""` are falsy, every
      array and object is truthy. */
  predicate Truthy(j: Json) {
    match j
    case JNull => false
    case JBool(b) => b
    case JNumber(n) => n != 0
    case JString(s) => s != ""
    case _ => true
  }

  /** Position of the first member named `key`, or -1. */
  function KeyIndex(members: seq<(string, Json)>, key: string): (i: int)
    ensures -1 <= i < |members|
    ensures i >= 0 ==> members[i].0 == key
    ensures forall j | 0 <= j < |members| && (i == -1 || j < i) :: members[j].0 != key
  {
    if |members| == 0 then -1
    else if members[0].0 == key then 0
    else
      var i := KeyIndex(members[1..], key);
      if i < 0 then -1 else i + 1
  }

  /** The value of member `key`, or None when it is absent (`undefined`). */
  function Get(members: seq<(string, Json)>, key: string): Option<Json> {
    var i := KeyIndex(members, key);
    if i < 0 then None else Some(members[i].1)
  }

  /** The names of the members of an object. */
  function Names(members: seq<(string, Json)>): set<string> {
    set i | 0 <= i < |members| :: members[i].0
  }

  lemma GetNames(members: seq<(string, Json)>, key: string)
    ensures Get(members, key).Some? <==> key in Names(members)
  {
    if key in Names(members) {
      var i :| 0 <= i < |members| && members[i].0 == key;
      assert KeyIndex(members, key) != -1;
    }
  }

  /** `j[key]` for a property of an object; anything else has none. */
  function Field(j: Json, key: string): Option<Json> {
    if j.JObject? then Get(j.members, key) else None
  }

  /** `String(v)`: how JavaScript turns a value into text (template literals,
      `replace` replacements, property keys). In an array, `null` elements
      become empty text, as `Array.prototype.join` does. */
  function JsString(j: Json): string {
    match j
    case JNull => "null"
    case JBool(b) => if b then "true" else "false"
    case JNumber(n) => Text.IntToString(n)
    case JString(s) => s
    case JObject(_) => "[object Object]"
    case JArray(items) =>
      if |items| == 0 then ""
      else Text.Join(seq(|items|, i requires 0 <= i < |items| => if items[i].JNull? then "" else JsString(items[i])), ',')
  }

  /** `String(v)` of a value that may be `undefined`. */
  function KeyText(v: Option<Json>): string {
    if v.None? then "undefined" else JsString(v.value)
  }
}
