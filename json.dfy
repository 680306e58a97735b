/**
 * Loosely typed stored documents, as the services read them back from the
 * document store: a JSON-like value. An object is a map from keys to values
 * together with its keys in insertion order, the order in which a Python
 * dictionary iterates.
 */
module Json {
  import opened Wrappers

  datatype Json =
    | JNull
    | JBool(b: bool)
    | JInt(i: int)
    | JStr(s: string)
    | JArray(items: seq<Json>)
    | JObject(keys: seq<string>, fields: map<string, Json>)

  /** Python truthiness: `None`, `False`, `0`, `""`, `[]` and `{}` are false. */
  predicate Truthy(v: Json) {
    match v
    case JNull => false
    case JBool(b) => b
    case JInt(i) => i != 0
    case JStr(s) => |s| > 0
    case JArray(items) => |items| > 0
    case JObject(_, fields) => |fields| > 0
  }

  /** `doc.get(key, default)` on a dictionary; on anything that is not an
      object the default is returned (callers only apply it to objects). */
  function Get(doc: Json, key: string, default: Json): Json {
    if doc.JObject? && key in doc.fields then doc.fields[key] else default
  }

  /** `dict.items()`: the stored entries in insertion order. */
  function Entries(keys: seq<string>, fields: map<string, Json>): (r: seq<(string, Json)>)
    ensures forall e :: e in r ==> e.0 in fields && fields[e.0] == e.1
  {
    if |keys| == 0 then []
    else
      var init := Entries(keys[..|keys| - 1], fields);
      var k := keys[|keys| - 1];
      if k in fields then init + [(k, fields[k])] else init
  }

  /** The object with these entries, as a dictionary display builds it: a
      later entry for the same key replaces the earlier value. */
  function ObjectOf(entries: seq<(string, Json)>): (v: Json)
    ensures v.JObject? && |v.keys| == |entries|
  {
    JObject(seq(|entries|, i requires 0 <= i < |entries| => entries[i].0), MapOf(entries))
  }

  function MapOf(entries: seq<(string, Json)>): map<string, Json> {
    if |entries| == 0 then map[]
    else MapOf(entries[..|entries| - 1])[entries[|entries| - 1].0 := entries[|entries| - 1].1]
  }

  predicate IsObject(v: Json) { v.JObject? }

  /** `v if isinstance(v, str) else default` for string-typed fields. */
  function AsString(v: Json, default: string): string {
    if v.JStr? then v.s else default
  }
}
