/** JSON values as Python's `json` module produces and consumes them. Objects
    keep their keys in insertion order, as Python dicts do. Serialising and
    parsing text are library calls and appear in the other modules as
    function-typed parameters. */
module JsonModel {
  import opened Common

  datatype Json =
    | JNull
    | JBool(b: bool)
    | JInt(i: int)
    | JStr(s: string)
    | JArray(items: seq<Json>)
    | JObject(fields: seq<(string, Json)>)

  /** Python truthiness of a decoded JSON value. */
  predicate Truthy(j: Json)
  {
    match j
    case JNull => false
    case JBool(b) => b
    case JInt(i) => i != 0
    case JStr(s) => s != ""
    case JArray(items) => items != []
    case JObject(fields) => fields != []
  }

  function Keys(fields: seq<(string, Json)>): seq<string>
  {
    seq(|fields|, i requires 0 <= i < |fields| => fields[i].0)
  }

  /** Python's `d.get(key)` on a dict. */
  function Get(fields: seq<(string, Json)>, key: string): (r: Option<Json>)
    ensures r.Some? <==> key in Keys(fields)
  {
    if |fields| == 0 then None
    else if fields[0].0 == key then
      assert Keys(fields)[0] == key;
      Some(fields[0].1)
    else
      assert Keys(fields) == [fields[0].0] + Keys(fields[1..]);
      Get(fields[1..], key)
  }

  /** Python's `d[key] = value`: an existing key keeps its place and takes
      the new value; a new key is added at the end. */
  function Set(fields: seq<(string, Json)>, key: string, value: Json): (r: seq<(string, Json)>)
    ensures Get(r, key) == Some(value)
    ensures forall k :: k != key ==> Get(r, k) == Get(fields, k)
    ensures Keys(r) == if key in Keys(fields) then Keys(fields) else Keys(fields) + [key]
  {
    if |fields| == 0 then [(key, value)]
    else if fields[0].0 == key then
      var r := [(key, value)] + fields[1..];
      KeysCons(fields);
      KeysCons(r);
      assert r[1..] == fields[1..];
      GetCons(fields);
      GetCons(r);
      r
    else
      var rest := Set(fields[1..], key, value);
      var r := [fields[0]] + rest;
      KeysCons(fields);
      KeysCons(r);
      assert r[1..] == rest;
      GetCons(fields);
      GetCons(r);
      r
  }

  /** The keys of a non-empty dict: its first key, then the rest's. */
  lemma KeysCons(fields: seq<(string, Json)>)
    requires |fields| > 0
    ensures Keys(fields) == [fields[0].0] + Keys(fields[1..])
  {
  }

  /** A lookup in a non-empty dict tries the first key, then the rest. */
  lemma GetCons(fields: seq<(string, Json)>)
    requires |fields| > 0
    ensures forall k :: Get(fields, k) == if fields[0].0 == k then Some(fields[0].1) else Get(fields[1..], k)
  {
  }
}
