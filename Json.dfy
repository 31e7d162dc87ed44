/** JSON-like values as JavaScript holds them after `JSON.parse`, with objects
    kept as an ordered list of fields (JavaScript objects iterate their keys in
    insertion order). */
module Json {
  import opened Wrappers

  datatype Json =
    | JNull
    | JBool(b: bool)
    | JNum(n: int)
    | JStr(s: string)
    | JArr(items: seq<Json>)
    | JObj(fields: seq<(string, Json)>)

  type Fields = seq<(string, Json)>

  /** JavaScript truthiness of a JSON value. */
  predicate Truthy(v: Json) {
    match v
    case JNull => false
    case JBool(b) => b
    case JNum(n) => n != 0
    case JStr(s) => s != ""
    case _ => true
  }

  /** The keys of an object's field list. */
  function Keys(f: Fields): set<string> {
    if f == [] then {} else {f[0].0} + Keys(f[1..])
  }

  /** Property read `obj[k]`: the value of the (first) field named `k`. */
  function Get(f: Fields, k: string): (r: Option<Json>)
    ensures r.Some? <==> k in Keys(f)
  {
    if f == [] then None
    else if f[0].0 == k then Some(f[0].1)
    else Get(f[1..], k)
  }

  /** Property write `obj[k] = v`: an existing key keeps its position, a new
      key goes last. */
  function Put(f: Fields, k: string, v: Json): (r: Fields)
    ensures Keys(r) == Keys(f) + {k}
    ensures Get(r, k) == Some(v)
    ensures forall k' :: k' != k ==> Get(r, k') == Get(f, k')
    ensures k in Keys(f) ==> |r| == |f|
  {
    if f == [] then [(k, v)]
    else if f[0].0 == k then [(k, v)] + f[1..]
    else [f[0]] + Put(f[1..], k, v)
  }

  /** No key occurs twice, as in every JavaScript object. */
  predicate DistinctKeys(f: Fields) {
    forall i, j :: 0 <= i < j < |f| ==> f[i].0 != f[j].0
  }
}
