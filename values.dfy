/** JSON-shaped JavaScript values, objects as field maps, and JavaScript truthiness. */
module Values {

  import opened Wrappers

  /** A value of the JavaScript data the application stores and exchanges (numbers are integers here). */
  datatype Json =
    | JNull                              // `null`, and also a missing (`undefined`) field
    | JBool(b: bool)
    | JNum(n: int)
    | JStr(s: string)
    | JArr(items: seq<Json>)
    | JObj(fields: map<string, Json>)

  /** A plain JavaScript object: its own enumerable fields. */
  type Record = map<string, Json>

  /** What `if (v)` and `v || w` test. */
  predicate Truthy(v: Json) {
    match v
    case JNull => false
    case JBool(b) => b
    case JNum(n) => n != 0
    case JStr(s) => s != ""
    case JArr(_) => true
    case JObj(_) => true
  }

  /** `r.k`, with a missing field read as `JNull`. */
  function Field(r: Record, k: string): (v: Json)
    ensures k !in r ==> v == JNull
    ensures k in r ==> v == r[k]
  {
    if k in r then r[k] else JNull
  }

  /** The object literal `{ k1: r.k1, ..., kn: r.kn }` after JSON serialisation: fields that are `undefined` are dropped. */
  function Pick(r: Record, keys: set<string>): (p: Record)
    ensures p.Keys == r.Keys * keys
    ensures forall k :: k in p ==> p[k] == r[k]
  {
    map k | k in r && k in keys :: r[k]
  }

  /** `list.findIndex(x => x.key === v)`, as an option: the first record whose field `key` is `v`. */
  function FindFirst(list: seq<Record>, key: string, v: Json): (r: Option<nat>)
    ensures r.Some? ==> r.value < |list| && Field(list[r.value], key) == v
    ensures r.Some? ==> forall j :: 0 <= j < r.value ==> Field(list[j], key) != v
    ensures r.None? ==> forall j :: 0 <= j < |list| ==> Field(list[j], key) != v
  {
    if |list| == 0 then None
    else if Field(list[0], key) == v then Some(0)
    else match FindFirst(list[1..], key, v)
      case None => None
      case Some(i) => Some(i + 1)
  }

  /** `{ ...first, ...second }`: every field of `second`, and the fields of `first` that `second` does not set. */
  function Spread(first: Record, second: Record): (r: Record)
    ensures r.Keys == first.Keys + second.Keys
    ensures forall k :: k in second ==> r[k] == second[k]
    ensures forall k :: k in first && k !in second ==> r[k] == first[k]
  {
    first + second
  }
}
