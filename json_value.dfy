/** JSON documents as the generator builds and merges them. Objects are maps,
    so key order (which only affects serialisation) is not modelled. */
module JsonValue {

  datatype Json =
    | JNull
    | JBool(b: bool)
    | JNum(n: real)
    | JStr(s: string)
    | JArr(items: seq<Json>)
    | JObj(fields: map<string, Json>)

  /** The object spread `{ ...base, ...extra }`: every key of either, the value of
      `extra` where both have one. */
  function Spread(base: map<string, Json>, extra: map<string, Json>): (r: map<string, Json>)
    ensures r.Keys == base.Keys + extra.Keys
    ensures forall k :: k in extra ==> r[k] == extra[k]
    ensures forall k :: k in base && k !in extra ==> r[k] == base[k]
  {
    base + extra
  }
}
