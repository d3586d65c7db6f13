/**
 * JSON values as the persistence layer stores them in `Json` columns
 * (activity-log `details`, campaign-log `metrics`).
 */
module JsonValue {
  import opened Wrappers

  datatype Json =
    | JNull
    | JBool(b: bool)
    | JNum(n: int)
    | JStr(s: string)
    /** A JavaScript `Date` placed in a payload; it serialises to its ISO string. */
    | JDate(ms: int)
    | JArr(items: seq<Json>)
    /** Object members in insertion order. */
    | JObj(fields: seq<(string, Json)>)

  /** `obj[key]` on a parsed object: the last member with that key wins, as in JSON.parse. */
  function Lookup(fields: seq<(string, Json)>, key: string): (r: Option<Json>)
    ensures r.Some? <==> exists i :: 0 <= i < |fields| && fields[i].0 == key
    ensures r.Some? ==> exists i :: 0 <= i < |fields| && fields[i] == (key, r.value)
  {
    if fields == [] then None
    else if fields[|fields| - 1].0 == key then Some(fields[|fields| - 1].1)
    else Lookup(fields[..|fields| - 1], key)
  }
}
