/** JSON values as encoding/json decodes them into an `any`. */
module Json {

  /**
   * nil, bool, float64, string, []any and map[string]any. Numbers only ever
   * travel as request ids, which are echoed and never inspected, so they are
   * kept as integers.
   */
  datatype Json =
    | JNull
    | JBool(b: bool)
    | JNum(n: int)
    | JStr(s: string)
    | JArr(items: seq<Json>)
    | JObj(fields: map<string, Json>)

  /** `obj[key]` on a map[string]any: a missing key reads as nil. */
  function Field(obj: map<string, Json>, key: string): (v: Json)
    ensures key !in obj ==> v == JNull
  {
    if key in obj then obj[key] else JNull
  }
}
