/** The values that `json.loads` produces and `json.dump` writes. */
module JsonValue {
  import opened Dicts

  datatype Json =
    | Null
    | Bool(b: bool)
    | Number(literal: string)
    | Str(s: string)
    | Array(items: seq<Json>)
    | Object(members: Dict<Json>)
}
