/** Parsed JSON values, as `json.loads` hands them to the target. */
module JsonValues {

  /** A JSON value. Objects keep their entries in document order, because
      the order decides which entry wins when two flattened keys collide.
      Numbers are modelled as integers only. */
  datatype Json =
    | Null
    | Bool(b: bool)
    | Number(n: int)
    | Str(s: string)
    | Array(items: seq<Json>)
    | Object(fields: seq<(string, Json)>)
}
