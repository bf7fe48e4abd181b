/** Parsed JSON documents as the Python client sees them after `r.json()`. */
module JsonValues {

  /** A JSON value; `Null` is also what Python's `None` stands for. */
  datatype Json =
    | Null
    | Bool(b: bool)
    | Int(i: int)
    | Float(x: real)
    | Str(s: string)
    | Array(items: seq<Json>)
    | Object(fields: map<string, Json>)
}
