/** The JSON value the server passes around (serde_json's `Value`). Numbers
    are integers here: every number the core reads or writes is one. */
module JsonValue {

  datatype Json =
    | Null
    | Bool(b: bool)
    | Number(n: int)
    | Str(s: string)
    | Array(items: seq<Json>)
    | Object(fields: map<string, Json>)
}
