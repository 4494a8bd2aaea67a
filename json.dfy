/** The JSON values stored in progress files and episode documents. */
module JsonValue {

  /** Numbers are modelled as integers; the backend never does arithmetic on them. */
  datatype Json =
    | Null
    | Bool(b: bool)
    | Num(n: int)
    | Str(s: string)
    | Arr(items: seq<Json>)
    | Obj(fields: map<string, Json>)

  /** A JSON object, such as a whole episode document. */
  type Doc = map<string, Json>
}
