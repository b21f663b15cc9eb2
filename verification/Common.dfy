/** Small shared types: optional values and JSON documents. */
module Common {

  datatype Option<+T> = None | Some(value: T)

  /** A JSON document as `json.loads` returns it; `Dec` is a number with a fraction or exponent. */
  datatype Json =
    | Null
    | Bool(flag: bool)
    | Num(number: int)
    | Dec(decimal: real)
    | Str(text: string)
    | Arr(items: seq<Json>)
    | Obj(fields: map<string, Json>)
}
