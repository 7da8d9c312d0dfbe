/** JSON values as `encoding/json` decodes them into an `interface{}`. */
module JsonValues {

  datatype Json =
    | Null
    | Bool(b: bool)
    | Num(n: real)
    | Str(s: string)
    | Arr(items: seq<Json>)
    | Obj(fields: map<string, Json>)

}
