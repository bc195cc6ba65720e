/** Decoded JSON values. Numbers keep their text, as json.Number does; an object is a finite map. */
module Json {
  datatype Json =
    | Null
    | Bool(b: bool)
    | Num(text: string)
    | Str(s: string)
    | Arr(items: seq<Json>)
    | Obj(fields: map<string, Json>)

  type Object = map<string, Json>
}
