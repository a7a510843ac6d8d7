/** Datatypes shared by the component models. */
module Common {

  datatype Option<+T> = None | Some(value: T)

  /** A decoded JSON value. A missing `.get(...)` result is `Null`, as in the source. */
  datatype Json =
    | Null
    | Bool(flag: bool)
    | Num(number: int)
    | Str(text: string)
    | Arr(items: seq<Json>)
    | Obj(fields: map<string, Json>)
}
