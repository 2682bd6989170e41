/** JSON documents as exchanged between the backend and the frontend. */
module Json {

  /** A JSON value. Numbers are exact reals: the source's floating-point
      prices are hard-coded constants and never computed with. */
  datatype Value =
    | Null
    | Bool(b: bool)
    | Num(n: real)
    | Str(s: string)
    | Arr(items: seq<Value>)
    | Obj(fields: map<string, Value>)

  /** True when `v` is an object that has the member `key`. */
  predicate HasKey(v: Value, key: string) {
    v.Obj? && key in v.fields
  }
}
