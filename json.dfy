/** A parsed JSON document, as the dependency response is held after
    parsing. Numbers are integers in this model. */
module Json {

  datatype Json =
    | Null
    | Bool(b: bool)
    | Num(n: int)
    | Str(s: string)
    | Arr(items: seq<Json>)
    | Obj(fields: map<string, Json>)

  /** Indexing a value by an object key: the key's value when the value is
      an object that holds the key, and Null in every other case (a missing
      key, or a value that is not an object). It never fails. */
  function Index(v: Json, key: string): (r: Json)
    ensures v.Obj? && key in v.fields ==> r == v.fields[key]
    ensures !(v.Obj? && key in v.fields) ==> r == Null
  {
    match v
    case Obj(fields) => if key in fields then fields[key] else Null
    case _ => Null
  }
}
