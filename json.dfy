/** The plain values the library's `tojson` projections are built from. */
module Json {
  import opened Wrappers

  datatype Value = Null | Str(s: string) | Arr(items: seq<Value>) | Obj(fields: map<string, Value>)

  /** A Python string-or-None as a projected value. */
  function OfText(t: Option<string>): Value
  {
    match t
    case Some(s) => Str(s)
    case None => Null
  }
}
