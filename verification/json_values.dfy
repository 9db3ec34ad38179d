/** The JSON values that Python's `json` module decodes, as seen by the generator. */
module JsonValues {

  /** A decoded JSON value. Floats are kept by their textual form, since the
      generator never computes with them. */
  datatype Json =
    | JNull
    | JBool(b: bool)
    | JInt(i: int)
    | JFloat(repr: string)
    | JStr(s: string)
    | JArray(items: seq<Json>)
    | JObject(fields: map<string, Json>)

  /** The name Python gives the type of a decoded value (`type(v).__name__`),
      which appears in the messages of the exceptions the generator catches. */
  function TypeName(v: Json): string
  {
    match v
    case JNull => "NoneType"
    case JBool(_) => "bool"
    case JInt(_) => "int"
    case JFloat(_) => "float"
    case JStr(_) => "str"
    case JArray(_) => "list"
    case JObject(_) => "dict"
  }
}
