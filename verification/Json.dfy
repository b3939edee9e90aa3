/** Parsed JSON documents and Python's view of them. */
module Json {
  datatype Json =
    | Null
    | Bool(flag: bool)
    | Num(number: real)
    | Str(text: string)
    | List(items: seq<Json>)
    | Dict(fields: map<string, Json>)
  {
    /** dict.get(key): None when the key is missing. */
    function Get(key: string): Json
      requires Dict?
    {
      if key in fields then fields[key] else Null
    }

    predicate Truthy() {
      match this
      case Null => false
      case Bool(flag) => flag
      case Num(number) => number != 0.0
      case Str(text) => text != ""
      case List(items) => items != []
      case Dict(fields) => fields != map[]
    }
  }
}
