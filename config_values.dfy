/** The `Dict[str, Any]` values the option builders return. */
module ConfigValues {

  datatype Value =
    | Str(s: string)
    | Bool(b: bool)
    | Int(i: int)
    | Dict(entries: map<string, Value>)

  type Options = map<string, Value>
}
