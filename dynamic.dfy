/**
 * Go's `any` as it appears in the configuration maps: the YAML-shaped
 * values a `map[string]any` can hold.
 */
module Dynamic {
  datatype Any =
    | IntValue(i: int)
    | FloatValue(f: real)
    | BoolValue(b: bool)
    | StringValue(s: string)
    | ListValue(items: seq<Any>)
    | MapValue(entries: map<string, Any>)
}
