/** Values of the Go program that the rest of the model is built on: the
    nil-or-value wrapper, and the dynamically typed values that
    `encoding/json` produces when it decodes into `interface{}`. */
module GoValues {

  datatype Option<+T> = None | Some(value: T)

  /** A `float64` kept as its bit pattern. JSON numbers decode to this type;
      the model only stores and compares them, it never computes with them. */
  datatype Float64 = Float64(bits: bv64)

  /** What `encoding/json` stores in an `interface{}`: `nil`, `bool`,
      `float64`, `string`, `[]interface{}` or `map[string]interface{}`. */
  datatype Json =
    | JNull
    | JBool(b: bool)
    | JNumber(n: Float64)
    | JString(s: string)
    | JArray(items: seq<Json>)
    | JObject(fields: map<string, Json>)

  /** Go's `m[key]` on a `map[string]interface{}`: a missing key reads as the
      nil interface, which is the same value a JSON `null` decodes to. */
  function Index(m: map<string, Json>, key: string): Json
  {
    if key in m then m[key] else JNull
  }
}
