/** Decoded JSON payloads, as `response.json()` hands them to the library. */
module Json {

  /**
   * What `arrow.get` produces: a UTC instant and the offset it was read with. Equality
   * of two timestamps compares both, where Arrow's `==` compares only the instant; the
   * model only ever equates a converted field with the parser's own result.
   */
  datatype Timestamp = Timestamp(utcMicros: int, offsetMinutes: int)

  /** A JSON number, kept opaque: the library only passes amounts and rates through. */
  datatype Number = Number(literal: string)

  /**
   * A decoded JSON value. `Time` is not produced by the decoder: it is what a date
   * field holds once the normalisation layer has converted it.
   */
  datatype Value =
    | Null
    | Bool(b: bool)
    | Num(n: Number)
    | Str(s: string)
    | Arr(items: seq<Value>)
    | Obj(fields: map<string, Value>)
    | Time(t: Timestamp)
}
