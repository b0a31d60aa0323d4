/** The JSON values and byte strings that cross the system's boundaries. */
module Json {

  type Bytes = seq<bv8>

  /** A decoded JSON value, as far as the modelled code distinguishes them. */
  datatype JsonValue =
    | JString(s: string)
    | JNumber(n: int)
    | JBool(b: bool)
    | JNull
    | JCompound   // an array or object the modelled code does not look into

  /** A JSON object (`map[string]interface{}`, `Record<string, unknown>`). */
  type JsonObject = map<string, JsonValue>

  /** The outcome of decoding a JSON document into a typed value, with the decoder's error text. */
  datatype Decoded<T> = Decoded(value: T) | DecodeError(message: string)
}
