/**
 * The values that cross the storage-client interface: object bytes, header
 * hashes and the errors a client raises.
 */
module MantaTypes {

  /** The bytes of a stored object (a binary Ruby string). */
  type Bytes = seq<bv8>

  /**
   * Dragonfly's metadata hash. Its JSON encoding is not modelled: a header
   * value `Json(meta)` stands for the string `JSON.dump(meta)`.
   */
  type Meta = map<string, string>

  /**
   * A Ruby hash key. String keys and symbol keys are distinct keys:
   * `"durability_level"` is `Str("durability_level")`, `:content_type` is
   * `Sym("content_type")`.
   */
  datatype HeaderKey = Str(name: string) | Sym(name: string)

  /** A header value: nil, an integer, a string, or encoded metadata. */
  datatype Value = Nil | Int(i: int) | Text(s: string) | Json(meta: Meta)

  type Headers = map<HeaderKey, Value>

  /**
   * The error categories the data store tells apart:
   * `RubyManta::MantaClient::ResourceNotFound`,
   * `RubyManta::MantaClient::UnknownError`, and any other `StandardError`.
   */
  datatype StorageError = ResourceNotFound | UnknownError | OtherError(message: string)

  /** The HTTP method a signed URL is issued for (`:get`). */
  datatype Verb = Get

  /** What the client stores under a path. */
  datatype StoredObject = StoredObject(headers: Headers, content: Bytes)
}
