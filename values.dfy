/** Values shared by the index schema, the document enricher and the retrieval strategies. */
module Values {

  /** A nullable reference or an optional SDK property: None stands for C# `null` / "not set". */
  datatype Option<+T> = None | Some(value: T)

  /** The outcome of an operation that can throw: Err carries what the exception reports. */
  datatype Result<+T, +E> = Ok(value: T) | Err(error: E)

  /** An embedding vector returned by the embedding service. Its floats are never interpreted here. */
  type Embedding

  /**
   * A value stored in a `Dictionary<string, object>` document.
   * Json(text) is a deserialised JSON element, `text` being what its `ToString()` gives;
   * Floats is a `float[]` written by the enricher.
   */
  datatype Value = Null | Json(text: string) | Floats(vector: Embedding)

  /** The entries of a string-keyed document. */
  type Fields = map<string, Value>

  /** `value?.ToString() ?? string.Empty`: null becomes the empty string. */
  function TextOf(v: Value): string
  {
    match v
    case Null => ""
    case Json(t) => t
    case Floats(_) => "System.Single[]"
  }
}
