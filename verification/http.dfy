/** The transport as the client sees it, kept abstract: a `fetch` either
    rejects with an error or resolves to a response whose body can be read as
    text and, when it parses, as JSON. */
module Http {
  import opened Json

  /** A JavaScript error object: its constructor name and its message. */
  datatype JsError = JsError(name: string, message: string)

  /** A settled promise: its value, or the error it rejected with. */
  datatype Result<+T, +E> = Success(value: T) | Failure(error: E)

  /** What `response.json()` settles to: the parsed value, or the rejection
      (a `SyntaxError` for a body that is not JSON). */
  type Parsed = Result<Json, JsError>

  datatype Response = Response(status: nat, text: string, body: Parsed)

  /** The two ways an awaited `fetch(url, config)` can settle. */
  datatype FetchOutcome = Rejected(error: JsError) | Resolved(response: Response)

  /** `Response.ok`: the status lies in the 2xx range. */
  predicate IsOk(r: Response) {
    200 <= r.status <= 299
  }
}
