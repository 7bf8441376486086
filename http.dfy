/** What a request to the backend can come back with, and what a service call did. */
module Http {
  import opened Wrappers
  import opened Js

  /**
   * The outcome of one `fetch` followed by `response.json()`: the fetch
   * itself rejects (network failure), the response is not 2xx
   * (`response.ok` is false), the body is not JSON, or the parsed body.
   */
  datatype Reply<B> = FetchFailed(cause: Thrown) | NotOk(status: nat) | BadJson(cause: Thrown) | Json(body: B)

  /** A POST sent to `url` with header `x-access-token: accessToken`, JSON content type and `body`. */
  datatype Request<B> = Request(url: string, accessToken: string, body: B)

  /** A POST through the shared API client to `endpoint` with `body` as its JSON payload. */
  datatype Call<B> = Call(endpoint: string, body: B)

  /** One run of a service operation: the request it issued, if any, and how it ended. */
  datatype Run<B, T> = Run(call: Option<Call<B>>, result: Result<T, Thrown>)

  /** A request rejected before any network call with an `Error` carrying `message`. */
  function Rejected<B, T>(message: string): Run<B, T> {
    Run(None, Err(Error(message)))
  }

  /** A JSON `code` field: the numeric revisions compare it with `!== 200`, so its type matters. */
  datatype JsonCode = Int(n: int) | Text(s: string)
}
