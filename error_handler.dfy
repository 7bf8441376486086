/** The error handler: success test, message resolution and connection-error wrapping. */
module ErrorHandler {
  import opened Wrappers
  import opened Js
  import opened ErrorCodes

  /** The part of an envelope the handler looks at. */
  datatype ApiResponse = ApiResponse(code: string, description: Option<string>)

  /** `isSuccess(code)`. */
  predicate IsSuccess(code: string) {
    code == SUCCESS
  }

  /**
   * `handleApiError(response, endpoint)`: it always throws, so the model
   * gives the thrown value. The endpoint's message wins, then a non-empty
   * server description, then the common default.
   */
  function HandleApiError(response: ApiResponse, endpoint: Endpoint): (thrown: Thrown)
    ensures thrown.Error? && thrown.message != ""
    ensures response.code in EndpointMessages(endpoint) ==>
              thrown.message == EndpointMessages(endpoint)[response.code]
    ensures response.code !in EndpointMessages(endpoint) && Truthy(response.description) ==>
              thrown.message == response.description.value
    ensures response.code !in EndpointMessages(endpoint) && !Truthy(response.description) ==>
              thrown.message == COMMON_ERROR_MESSAGES[DEFAULT_KEY]
  {
    var table := EndpointMessages(endpoint);
    var mapped := if response.code in table then Some(table[response.code]) else None;
    Error(OrElse(mapped, OrElse(response.description, COMMON_ERROR_MESSAGES[DEFAULT_KEY])))
  }

  /** `wrapConnectionError(error)`: an `Error` passes unchanged, anything else becomes the connection message. */
  function WrapConnectionError(error: Thrown): (thrown: Thrown)
    ensures thrown.Error?
    ensures error.Error? ==> thrown == error
    ensures error.NonError? ==> thrown.message == COMMON_ERROR_MESSAGES[CONNECTION_ERROR_KEY]
  {
    if error.Error? then error else Error(COMMON_ERROR_MESSAGES[CONNECTION_ERROR_KEY])
  }

  /** `isSuccess` holds of "0200" and of no other code of `ERROR_CODES`. */
  lemma IsSuccessExactlySuccess(i: nat)
    requires i < |ALL_CODES|
    ensures IsSuccess(ALL_CODES[i]) <==> i == 0
  {
    CodesDistinct();
  }

  /** Wrapping is idempotent, so a message resolved inside `try` survives any number of catches. */
  lemma WrapIdempotent(error: Thrown)
    ensures WrapConnectionError(WrapConnectionError(error)) == WrapConnectionError(error)
  {
  }

  /** A message the handler resolved passes unchanged through `wrapConnectionError`. */
  lemma HandledPassesWrap(response: ApiResponse, endpoint: Endpoint)
    ensures WrapConnectionError(HandleApiError(response, endpoint)) == HandleApiError(response, endpoint)
  {
  }
}
