/** The errors the clients raise, as one closed type.
    `ApiError`, `ApiRateLimitError` and `ApiTimeoutError` are modelled as three
    unrelated exception classes; `ValueError` and `FileNotFoundError` are
    Python's own. The three API errors also carry the client's base URL and,
    for the rate-limit error, a message that varies between methods; neither is
    modelled. */
module Errors {

  import opened Wrappers

  /** What the generic `except Exception` handler of an attempt loop caught. */
  datatype Cause =
    | Rejected(body: string, status: int)  // the ApiError the loop raised itself for a non-success status
    | Expired                              // a timeout no dedicated handler took
    | Transport                            // any other failure of the HTTP call
    | Undecodable                          // a 200 body that did not decode into the response record
    | MissingFile                          // opening an upload path that does not exist

  /** The message of an `ApiError`. */
  datatype Message =
    | Caught(cause: Cause)                              // str(e) of the caught exception
    | NoResponseAfterBecause(retries: int, cause: Cause) // "Failed to get response after {retries} retries: {e}"
    | NoResponseAfter(retries: int)                     // "Failed to get response after {retries} retries"
    | NoValidResponseAfter(retries: int)                // "Failed to receive a valid response after {retries} retries"
    | NoDocumentResponse                                // "Failed to get response from document endpoint"
    | NoEmbeddingResponse                               // "Failed to get response from embedding endpoint"
    | FileUnreadable                                    // "Failed to read file contents: {e}"

  datatype Error =
    | RateLimit                                    // ApiRateLimitError (always for status 429)
    | Api(message: Message, status: Option<int>)   // ApiError, with its optional status code
    | Timeout(limit: Option<int>)                  // ApiTimeoutError, with the configured timeout
    | Value                                        // ValueError
    | FileNotFound                                 // FileNotFoundError
    | UnboundLocal                                 // UnboundLocalError: a local read before any assignment

  /** How a client call ends: it returns, it raises, or the environment trace
      given to the model ran out before the call could finish. */
  datatype Outcome<+T> = Returned(value: T) | Raised(error: Error) | Stalled
}
