/** The tuning constants the clients import from `aurelio_sdk/const`. That file
    is not part of this model, so their values are left open: all that is
    known of each is that it is a positive whole number. */
module Consts {

  type Positive = n: int | n > 0 witness 1

  /** How long (seconds) the server is asked to hold a submission when the
      client intends to poll afterwards. */
  const WAIT_TIME_BEFORE_POLLING: Positive

  /** Default pause (seconds) between two status fetches. */
  const POLLING_INTERVAL: Positive

  /** Size (bytes) of one read of the streamed upload. */
  const UPLOAD_CHUNK_SIZE: Positive
}
