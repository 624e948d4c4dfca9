/** Option and Result types shared by the cache, the context window and the endpoint. */
module Wrappers {

  datatype Option<+T> = None | Some(value: T)

  /** The two run-time failures the chat handler can meet once a request has been parsed. */
  datatype Failure = CacheUnavailable | ModelInvocationFailure

  /** The outcome of one round trip to the cache or the model: a value, or the failure it raised. */
  datatype Result<+T> = Ok(value: T) | Err(failure: Failure)
}
