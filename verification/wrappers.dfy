/** Optional values and the outcome of a fetch. */
module Wrappers {

  datatype Option<T> = None | Some(value: T)

  /** What a `fetch` followed by `response.json()` hands back: the parsed
      document, or a failure (network error or a response that is not ok). */
  datatype Fetched<T> = Ok(value: T) | Failed
}
