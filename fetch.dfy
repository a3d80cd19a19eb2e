/**
 * What a client store's `$fetch` call yields: the response body, or the error it throws.
 * The request itself is not modelled; its outcome is an input of each store action.
 */
module Fetch {
  import opened Wrappers
  import opened Json

  datatype Fetched<T> = Fetched(value: T) | FetchFailed(error: Option<Json>)
}
