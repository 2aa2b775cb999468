/** Optional values and the outcome of a call into the API layer. */
module Wrappers {

  /** A value that may be absent: TypeScript's `T | undefined` or `T | null`. */
  datatype Option<+T> = None | Some(value: T)

  /** Why an API call failed: the store had no record with that id, or the call itself failed. */
  datatype ApiError = NotFound(id: string) | RequestFailed

  /** What an asynchronous API call settles to: a resolved value or a rejection. */
  datatype Result<+T> = Ok(value: T) | Err(error: ApiError)

  /** JavaScript truthiness of a `string | null` value: null and "" are both falsy. */
  predicate Truthy(s: Option<string>) {
    s.Some? && s.value != ""
  }
}
