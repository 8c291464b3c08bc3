/** The crate's error enumeration (src/error.rs). */
module Errors {

  /** HTTP status codes as reqwest's `StatusCode` admits them: three digits. */
  type StatusCode = c: int | 100 <= c <= 999 witness 200

  /** The payload of `HttpError`: a `reqwest::Error`, kept opaque except for
      the step that raised it, the text the transport reported for a failed
      request, and the status that `error_for_status` rejected. */
  datatype ReqwestError =
    | RequestFailed(detail: string)   // connection, DNS, bad URL, ...
    | StatusFailed(status: StatusCode) // raised by `error_for_status`
    | DecodeFailed                    // raised by `Response::json` (body unreadable or not the schema)

  /** `ECSMetadataError`: `FetchError` is declared but never built by the
      library; `HttpError` wraps every reqwest failure (`#[from]`);
      `EnvVarNotSet` carries the name of the missing variable. */
  datatype ECSMetadataError =
    | FetchError
    | HttpError(cause: ReqwestError)
    | EnvVarNotSet(name: string)
}
