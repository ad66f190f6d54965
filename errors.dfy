// The conversions into the application error every command returns
// (desktop/src-tauri/src/error.rs). `AppError::new` is the datatype
// constructor `AppError(code, message)` itself.
module Errors {
  import opened Types

  /** What the HTTP library reports about a failed request. */
  datatype RequestError = RequestError(isTimeout: bool, isConnect: bool, text: string)

  /** `From<anyhow::Error>`: every internal failure has the one code. */
  function FromInternal(text: string): (e: AppError)
    ensures e.code == "internal_error" && e.message == text
  {
    AppError("internal_error", text)
  }

  /** `From<reqwest::Error>`: a timeout wins over a connection failure, and
      anything else is a generic network error; the text is kept. */
  function FromRequestError(err: RequestError): (e: AppError)
    ensures e.message == err.text
    ensures e.code == "timeout" <==> err.isTimeout
    ensures e.code == "unreachable" <==> !err.isTimeout && err.isConnect
    ensures e.code == "network_error" <==> !err.isTimeout && !err.isConnect
  {
    if err.isTimeout then AppError("timeout", err.text)
    else if err.isConnect then AppError("unreachable", err.text)
    else AppError("network_error", err.text)
  }

  /** A body that cannot be decoded into the expected shape is a library
      error that is neither a timeout nor a connection failure. */
  function DecodeFailure(text: string): (e: AppError)
    ensures e.code == "network_error" && e.message == text
  {
    FromRequestError(RequestError(false, false, text))
  }
}
