/** The wrapper's error type and the shapes its operations return. */
module Errors {

  /** XmlSecError: the recoverable failures the wrapper reports to its callers. */
  datatype Error =
    | KeyLoadError
    | CertLoadError
    | KeyNotLoaded
    | RootNotFound
    | NodeNotFound
    | SigningError
    | VerifyError
    | TransformError
    | EmptyResultError

  /** XmlSecResult<T>. */
  datatype Result<+T> = Ok(value: T) | Err(error: Error)

  datatype Option<+T> = None | Some(value: T)

  /** A call that either returns normally or aborts the thread with a Rust panic. */
  datatype Outcome<+T> = Returned(value: T) | Panicked
}
