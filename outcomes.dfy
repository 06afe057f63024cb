/** Optional values and error-carrying results, standing for Rust's `Option`
    and `anyhow::Result` in the modelled code. */
module Outcomes {

  datatype Option<T> = None | Some(value: T)

  /** `anyhow::Result<T>`: a value, or an error message. */
  datatype Result<T> = Ok(value: T) | Err(error: string)

  /** `anyhow::Result<()>`: success, or an error message. */
  datatype Outcome = Pass | Fail(error: string)
}
