// Result types shared by the other modules.
module Wrappers {
  datatype Option<+T> = None | Some(value: T)

  // The source's (value, error) pairs. An error carries only what callers branch on.
  datatype Result<+T> = Ok(value: T) | Err(error: string)
}
