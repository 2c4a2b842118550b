/** Option and Result values used for the tool handlers' outcomes and the
    Go `error` returns of the playback objects. */
module Wrappers {

  datatype Option<+T> = None | Some(value: T)

  /** Either a value or the text of an error result. */
  datatype Result<+T> = Ok(value: T) | Err(message: string)
}
