/** Option for the host's nullable references, Outcome for operations declared
    to throw but that may or may not do so. */
module Wrappers {

  datatype Option<+T> = None | Some(value: T)

  /** Pass, or Fail carrying what the host would have thrown. */
  datatype Outcome<+E> = Pass | Fail(error: E)
}
