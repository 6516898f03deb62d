/** Optional values and the settled state of a remote call. */
module Outcomes {

  /** A value that may be absent (`localStorage.getItem` answers `null` for a missing key). */
  datatype Option<+T> = None | Some(value: T)

  /**
   * How a service call ended: its promise was fulfilled with a value, or it was
   * rejected (transport failure, HTTP error status, refused credentials, ...).
   * The coordinator never looks inside a rejection, so `Err` carries nothing.
   */
  datatype Outcome<+T> = Ok(value: T) | Err
}
