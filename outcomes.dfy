/** The value and error types the channel operations return. */
module Outcomes {

  datatype Option<T> = None | Some(value: T)

  datatype Result<T, E> = Ok(value: T) | Err(error: E)

  /** Why a non-blocking send did not enqueue; the value is handed back. */
  datatype TrySendError<T> = Full(value: T) | Disconnected(value: T)

  /** Why a send with a deadline did not enqueue; the value is handed back. */
  datatype SendTimeoutError<T> = Timeout(value: T) | Disconnected(value: T)

  /** Why a non-blocking receive returned no value. */
  datatype TryRecvError = Empty | Disconnected

  /** A point in time, as a deadline. */
  type Instant = nat
}
