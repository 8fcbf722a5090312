/** The optional values of the trading bot: the `*Stage` pointer a signal may
    carry, a map lookup that may miss, a message that may not be sent. */
module Wrappers {

  datatype Option<+T> = None | Some(value: T)

  /** The result of a call to the exchange, which either answers or fails. */
  datatype Fetch<+T> = Fetched(value: T) | FetchFailed(error: string)
}
