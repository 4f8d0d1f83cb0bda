/** Small value types shared by the storefront model. */
module Wrappers {

  /** A value that may be missing (`undefined` or `null` in the app). */
  datatype Option<+T> = None | Some(value: T)

  /** How an awaited HTTP request settles: the decoded payload, or a
      rejection (a transport failure, or an exception thrown while the
      payload was being taken apart). */
  datatype Response<+T> = Fulfilled(payload: T) | Rejected
}
