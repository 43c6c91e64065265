/** Values shared by the identifier and the loader: an optional value, and the exceptions the
    JavaScript code throws, carried as data. */
module Wrappers {

  /** Some value, or nothing (JavaScript's `undefined`). */
  datatype Option<+T> = None | Some(value: T)

  /** A thrown JavaScript exception: its constructor and its exact message. */
  datatype Exception =
    | TypeError(message: string)
    | Error(message: string)
      /** What the runtime throws when `locators[type].locate` is reached with no locator
          registered for `type`: reading `locate` of `undefined`. */
    | NoLocator(kind: string)

  /** A value, or the exception thrown instead of returning it. */
  datatype Result<+T> = Ok(value: T) | Err(error: Exception)
}
