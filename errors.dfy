/** The error kinds the menu core raises, and the result types that carry them. */
module Errors {

  /** The four exceptions of the menu core: a duplicate button name, a duplicate
      text-tag name, a duplicate menu name and a lookup of an absent menu. */
  datatype MenuError = ButtonExists | TextTagExists | MenuExists | NoMenu

  /** The outcome of an operation that either returns a value or raises. */
  datatype Result<T> = Ok(value: T) | Err(error: MenuError)

  /** The outcome of an operation that returns nothing or raises. */
  datatype Outcome = Pass | Fail(error: MenuError)
}
