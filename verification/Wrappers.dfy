/** Stock types shared by the other modules. */
module Wrappers {

  /** A nullable column or an absent query result. */
  datatype Option<+T> = None | Some(value: T)

  /** Python's `value or default` for an optional string: both null and the empty string fall through. */
  function OrElse(value: Option<string>, default: string): string {
    if value.Some? && value.value != "" then value.value else default
  }

  type Byte = b: int | 0 <= b < 256

  /** One column after a commit: SQLAlchemy writes it only when its value differs from the one that was loaded. */
  function Pick<T(==)>(stored: T, seen: T, mine: T): T {
    if mine != seen then mine else stored
  }
}
