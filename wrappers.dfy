/** The optional-value type used for lookups that can miss (a parse that fails,
    a query that returns no row). */
module Wrappers {
  datatype Option<+T> = None | Some(value: T)
}
