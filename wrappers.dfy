/** Python's `None`-or-value results, and the truthiness test the source applies to them. */
module Wrappers {

  datatype Option<+T> = None | Some(value: T)

  /** `if not x` in the source is false exactly for a present, non-empty string. */
  predicate Truthy(o: Option<string>) {
    o.Some? && o.value != ""
  }
}
