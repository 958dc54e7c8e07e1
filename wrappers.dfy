/** The optional-value datatype used for JavaScript's optional (`?`) fields. */
module Wrappers {

  /** `None` stands for a field that is `undefined` (or `null` where the
      source treats both alike); `Some(v)` for a field holding `v`. */
  datatype Option<+T> = None | Some(value: T)
}
