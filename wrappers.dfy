/** An optional value: an absent value, or NaN where the value is a count. */
module Wrappers {

  /** `None` stands for an absent value (or, for numbers, JavaScript's NaN). */
  datatype Option<+T> = None | Some(value: T)
}
