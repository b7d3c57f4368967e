/** Small shared vocabulary: an optional value (Ruby's `nil` or a value) and `Min`. */
module Basics {

  /** A value that may be absent, as a Ruby expression that may evaluate to `nil`. */
  datatype Option<+T> = None | Some(value: T)

  function Min(a: int, b: int): (r: int)
  {
    if a <= b then a else b
  }
}
