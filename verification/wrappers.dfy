/** The optional-value type used throughout the model: a Go nil map, an
    absent user message and a passing assertion are all `None`. */
module Wrappers {

  datatype Option<+T> = None | Some(value: T)
}
