/** PHP functions here answer `false` or `null` when they have nothing to
    give; the model says so with an explicit optional value. */
module Wrappers {

  /** Either nothing (PHP's `false`/`null`) or a value. */
  datatype Option<T> = None | Some(value: T)
}
