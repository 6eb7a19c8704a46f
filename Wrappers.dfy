/** PHP's nullable values: a callback slot, a logger slot or the result of
    `error_get_last()` may be null. */
module Wrappers {
  datatype Option<+T> = None | Some(value: T)
}
