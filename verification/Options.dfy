/** The optional value and the maximum, used throughout the model. */
module Options {
  datatype Option<+T> = None | Some(value: T)

  function Max(a: int, b: int): int {
    if a < b then b else a
  }
}
