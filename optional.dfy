/** An optional value: `None` stands for JavaScript's `undefined` in an
    options record or for an absent callback. */
module Optional {
  datatype Option<+T> = None | Some(value: T)
}
