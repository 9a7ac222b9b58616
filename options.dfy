/** The optional value used throughout the model: `None` also stands for a Python
    exception raised by the operation that produced it. */
module Options {
  datatype Option<T> = None | Some(value: T)
}
