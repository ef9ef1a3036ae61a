/** Failure-compatible wrappers used throughout the model: `Option` stands for
    a C# reference that may be null, `Result` for an operation that either
    returns a value or throws. */
module Wrappers {

  datatype Option<+T> = None | Some(value: T)

  datatype Result<+T, +E> = Ok(value: T) | Err(error: E)

  /** The value of a possibly-null list, with null read as the empty list
      (the C# `xs ?? new List<T>()` idiom). */
  function OrEmpty<T>(o: Option<seq<T>>): seq<T>
  {
    match o
    case None => []
    case Some(xs) => xs
  }

  /** 1 when the optional value is present, 0 when it is null. */
  function Count<T>(o: Option<T>): nat
  {
    if o.Some? then 1 else 0
  }
}
