/** Optional values and error-carrying results.

    `Option` stands for a value that pandas would hold as NaN: `None` is NaN,
    `Some(x)` is the number `x`. `Result` stands for a call that either returns
    a value or raises an exception.
 */
module Options {

  datatype Option<+T> = None | Some(value: T)

  datatype Result<+T, +E> = Ok(value: T) | Err(error: E)
}
