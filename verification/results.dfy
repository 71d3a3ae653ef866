/** Optional values and success-or-error results, used wherever the program
    returns `None` or raises. */
module Results {

  datatype Option<+T> = None | Some(value: T)

  datatype Result<+R, +E> = Success(value: R) | Failure(error: E)
}
