/** Outcome types shared by every module of the model.

    The training script reports failures by raising Python exceptions; the model
    returns them as values so that each error path can be stated and proved. */
module Common {

  /** The exceptions the modelled code can raise. */
  datatype Exception =
    | ZeroDivisionError   // `x / 0`, `x // 0` or `x % 0`
    | StopIteration       // `next(it)` on an exhausted iterator

  datatype Option<T> = None | Some(value: T)

  datatype Result<T> = Ok(value: T) | Err(error: Exception)
}
