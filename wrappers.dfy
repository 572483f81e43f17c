/** Optional values and error results shared by every module of the model.
    `None` stands for Python's None (and, where noted, a pandas NaN cell);
    `Err` carries the exception a Python function would raise. */
module Wrappers {

  datatype Option<+T> = None | Some(value: T) {
    function GetOr(default: T): T {
      match this
      case Some(v) => v
      case None => default
    }
  }

  /** The exceptions the modelled code can raise and propagate to its caller. */
  datatype Error =
    | KeyError(key: string)
    | ValueError(message: string)
    | TypeError(message: string)
    | IndexError(message: string)
    | FileNotFoundError(message: string)
    /** Whatever pandas raises while reading the result file at `path`. */
    | ReadError(path: string)
    | StopIteration

  datatype Result<+T> = Ok(value: T) | Err(error: Error)
}
