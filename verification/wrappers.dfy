/** Result and Option values shared by every module of the model. A JavaScript
    `throw new Error(message)` becomes `Err(message)`. */
module Wrappers {

  datatype Option<+T> = None | Some(value: T)

  datatype Result<+T> = Ok(value: T) | Err(message: string)

  /** `throw new Error(`${prefix}${error.message}`)` around a failing step. */
  function Wrap<T>(prefix: string, r: Result<T>): (w: Result<T>)
    ensures w.Ok? <==> r.Ok?
    ensures r.Ok? ==> w == r
    ensures r.Err? ==> w.message == prefix + r.message
  {
    match r
    case Ok(_) => r
    case Err(m) => Err(prefix + m)
  }
}
