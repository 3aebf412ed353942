/** JavaScript values the control panel passes between its layers: optional
    values, what a rejected promise carries, and the outcome of an awaited
    call. */
module Js {

  datatype Option<+T> = None | Some(value: T)

  /** The value a rejected promise or a `throw` carries: an `Error` object
      with a `message`, or a bare string as in `reject('...')`. */
  datatype Thrown = ErrorObject(message: string) | BareString(text: string)

  /** `e.message` as a `catch (e)` block reads it: a bare string has no
      `message` property, so the read yields `undefined` (`None`). */
  function MessageOf(e: Thrown): (m: Option<string>)
    ensures m.Some? <==> e.ErrorObject?
    ensures e.ErrorObject? ==> m.value == e.message
  {
    match e
    case ErrorObject(message) => Some(message)
    case BareString(_) => None
  }

  /** An awaited promise: resolved with a value or rejected with a `Thrown`. */
  datatype Result<+T> = Ok(value: T) | Err(error: Thrown)

  /** The `Error` Node raises when a path does not exist. */
  function NoSuchFile(syscall: string, path: string): Thrown {
    ErrorObject("ENOENT: no such file or directory, " + syscall + " '" + path + "'")
  }
}
