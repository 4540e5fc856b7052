/**
 * The Python vocabulary the rest of the model is written in: optional
 * values, the exceptions the core raises or lets escape, and a result type
 * that stands for "returned a value or raised".
 */
module Py {

  datatype Option<+T> = None | Some(value: T)

  /** The exceptions that cross the core's boundaries. */
  datatype Exception =
    | ValueError(arg: string)        // raise ValueError(x)
    | KeyError(arg: string)          // a dictionary lookup of a missing key
    | IndexError                     // a list subscript past the end
    | IOError(path: string)          // opening or reading a missing file
    | OSError(path: string)          // os.path.getmtime of a missing file
    | TypeError(arg: string)         // a call with the wrong arguments; malformed base64
    | LockTimeout(path: string)      // lockfile gave up after its timeout
    | LockFailed(path: string)       // lockfile could not create its files beside the lock
    | PackError(output: string)      // Exception("Unable to pack egg, output: ...")
    | CleanRefused                   // Exception('Avoid erasing your laptop')
    | Raised(what: string)           // raised by code outside the model

  /** `Ok(v)`: the call returned `v`; `Raise(e)`: it raised `e`. */
  datatype Result<+T> = Ok(value: T) | Raise(exc: Exception)
}
