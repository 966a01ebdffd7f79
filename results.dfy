/** Outcomes shared by every part of the model: Python's `None` and the
    exceptions the modelled code raises or lets escape. */
module Results {

  /** A value that Python may leave as `None`. */
  datatype Option<+T> = None | Some(value: T)

  /** The exceptions that reach a caller of the modelled code. */
  datatype Error =
    | Exception(message: string)       // `raise Exception("...")`
    | FileNotFoundError(path: string)   // listing or opening a path that does not exist
    | NotADirectoryError(path: string)  // listing or entering a path that is a file
    | KeyError(key: string)             // `d[key]` on a missing key
    | UnboundLocalError(variable: string) // a local read before any assignment
    | TypeError(message: string)        // a value of the wrong type, such as `None` in an argument list

  /** Either the value a call returns or the exception it raises. */
  datatype Result<+T> = Ok(value: T) | Err(error: Error)
}
