/** Option and Result wrappers, and the Python exceptions the modelled helpers can raise. */
module Results {

  datatype Option<T> = None | Some(value: T)

  /** The exceptions raised on the paths this model covers. */
  datatype Error =
    | ValueError(message: string)  // `raise ValueError("")`, `list.remove` of a missing item, `int("x")`
    | TypeError                    // `int(None)`, `int([..])`, ...
    | IndexError                   // `xs[-1]` on an empty list
    | KeyError                     // `d[k]` for a key `d` does not have

  datatype Result<T> = Success(value: T) | Failure(error: Error)
}
