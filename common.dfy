/** Values shared by every module: optional values, results and the Python
    exceptions the modelled code can raise. */
module Common {

  datatype Option<+T> = None | Some(value: T)

  /** The exceptions raised by the modelled code.  A `KeyError` carries no key:
      callers only ever see that some record lacked a field. */
  datatype Error =
    | KeyError
    | ValueError
    | AttributeError
    | RuntimeError(message: string)

  /** A Python function either returns a value or raises. */
  datatype Result<+T> = Ok(value: T) | Err(error: Error)

  /** How a call that returns nothing of interest ended. */
  datatype Outcome = Completed | Raised(error: Error)

  /** The state a mutating call leaves behind together with how it ended: the
      modelled code mutates step by step, so a raise can come after part of
      the mutation is already done. */
  datatype Partial<+T> = Partial(state: T, outcome: Outcome)

  function Max(a: int, b: int): int { if a < b then b else a }
}
