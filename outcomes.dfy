/** Optional values and Python-style exceptions, shared by every module of the model.
    A Python function that may raise is modelled as one returning an `Outcome`. */
module Outcomes {

  datatype Option<+T> = None | Some(value: T)

  /** The exception kinds the modelled code raises or catches. */
  datatype PyError =
    | AttributeError
    | KeyError
    | TypeError
    | ValueError
    | IndexError
    | NotImplementedError(message: string)
    | VerificationError
    | ForeignError(name: string)  // raised inside a collaborator the model treats as an oracle

  datatype Outcome<+T> = Ok(value: T) | Raise(error: PyError)
}
