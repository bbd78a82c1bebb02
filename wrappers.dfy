/** Option and a result type whose failure is a Go run-time panic. */
module Wrappers {

  datatype Option<+T> = None | Some(value: T)

  /** The value a Go expression produces, or the panic that aborts it instead. */
  datatype Result<+T> = Ok(value: T) | Panicked(reason: string)
}
