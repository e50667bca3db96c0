/** Option and Result, with the Python exception kinds the modelled code can raise. */
module Wrappers {
  datatype Option<T> = None | Some(value: T)

  /** The kinds of Python exception that the modelled code raises or catches. */
  datatype PyError =
    | KeyError        // missing dict key
    | IndexError      // subscript past the end of a list or tuple
    | TypeError       // wrong arity, None subscripted, unorderable comparison
    | ValueError      // tuple unpacking of a split that found no separator
    | AttributeError  // attribute missing on an object (or None)
    | QueryError(msg: string)  // an exception raised by the database or the model server

  datatype Result<T> = Ok(value: T) | Fail(error: PyError)
}
