/** Failure-carrying values shared by the outfit modules: `Option` stands for a
    C# reference that may be null, and `Result` for a call that either returns
    a value or throws one of the exceptions the modelled code can raise. */
module Results {

  datatype Option<+T> = None | Some(value: T)

  /** The .NET exceptions the modelled code can raise on bad input. */
  datatype Exception =
    | NullReference        // dereferencing a null Unity object
    | ArgumentOutOfRange   // String.Substring with a negative index

  datatype Result<+T> = Ok(value: T) | Throws(error: Exception)
}
