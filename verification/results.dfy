/** Failure-carrying values shared by the modules of this model: the source's
    exceptions become the `Err` case of a `Result`, and its optional values an `Option`. */
module Results {

  datatype Option<+T> = None | Some(value: T)

  datatype Result<+T, +E> = Ok(value: T) | Err(error: E)
}
