/** Option and Result values standing for Rust's `Option`, `Result` and the panics of `unwrap()`. */
module Results {

  datatype Option<T> = None | Some(value: T)

  /** Why an operation failed. `StorageError` is an error returned by the document store; the other two
      are the conditions under which the source's `unwrap()` calls panic on a document it read. */
  datatype Failure =
    | StorageError
    | Malformed(collection: string)
    | MissingConfig(id: int)

  datatype Result<T> = Ok(value: T) | Fail(failure: Failure)
}
