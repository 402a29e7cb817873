// Stand-ins for the exceptions and optional values of the TypeScript and Python sources.
module Results {
  datatype Option<+T> = None | Some(value: T)

  datatype Result<+T, +E> = Ok(value: T) | Err(error: E)
}
