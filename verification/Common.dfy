/** Failure-carrying values shared by the models. */
module Common {
  datatype Option<+T> = None | Some(value: T)

  datatype Result<+T> = Ok(value: T) | Err(message: string)
}
