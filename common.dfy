/** Failure-carrying values shared by every module of the model. A Python
    exception becomes `Err(message)`; a value that may be absent (a Python
    `None`) becomes an `Option`. */
module Common {

  datatype Option<+T> = None | Some(value: T)

  datatype Result<+T> = Ok(value: T) | Err(error: string)

  /** Python truthiness of an optional string: `None` and `""` are false. */
  predicate Truthy(v: Option<string>) {
    v.Some? && v.value != ""
  }
}
