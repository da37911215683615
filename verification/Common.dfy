// Shared datatypes.
module Common {
  datatype Option<+T> = None | Some(value: T)

  function Get<T>(given: Option<T>, zero: T): T { if given.Some? then given.value else zero }

  datatype Result<+T, +E> = Ok(value: T) | Err(error: E)
}
