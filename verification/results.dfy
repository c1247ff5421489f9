/** Value-or-absent and value-or-error wrappers used by the store's lookups and updates. */
module Results {

  datatype Option<+T> = None | Some(value: T)

  datatype Result<+T, +E> = Ok(value: T) | Err(error: E)
}
