/** Optional values and fallible results shared by every module of the model.
    A Python `None` default becomes `None`; an exception that a caller catches
    becomes `Err` carrying the text that `str(e)` would give. */
module Wrappers {

  datatype Option<+T> = None | Some(value: T)

  datatype Result<+T> = Ok(value: T) | Err(error: string)

  /** Python truthiness of an optional string: set and not empty. */
  predicate Truthy(s: Option<string>) {
    s.Some? && s.value != ""
  }
}
