/** C#'s nullable references, as a value: `None` stands for `null`. */
module Nullable {
  datatype Option<T> = None | Some(value: T)

  /** `string.IsNullOrEmpty` of the .NET base library. */
  predicate IsNullOrEmpty(s: Option<string>)
  {
    s.None? || s.value == ""
  }
}
