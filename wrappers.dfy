/** Optional values, standing in for the C# `null` of reference-typed fields and results. */
module Wrappers {

  /** `None` is C#'s `null`; `Some(v)` a present value. */
  datatype Option<+T> = None | Some(value: T)
}
