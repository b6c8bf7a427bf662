/** Java `null` for a reference-typed field, made explicit. */
module Wrappers {

  /** `None` stands for a Java field that holds `null`. */
  datatype Option<+T> = None | Some(value: T)
}
