/** Option, the datatype the model uses in place of a Java reference that
    may be `null`. Each specification module declares its own result
    datatype for calls that may throw. */
module Wrappers {

  /** `None` plays the part of a Java `null` reference. */
  datatype Option<+T> = None | Some(value: T)
}
