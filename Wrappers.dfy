/** Absent values. `None` stands for a Java `null` reference to a value entity or a string. */
module Wrappers {

  datatype Option<+T> = None | Some(value: T)
}
