/** A nullable value: `None` stands for a C NULL pointer or an omitted argument. */
module Wrappers {
  datatype Option<T> = None | Some(value: T)
}
