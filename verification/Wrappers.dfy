/** The one shared failure-free wrapper of the project. */
module Wrappers {
  datatype Option<+T> = None | Some(value: T)

  function Or<T>(o: Option<T>, other: T): T {
    if o.Some? then o.value else other
  }
}
