/** Optional values: a collaborator call that either answers or fails. */
module Wrappers {
  datatype Option<+T> = None | Some(value: T)
}
