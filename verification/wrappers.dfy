/** Optional values: a JSON key that may be absent, a collaborator that may return nothing. */
module Wrappers {

  datatype Option<+T> = None | Some(value: T)
}
