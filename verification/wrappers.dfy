/** Optional values: the nullable fields and nullable loads of the entity store. */
module Wrappers {

  /** `None` is an absent value (a `null` field, a missed `load`). */
  datatype Option<+T> = None | Some(value: T)
}
