/** Optional values; `None` stands for a NULL item. */
module Wrappers {

  /** `None` stands for the NULL pointer the JSON library returns when an
      item is missing or a document does not parse. */
  datatype Option<+T> = None | Some(value: T)
}
