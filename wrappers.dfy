/** Optional values: Kotlin's nullable references and `firstOrNull` results. */
module Wrappers {

  datatype Option<+T> = None | Some(value: T)
}
