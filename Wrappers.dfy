/** Optional values: Kotlin's nullable `T?` results (`find(...)?.value`, `parse(...)`). */
module Wrappers {

  datatype Option<+T> = None | Some(value: T)
}
