/** Optional values: what TypeScript writes as `T | null` or an absent
    property. */
module Wrappers {
  datatype Option<+T> = None | Some(value: T)
}
