/** Optional values, used for fields a webhook may leave out and for collaborator calls that may fail. */
module Wrappers {

  datatype Option<+T> = None | Some(value: T)

  /** Python truthiness of an optional string: an absent value and the empty string are both false. */
  predicate Truthy(s: Option<string>)
  {
    s.Some? && s.value != ""
  }
}
