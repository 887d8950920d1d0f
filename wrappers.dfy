/** Optional values, used for JavaScript's `undefined` and for absent form fields. */
module Wrappers {

  datatype Option<+T> = None | Some(value: T)

  /** JavaScript truthiness of a string that may be `undefined`: absent and "" are both falsy. */
  predicate Truthy(o: Option<string>)
  {
    o.Some? && o.value != ""
  }
}
