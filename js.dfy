/** Values as the uploader receives them from JavaScript callers: an optional
    value (None stands for `undefined` or `null`) and the truthiness tests that
    the source applies to options before falling back to a default. */
module Js {

  datatype Option<+T> = None | Some(value: T)

  /** An optional string is truthy when present and not the empty string. */
  predicate TruthyString(o: Option<string>) {
    o.Some? && o.value != ""
  }

  /** An optional number is truthy when present and not zero. */
  predicate TruthyNumber(o: Option<int>) {
    o.Some? && o.value != 0
  }

  /** Every array is truthy, the empty one included; only a missing one is not. */
  predicate TruthyList<T>(o: Option<seq<T>>) {
    o.Some?
  }
}
