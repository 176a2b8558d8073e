/** JavaScript values as the request handlers see them: a field of a request
    may be absent (`undefined`), and presence checks use JavaScript
    truthiness rather than a typed schema. */
module JsValues {

  /** A request field that may be missing. */
  datatype Option<+T> = None | Some(value: T)

  /** `!s` is false for a string exactly when it is present and non-empty. */
  predicate IsTruthyString(o: Option<string>) {
    o.Some? && o.value != ""
  }

  /** `!n` is false for a number exactly when it is present and not zero.
      Costs are modelled as integers, so NaN does not arise. */
  predicate IsTruthyNumber(o: Option<int>) {
    o.Some? && o.value != 0
  }
}
