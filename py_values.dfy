/** Python string values as the orchestration script sees them: either `None`
    or a `str`, and Python's truthiness test on them. */
module PyValues {
  import opened Wrappers

  /** A value that Python code treats as an optional string: `None` or a `str`. */
  type PyStr = Option<string>

  /** Python's `bool(v)` for such a value: `None` and `""` are falsy,
      every other string is truthy. */
  predicate Truthy(v: PyStr) {
    v.Some? && v.value != ""
  }
}
