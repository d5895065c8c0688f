/** JavaScript value semantics the site's code relies on. */
module JavaScript {
  /** Truthiness of a string: only the empty string is falsy, so `s || d` is `d` exactly for "". */
  predicate Truthy(s: string)
  {
    s != ""
  }
}
