/** What the two forms (add-product and checkout) share: the `required` rule of the form library. */
module FormRules {
  import opened Wrappers

  /**
   * A required text input holds something: the form library's `required`
   * rule refuses undefined and the empty string.
   */
  predicate Filled(s: Option<string>) {
    s.Some? && s.value != ""
  }
}
