/** Values as the plugin's JavaScript sees them: properties that may be
    undefined, the truthiness tests written as `if (x)`, and the string a
    template literal or `+` makes of them. */
module JsValues {

  /** A property that is either undefined (None) or holds a value. */
  datatype Option<+T> = None | Some(value: T)

  /** A value or the message of the Error thrown instead of it. */
  datatype Result<+T> = Ok(value: T) | Err(message: string)

  /** `if (x)` for a string property: undefined and the empty string are falsy. */
  predicate Truthy(o: Option<string>)
  {
    o.Some? && o.value != ""
  }

  /** The string `"" + x` makes of a string property: undefined becomes "undefined". */
  function Text(o: Option<string>): string
  {
    if o.Some? then o.value else "undefined"
  }
}
