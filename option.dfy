/** An optional value: the model's stand-in for a JavaScript value that may be
    `undefined` or `null`. */
module Maybe {

  datatype Option<+T> = None | Some(value: T) {

    /** The value, or `default` when absent (JavaScript's `x ?? default`). */
    function GetOr(default: T): T {
      match this
      case Some(v) => v
      case None => default
    }
  }

  /** JavaScript's `x || ''` on an optional string: absent and empty both give ''. */
  function OrEmpty(s: Option<string>): (r: string)
    ensures s.Some? ==> r == s.value
    ensures s.None? ==> r == ""
  {
    s.GetOr("")
  }

  /** The string is present and non-empty, i.e. truthy in JavaScript. */
  predicate Truthy(s: Option<string>) {
    s.Some? && s.value != ""
  }
}
