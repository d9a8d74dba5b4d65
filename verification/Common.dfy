/** Stand-ins for JavaScript's absent values. */
module Common {

  datatype Option<+T> = None | Some(value: T) {
    function GetOr(default: T): T {
      if Some? then value else default
    }
  }

  /** Present and not empty, as a bare string condition asks. */
  predicate Truthy(s: Option<string>) {
    s.Some? && s.value != ""
  }
}
