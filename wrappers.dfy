// Option and Result values: "absent/undefined" and "threw an exception"
// in the modelled JavaScript are both represented with these.
module Wrappers {

  datatype Option<+T> = None | Some(value: T) {
    function GetOr(default: T): T {
      match this
      case Some(v) => v
      case None => default
    }
  }

  datatype Result<+R, +E> = Success(value: R) | Failure(error: E)

  /** JavaScript truthiness of an optional string: `undefined`, `null` and "" are falsy. */
  predicate Present(s: Option<string>) {
    s.Some? && s.value != ""
  }

  /** `a || b || null` over optional strings: the first truthy one, else None. */
  function FirstPresent(a: Option<string>, b: Option<string>): (r: Option<string>)
    ensures Present(a) ==> r == a
    ensures !Present(a) && Present(b) ==> r == b
    ensures !Present(a) && !Present(b) ==> r == None
    ensures r == None || Present(r)
  {
    if Present(a) then a else if Present(b) then b else None
  }
}
