/** Optional values and results with an HTTP error, shared by the whole model. */
module Wrappers {

  /** A value that may be absent: Python's `Optional[...]` / JavaScript's `undefined`. */
  datatype Option<+T> = None | Some(value: T)

  /** The error a FastAPI route raises with `HTTPException(status_code, detail)`. */
  datatype HttpError = HttpError(status: int, detail: string)

  /** The outcome of a route: the response body, or the HTTP error it raised. */
  datatype Result<+T> = Ok(value: T) | Err(error: HttpError)

  /** JavaScript / Python truthiness of an optional string: present and non-empty. */
  predicate Truthy(o: Option<string>)
  {
    o.Some? && o.value != ""
  }

  /** `a || b` (JS) and `a or b` (Python) on optional strings. */
  function OrElse(a: Option<string>, b: Option<string>): (r: Option<string>)
    ensures Truthy(a) ==> r == a
    ensures !Truthy(a) ==> r == b
  {
    if Truthy(a) then a else b
  }

  /**
   * A filter argument that constrains: given, truthy, and not the `"All"`
   * sentinel (`x && x !== 'All'` in JavaScript, `x and x != "All"` in Python).
   */
  predicate ActiveFilter(o: Option<string>)
  {
    Truthy(o) && o.value != "All"
  }
}
