/**
 * Shared vocabulary of the client model: optional values (the source's
 * `undefined`/`null`), the outcome of one HTTP request as a component sees
 * it, JavaScript truthiness of optional strings, and the rule every
 * pop-up of the client follows on a document mouse-down.
 */
module Common {

  /** `None` stands for `undefined` or `null`. */
  datatype Option<+T> = None | Some(value: T) {

    /** The value, or `default` when absent (the source's `x || default` on non-empty values). */
    function GetOr(default: T): T {
      match this
      case Some(v) => v
      case None => default
    }
  }

  /**
   * The outcome of one request. Requests themselves are not modelled; every
   * operation that awaits one takes its outcome as an input.
   *  - `Ok(data)`: the server answered with a success status and body `data`.
   *  - `HttpError(error)`: the server answered with an error status; `error`
   *    is the `error` field of its JSON body, when present.
   *  - `NoResponse`: the request failed without a response (network down,
   *    server unreachable); `error.response` is then undefined.
   */
  datatype Reply<+T> = Ok(data: T) | HttpError(error: Option<string>) | NoResponse

  /** JavaScript truthiness of a string that may be absent: `undefined`, `null` and `""` are falsy. */
  predicate Truthy(s: Option<string>) {
    s.Some? && s.value != ""
  }

  /**
   * A document mouse-down closes an open pop-up (the post menu, the mobile
   * menu, the edit dialog) when it lands outside the pop-up's element, and
   * changes nothing otherwise.
   */
  function OutsideMouseDown(open: bool, inside: bool): (open': bool)
    ensures open' <==> open && inside
  {
    if !open then open else if !inside then false else open
  }
}
