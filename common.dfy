/** Values shared by every component of the front end: optional values, the outcome of a
    call to the REST API (which the model receives as a parameter instead of performing it),
    and JavaScript's truthiness of a possibly-missing string. */
module Common {

  datatype Option<+T> = None | Some(value: T) {
    function GetOr(default: T): T {
      match this
      case Some(v) => v
      case None => default
    }
  }

  /** The result of an awaited API call: the response body, or a rejection that may carry
      the server's message (`error.response?.data?.message` or `.error`). */
  datatype Outcome<+T> = Ok(value: T) | Err(serverMessage: Option<string>)

  datatype Unit = Unit

  /** `if (s)` on a value of type `string | null | undefined`: present and not empty. */
  predicate Truthy(s: Option<string>) {
    s.Some? && s.value != ""
  }

  /** `s || fallback` where `s` is a possibly-missing string. */
  function OrElse(s: Option<string>, fallback: string): (r: string)
    ensures Truthy(s) ==> r == s.value
    ensures !Truthy(s) ==> r == fallback
  {
    if Truthy(s) then s.value else fallback
  }

  /** The message a failed call shows: the server's message when it sent a non-empty one,
      the component's fallback text otherwise. */
  function ErrorText<T>(o: Outcome<T>, fallback: string): (r: string)
    requires o.Err?
    ensures r == fallback || (Truthy(o.serverMessage) && r == o.serverMessage.value)
    ensures fallback != "" ==> r != ""
  {
    OrElse(o.serverMessage, fallback)
  }
}
