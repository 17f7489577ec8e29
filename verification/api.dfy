/** What an awaited HTTP request yields on the client side, and the message a failure shows. */
module Api {
  import opened Wrappers

  /** `Ok`: a 2xx body with `success: true`; `Refused`: a 2xx body with `success: false`
      and its `message`; `Thrown`: the request threw, carrying `error.response?.data?.message`. */
  datatype Reply<+T> = Ok(value: T) | Refused(message: string) | Thrown(serverMessage: Option<string>)

  /** The text of an error notification: the server's message when it sent a non-empty one,
      otherwise the caller's default (`error.response?.data?.message || defaultMessage`). */
  function ErrorText(serverMessage: Option<string>, default: string): (text: string)
    ensures Filled(serverMessage) ==> text == serverMessage.value
    ensures !Filled(serverMessage) ==> text == default
    ensures default != "" ==> text != ""
  {
    if Filled(serverMessage) then serverMessage.value else default
  }
}
