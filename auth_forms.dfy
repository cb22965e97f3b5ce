/** What the sign-up and sign-in pages share: reading a message out of a failed request. */
module AuthForms {
  import opened Base

  /** A rejected auth call: the response body's `error` and the Error's own `message`, each possibly missing. */
  datatype SubmitFailure = SubmitFailure(responseError: Option<string>, message: Option<string>)

  /** `err.response?.data?.error || err.message || fallback`: the first non-empty one. */
  function ErrorMessage(failure: SubmitFailure, fallback: string): (shown: string)
    ensures Truthy(failure.responseError) ==> shown == failure.responseError.value
    ensures !Truthy(failure.responseError) && Truthy(failure.message) ==> shown == failure.message.value
    ensures !Truthy(failure.responseError) && !Truthy(failure.message) ==> shown == fallback
    ensures fallback != "" ==> shown != ""
  {
    if Truthy(failure.responseError) then failure.responseError.value
    else if Truthy(failure.message) then failure.message.value
    else fallback
  }
}
