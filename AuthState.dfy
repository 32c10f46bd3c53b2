/**
 * The state and one-shot effects shared by the sign-in and sign-up screens
 * (presentation/screen/auth/AuthState.kt and AuthEffect.kt), and the result
 * of an authentication use case.
 */
module AuthTypes {
  import opened Wrappers

  datatype AuthState = Idle | Loading | Error(message: string)

  datatype AuthEffect = NavigateToHome | Message(text: string) | ShowToast(message: string)

  /** What a use case's `Result` folds into: success, or a failure with the exception's message, if it has one. */
  datatype UseCaseResult = Succeeded | Failed(message: Option<string>)

  /** The failure's message, or the screen's fallback text when the exception has none. */
  function FailureText(result: UseCaseResult, fallback: string): (r: string)
    requires result.Failed?
    ensures result.message.Some? ==> r == result.message.value
    ensures result.message.None? ==> r == fallback
  {
    result.message.GetOr(fallback)
  }
}
