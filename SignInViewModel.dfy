/**
 * The sign-in screen's view model
 * (presentation/screen/auth/SignInViewModel.kt): the email and password
 * fields with the button invariant, the sign-in call, and the password-reset
 * dialog. Use-case results and the signed-in user are parameters.
 */
module SignIn {
  import opened Wrappers
  import opened Text
  import opened Entities
  import opened AuthTypes

  const SignInFailedMessage := "Sign in failed"
  /** The toast for a reset requested with a blank email ("enter an email"). */
  const EnterEmailMessage := "Введите email"
  /** The toast for a reset whose use case failed without a message ("could not send the letter"). */
  const ResetFailedMessage := "Не удалось отправить письмо"
  /** The start of the toast for a reset link that was sent ("a reset link was sent to"). */
  const ResetSentPrefix := "Ссылка для сброса пароля отправлена на "

  /** `validateForm`'s rule: an enabled button has a non-empty email and at least six characters of password. */
  function FormValid(email: string, password: string): (b: bool)
    ensures b ==> |email| > 0 && |password| >= 6
  {
    !IsBlank(email) && '@' in email && |password| >= 6
  }

  /** The not-blank test is implied by the '@' test: the rule is just '@' in the email and six characters of password. */
  lemma FormValidSimplified(email: string, password: string)
    ensures FormValid(email, password) <==> '@' in email && |password| >= 6
  {
    if '@' in email {
      var i :| 0 <= i < |email| && email[i] == '@';
      assert !IsWhitespace(email[i]);
    }
  }

  /** The toast `resetPassword` sends once the use case has answered. */
  function ResetToast(email: string, result: UseCaseResult): (r: AuthEffect)
    ensures r.ShowToast?
    ensures result.Succeeded? ==> r.message == ResetSentPrefix + email
    ensures result.Failed? ==> r.message == FailureText(result, ResetFailedMessage)
  {
    match result
    case Succeeded => ShowToast(ResetSentPrefix + email)
    case Failed(_) => ShowToast(FailureText(result, ResetFailedMessage))
  }

  /** The toast of a sent reset names the address it went to, so it differs from every other reset toast. */
  lemma ResetToastNamesAddress(email: string, other: string)
    requires email != other
    ensures ResetToast(email, Succeeded) != ResetToast(other, Succeeded)
    ensures ResetToast(email, Succeeded) != ShowToast(EnterEmailMessage)
  {
    assert (ResetSentPrefix + email)[|ResetSentPrefix|..] == email;
    assert (ResetSentPrefix + other)[|ResetSentPrefix|..] == other;
    assert |ResetToast(email, Succeeded).message| > |EnterEmailMessage|;
  }

  /** The view model's fields, the effects it sent in order, and the credentials handed to `signInUseCase`. */
  class SignInViewModel {
    var email: string
    var password: string
    var isButtonEnabled: bool
    var state: AuthState
    var showResetDialog: bool
    var effects: seq<AuthEffect>
    var requests: seq<(string, string)>

    /** The invariant every setter re-establishes: the button reflects the current fields. */
    predicate Valid()
      reads this
    {
      isButtonEnabled == FormValid(email, password)
    }

    constructor ()
      ensures Valid() && !isButtonEnabled
      ensures email == "" && password == "" && state == Idle && !showResetDialog
      ensures effects == [] && requests == []
    {
      email, password := "", "";
      isButtonEnabled := false;
      state := Idle;
      showResetDialog := false;
      effects := [];
      requests := [];
    }

    /** `validateForm`. */
    method ValidateForm()
      modifies this`isButtonEnabled
      ensures Valid()
    {
      isButtonEnabled := FormValid(email, password);
    }

    method OnEmailChanged(value: string)
      modifies this
      ensures Valid() && email == value && password == old(password)
      ensures state == old(state) && showResetDialog == old(showResetDialog)
      ensures effects == old(effects) && requests == old(requests)
    {
      email := value;
      ValidateForm();
    }

    method OnPasswordChanged(value: string)
      modifies this
      ensures Valid() && password == value && email == old(email)
      ensures state == old(state) && showResetDialog == old(showResetDialog)
      ensures effects == old(effects) && requests == old(requests)
    {
      password := value;
      ValidateForm();
    }

    /**
     * `signIn` once the use case has answered: Loading, then on success the
     * screen is sent home and the state returns to Idle; on failure the state
     * is the error.
     */
    method SignIn(result: UseCaseResult)
      modifies this
      ensures requests == old(requests) + [(email, password)]
      ensures result.Succeeded? ==> state == Idle && effects == old(effects) + [NavigateToHome]
      ensures result.Failed? ==> state == Error(FailureText(result, SignInFailedMessage)) && effects == old(effects)
      ensures email == old(email) && password == old(password) && isButtonEnabled == old(isButtonEnabled)
      ensures showResetDialog == old(showResetDialog)
    {
      state := Loading;
      requests := requests + [(email, password)];
      match result {
        case Succeeded =>
          effects := effects + [NavigateToHome];
          state := Idle;
        case Failed(_) =>
          state := Error(FailureText(result, SignInFailedMessage));
      }
    }

    method OpenResetDialog()
      modifies this`showResetDialog
      ensures showResetDialog
    {
      showResetDialog := true;
    }

    method CloseResetDialog()
      modifies this`showResetDialog
      ensures !showResetDialog
    {
      showResetDialog := false;
    }

    /**
     * `resetPassword(address)` once the use case has answered. A blank
     * address only asks for one. Otherwise the state becomes Loading and is
     * left there; the toast reports the result, and only a success closes
     * the dialog.
     */
    method ResetPassword(address: string, result: UseCaseResult)
      modifies this
      ensures IsBlank(address) ==>
        effects == old(effects) + [ShowToast(EnterEmailMessage)] && state == old(state) && showResetDialog == old(showResetDialog)
      ensures !IsBlank(address) ==> effects == old(effects) + [ResetToast(address, result)] && state == Loading
      ensures !IsBlank(address) ==> showResetDialog == (if result.Succeeded? then false else old(showResetDialog))
      ensures email == old(email) && password == old(password) && isButtonEnabled == old(isButtonEnabled)
      ensures requests == old(requests)
    {
      if IsBlank(address) {
        effects := effects + [ShowToast(EnterEmailMessage)];
        return;
      }
      state := Loading;
      effects := effects + [ResetToast(address, result)];
      if result.Succeeded? {
        CloseResetDialog();
      }
    }

    /** `checkCurrentUser`: the first value of the current-user stream; a signed-in user sends the screen home. */
    method CheckCurrentUser(user: Option<User>)
      modifies this`effects
      ensures effects == old(effects) + (if user.Some? then [NavigateToHome] else [])
    {
      if user.Some? {
        effects := effects + [NavigateToHome];
      }
    }
  }
}
