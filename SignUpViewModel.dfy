/**
 * The sign-up screen's view model
 * (presentation/screen/auth/SignUpViewModel.kt): five form fields whose
 * setters recompute whether the button is enabled, and the sign-up call.
 * The use case's result and the signed-in user are parameters.
 */
module SignUp {
  import opened Wrappers
  import opened Text
  import opened Entities
  import opened AuthTypes

  const SignUpFailedMessage := "Sign up failed"

  /** `validateForm`'s rule: an enabled button has both names, an email and a confirmed password of six characters or more. */
  function FormValid(firstName: string, lastName: string, email: string, password: string, confirm: string): (b: bool)
    ensures b ==> |firstName| > 0 && |lastName| > 0 && |email| > 0 && |password| >= 6 && |confirm| >= 6
  {
    && !IsBlank(firstName)
    && !IsBlank(lastName)
    && '@' in email
    && |password| >= 6
    && password == confirm
  }

  /** An enabled form has a confirmation of at least six characters too, since it equals the password. */
  lemma EnabledConfirmLength(firstName: string, lastName: string, email: string, password: string, confirm: string)
    requires FormValid(firstName, lastName, email, password, confirm)
    ensures |confirm| >= 6
  {
  }

  /** The form starts out invalid: the empty names are blank. */
  lemma EmptyFormInvalid()
    ensures !FormValid("", "", "", "", "")
  {
  }

  /**
   * Any of the five fields can disable the button on its own: whatever the
   * other fields hold, a blank name, an email without '@', a short password or
   * a mismatched confirmation makes the form invalid.
   */
  lemma EachFieldCanDisable(firstName: string, lastName: string, email: string, password: string, confirm: string)
    ensures FormValid(firstName, lastName, email, password, confirm) ==> !FormValid("", lastName, email, password, confirm)
    ensures FormValid(firstName, lastName, email, password, confirm) ==> !FormValid(firstName, "", email, password, confirm)
    ensures !FormValid(firstName, lastName, "", password, confirm)
    ensures !FormValid(firstName, lastName, email, "", confirm)
    ensures FormValid(firstName, lastName, email, password, confirm) ==> !FormValid(firstName, lastName, email, password, confirm + "x")
  {
  }

  /** The user `signUp` registers: the form's names and email, no id yet. */
  function NewUser(firstName: string, lastName: string, email: string): (u: User)
    ensures u.id == "" && u.firstName == Some(firstName) && u.lastName == Some(lastName) && u.email == email
  {
    User("", Some(firstName), Some(lastName), email)
  }

  /** The view model's fields, the effects it sent in order, and the calls it made to `signUpUseCase`. */
  class SignUpViewModel {
    var firstName: string
    var lastName: string
    var newEmail: string
    var newPassword: string
    var confirmPassword: string
    var isButtonEnabled: bool
    var state: AuthState
    var effects: seq<AuthEffect>
    var requests: seq<(User, string)>

    /** The invariant every setter re-establishes: the button reflects the current fields. */
    predicate Valid()
      reads this
    {
      isButtonEnabled == FormValid(firstName, lastName, newEmail, newPassword, confirmPassword)
    }

    constructor ()
      ensures Valid() && !isButtonEnabled
      ensures firstName == "" && lastName == "" && newEmail == "" && newPassword == "" && confirmPassword == ""
      ensures state == Idle && effects == [] && requests == []
    {
      firstName, lastName, newEmail, newPassword, confirmPassword := "", "", "", "", "";
      isButtonEnabled := false;
      state := Idle;
      effects := [];
      requests := [];
    }

    /** `validateForm`. */
    method ValidateForm()
      modifies this`isButtonEnabled
      ensures Valid()
    {
      isButtonEnabled := FormValid(firstName, lastName, newEmail, newPassword, confirmPassword);
    }

    method OnFirstNameChanged(name: string)
      modifies this
      ensures Valid()
      ensures firstName == name
      ensures lastName == old(lastName) && newEmail == old(newEmail) && newPassword == old(newPassword) && confirmPassword == old(confirmPassword)
      ensures state == old(state) && effects == old(effects) && requests == old(requests)
    {
      firstName := name;
      ValidateForm();
    }

    method OnLastNameChanged(name: string)
      modifies this
      ensures Valid()
      ensures lastName == name
      ensures firstName == old(firstName) && newEmail == old(newEmail) && newPassword == old(newPassword) && confirmPassword == old(confirmPassword)
      ensures state == old(state) && effects == old(effects) && requests == old(requests)
    {
      lastName := name;
      ValidateForm();
    }

    method OnEmailChanged(email: string)
      modifies this
      ensures Valid()
      ensures newEmail == email
      ensures firstName == old(firstName) && lastName == old(lastName) && newPassword == old(newPassword) && confirmPassword == old(confirmPassword)
      ensures state == old(state) && effects == old(effects) && requests == old(requests)
    {
      newEmail := email;
      ValidateForm();
    }

    method OnPasswordChanged(password: string)
      modifies this
      ensures Valid()
      ensures newPassword == password
      ensures firstName == old(firstName) && lastName == old(lastName) && newEmail == old(newEmail) && confirmPassword == old(confirmPassword)
      ensures state == old(state) && effects == old(effects) && requests == old(requests)
    {
      newPassword := password;
      ValidateForm();
    }

    method OnConfirmPasswordChanged(confirm: string)
      modifies this
      ensures Valid()
      ensures confirmPassword == confirm
      ensures firstName == old(firstName) && lastName == old(lastName) && newEmail == old(newEmail) && newPassword == old(newPassword)
      ensures state == old(state) && effects == old(effects) && requests == old(requests)
    {
      confirmPassword := confirm;
      ValidateForm();
    }

    /**
     * `signUp` once the use case has answered. The state goes to Loading; on
     * success the screen is sent home and the state stays Loading; on failure
     * the state is the error. The form is not consulted: the screen's button
     * is what guards the call.
     */
    method SignUp(result: UseCaseResult)
      modifies this
      ensures requests == old(requests) + [(NewUser(firstName, lastName, newEmail), newPassword)]
      ensures result.Succeeded? ==> state == Loading && effects == old(effects) + [NavigateToHome]
      ensures result.Failed? ==> state == Error(FailureText(result, SignUpFailedMessage)) && effects == old(effects)
      ensures firstName == old(firstName) && lastName == old(lastName) && newEmail == old(newEmail)
      ensures newPassword == old(newPassword) && confirmPassword == old(confirmPassword) && isButtonEnabled == old(isButtonEnabled)
    {
      state := Loading;
      var user := NewUser(firstName, lastName, newEmail);
      requests := requests + [(user, newPassword)];
      match result {
        case Succeeded =>
          effects := effects + [NavigateToHome];
        case Failed(_) =>
          state := Error(FailureText(result, SignUpFailedMessage));
      }
    }

    /** `checkCurrentUser`, for one value of the current-user stream: a signed-in user sends the screen home. */
    method OnCurrentUser(user: Option<User>)
      modifies this`effects
      ensures effects == old(effects) + (if user.Some? then [NavigateToHome] else [])
    {
      if user.Some? {
        effects := effects + [NavigateToHome];
      }
    }
  }
}
