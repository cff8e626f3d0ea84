/**
 * The login form: its UI state, the rule that enables the login button, and the
 * sign-in submission, split as in the source into the submit call and the completion listener
 * that the authentication service invokes later.
 */
module Login {
  import opened Text
  import Remote

  /** `LoginUiState`, with its defaults. */
  datatype LoginUiState = LoginUiState(
    email: string := "",
    password: string := "",
    isLoading: bool := false,
    errorMessage: string := "",
    isLoginEnabled: bool := false
  )

  /** `isFormValid(email, password)`: both fields hold some non-whitespace character. */
  function IsFormValid(email: string, password: string): (r: bool)
    ensures r <==>
      (exists i :: 0 <= i < |email| && !IsWhitespace(email[i])) &&
      (exists j :: 0 <= j < |password| && !IsWhitespace(password[j]))
  {
    IsNotBlank(email) && IsNotBlank(password)
  }

  /** The login button is enabled exactly when the form is valid. */
  ghost predicate Consistent(s: LoginUiState)
  {
    s.isLoginEnabled == IsFormValid(s.email, s.password)
  }

  /** The defaults: empty fields, not loading, no error, button disabled, which agrees with
      the validity of the empty form. */
  lemma DefaultState()
    ensures LoginUiState().email == "" && LoginUiState().password == ""
    ensures !LoginUiState().isLoading && LoginUiState().errorMessage == ""
    ensures !LoginUiState().isLoginEnabled && Consistent(LoginUiState())
  {
  }

  /** `signInWithEmailAndPassword(email, password)` */
  datatype SignInRequest = SignIn(email: string, password: string)

  /** Which of `onSuccess` / `onError(message)` the completion called. */
  datatype LoginCallback = OnSuccess | OnError(message: string)

  const LoginFailedText := "Error al iniciar sesión"

  class LoginViewModel {
    /** `_uiState.value` */
    var uiState: LoginUiState

    constructor ()
      ensures uiState == LoginUiState() && Consistent(uiState)
    {
      uiState := LoginUiState();
    }

    /** `updateEmail(email)`: set the email and recompute the button from it and the current
        password. */
    method UpdateEmail(email: string)
      modifies this
      ensures uiState == old(uiState).(email := email, isLoginEnabled := IsFormValid(email, old(uiState).password))
      ensures Consistent(uiState)
    {
      uiState := uiState.(email := email, isLoginEnabled := IsFormValid(email, uiState.password));
    }

    /** `updatePassword(password)`: set the password and recompute the button from the current
        email and it. */
    method UpdatePassword(password: string)
      modifies this
      ensures uiState == old(uiState).(password := password, isLoginEnabled := IsFormValid(old(uiState).email, password))
      ensures Consistent(uiState)
    {
      uiState := uiState.(password := password, isLoginEnabled := IsFormValid(uiState.email, password));
    }

    /** `loginUser(...)` up to the authentication call: show the spinner, clear the error, and
        sign in with the form's email and password. */
    method LoginUser() returns (request: SignInRequest)
      modifies this
      ensures uiState == old(uiState).(isLoading := true, errorMessage := "")
      ensures request == SignIn(uiState.email, uiState.password)
      ensures Consistent(old(uiState)) ==> Consistent(uiState)
    {
      uiState := uiState.(isLoading := true, errorMessage := "");
      request := SignIn(uiState.email, uiState.password);
    }

    /** The completion listener of the sign-in: the spinner stops; a success calls `onSuccess`
        and leaves the error text alone; a failure shows the exception's message, or a fixed
        text when it has none, and passes the same text to `onError`. */
    method OnSignInComplete(outcome: Remote.Outcome<()>) returns (callback: LoginCallback)
      modifies this
      ensures outcome.Success? ==> uiState == old(uiState).(isLoading := false) && callback == OnSuccess
      ensures outcome.Failure? ==>
        var message := outcome.ErrorText(LoginFailedText);
        uiState == old(uiState).(isLoading := false, errorMessage := message) && callback == OnError(message)
      ensures !uiState.isLoading
      ensures Consistent(old(uiState)) ==> Consistent(uiState)
    {
      uiState := uiState.(isLoading := false);
      if outcome.Success? {
        callback := OnSuccess;
      } else {
        var message := outcome.ErrorText(LoginFailedText);
        uiState := uiState.(errorMessage := message);
        callback := OnError(message);
      }
    }
  }
}
