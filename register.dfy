/**
 * The registration form: its UI state, the rule that enables the register button, and the
 * submission, split as in the source into the submit call, the completion listener of the
 * account creation and the completion listener of the profile write.
 */
module Register {
  import opened Wrappers
  import opened Text
  import Remote

  /** `RegisterUiState`, with its defaults. */
  datatype RegisterUiState = RegisterUiState(
    name: string := "",
    email: string := "",
    phone: string := "",
    password: string := "",
    isLoading: bool := false,
    errorMessage: string := "",
    isRegisterEnabled: bool := false
  )

  /** `isFormValid(name, email, phone, password)`: every field holds some non-whitespace
      character. */
  function IsFormValid(name: string, email: string, phone: string, password: string): (r: bool)
    ensures r <==>
      (exists i :: 0 <= i < |name| && !IsWhitespace(name[i])) &&
      (exists i :: 0 <= i < |email| && !IsWhitespace(email[i])) &&
      (exists i :: 0 <= i < |phone| && !IsWhitespace(phone[i])) &&
      (exists i :: 0 <= i < |password| && !IsWhitespace(password[i]))
  {
    IsNotBlank(name) && IsNotBlank(email) && IsNotBlank(phone) && IsNotBlank(password)
  }

  /** The register button is enabled exactly when the form is valid. */
  ghost predicate Consistent(s: RegisterUiState)
  {
    s.isRegisterEnabled == IsFormValid(s.name, s.email, s.phone, s.password)
  }

  /** The defaults: empty fields, not loading, no error, button disabled, which agrees with
      the validity of the empty form. */
  lemma DefaultState()
    ensures RegisterUiState().name == "" && RegisterUiState().email == ""
    ensures RegisterUiState().phone == "" && RegisterUiState().password == ""
    ensures !RegisterUiState().isLoading && RegisterUiState().errorMessage == ""
    ensures !RegisterUiState().isRegisterEnabled && Consistent(RegisterUiState())
  {
  }

  /** The four fields as read when the user pressed the button; the completion listeners use
      these, not the form's later contents. */
  datatype PendingRegistration = PendingRegistration(name: string, email: string, phone: string, password: string)

  /** `createUserWithEmailAndPassword(email, password)` */
  datatype CreateUserRequest = CreateUser(email: string, password: string)

  /** The `users/{uid}` document written after the account is created. */
  datatype UserProfile = UserProfile(uid: string, name: string, email: string, phone: string)

  /** `db.collection("users").document(uid).set(userMap)` */
  datatype ProfileWrite = SetUserDocument(uid: string, profile: UserProfile)

  /** Which of `onSuccess` / `onError(message)` a completion called. */
  datatype RegisterCallback = OnSuccess | OnError(message: string)

  const RegisterFailedText := "Error al registrar usuario"
  const SaveFailedText := "Error al guardar usuario"

  /** `mapOf("uid" to uid, "name" to name, "email" to email, "phone" to phone)` */
  function ProfileOf(uid: string, p: PendingRegistration): (r: UserProfile)
    ensures r.uid == uid && r.name == p.name && r.email == p.email && r.phone == p.phone
  {
    UserProfile(uid, p.name, p.email, p.phone)
  }

  /** The profile never depends on the password. */
  lemma ProfileOmitsPassword(uid: string, p: PendingRegistration, otherPassword: string)
    ensures ProfileOf(uid, p) == ProfileOf(uid, p.(password := otherPassword))
  {
  }

  class RegisterViewModel {
    /** `_uiState.value` */
    var uiState: RegisterUiState

    constructor ()
      ensures uiState == RegisterUiState() && Consistent(uiState)
    {
      uiState := RegisterUiState();
    }

    method UpdateName(name: string)
      modifies this
      ensures uiState == old(uiState).(name := name,
        isRegisterEnabled := IsFormValid(name, old(uiState).email, old(uiState).phone, old(uiState).password))
      ensures Consistent(uiState)
    {
      uiState := uiState.(name := name,
        isRegisterEnabled := IsFormValid(name, uiState.email, uiState.phone, uiState.password));
    }

    method UpdateEmail(email: string)
      modifies this
      ensures uiState == old(uiState).(email := email,
        isRegisterEnabled := IsFormValid(old(uiState).name, email, old(uiState).phone, old(uiState).password))
      ensures Consistent(uiState)
    {
      uiState := uiState.(email := email,
        isRegisterEnabled := IsFormValid(uiState.name, email, uiState.phone, uiState.password));
    }

    method UpdatePhone(phone: string)
      modifies this
      ensures uiState == old(uiState).(phone := phone,
        isRegisterEnabled := IsFormValid(old(uiState).name, old(uiState).email, phone, old(uiState).password))
      ensures Consistent(uiState)
    {
      uiState := uiState.(phone := phone,
        isRegisterEnabled := IsFormValid(uiState.name, uiState.email, phone, uiState.password));
    }

    method UpdatePassword(password: string)
      modifies this
      ensures uiState == old(uiState).(password := password,
        isRegisterEnabled := IsFormValid(old(uiState).name, old(uiState).email, old(uiState).phone, password))
      ensures Consistent(uiState)
    {
      uiState := uiState.(password := password,
        isRegisterEnabled := IsFormValid(uiState.name, uiState.email, uiState.phone, password));
    }

    /** `registerUser(...)` up to the account creation: show the spinner, clear the error,
        capture the four fields and create the account with the captured email and password. */
    method RegisterUser() returns (pending: PendingRegistration, request: CreateUserRequest)
      modifies this
      ensures uiState == old(uiState).(isLoading := true, errorMessage := "")
      ensures pending == PendingRegistration(uiState.name, uiState.email, uiState.phone, uiState.password)
      ensures request == CreateUser(pending.email, pending.password)
      ensures Consistent(old(uiState)) ==> Consistent(uiState)
    {
      uiState := uiState.(isLoading := true, errorMessage := "");
      pending := PendingRegistration(uiState.name, uiState.email, uiState.phone, uiState.password);
      request := CreateUser(pending.email, pending.password);
    }

    /** The completion listener of the account creation. A failure stops the spinner and reports
        the exception's message (or a fixed text). A success with a signed-in user writes the
        profile of the captured fields and waits for that write; a success with no current user
        returns at once: no callback, and the spinner keeps spinning. */
    method OnCreateUserComplete(pending: PendingRegistration, outcome: Remote.Outcome<()>, currentUid: Option<string>)
      returns (write: Option<ProfileWrite>, callback: Option<RegisterCallback>)
      modifies this
      ensures outcome.Success? ==> uiState == old(uiState) && callback == None
      ensures outcome.Success? && currentUid.None? ==> write == None
      ensures outcome.Success? && currentUid.Some? ==>
        write == Some(SetUserDocument(currentUid.value, ProfileOf(currentUid.value, pending)))
      ensures outcome.Failure? ==>
        var message := outcome.ErrorText(RegisterFailedText);
        uiState == old(uiState).(isLoading := false, errorMessage := message) &&
        write == None && callback == Some(OnError(message))
      ensures Consistent(old(uiState)) ==> Consistent(uiState)
    {
      write, callback := None, None;
      if outcome.Success? {
        if currentUid.None? {
          return;
        }
        var uid := currentUid.value;
        write := Some(SetUserDocument(uid, ProfileOf(uid, pending)));
      } else {
        var message := outcome.ErrorText(RegisterFailedText);
        uiState := uiState.(isLoading := false, errorMessage := message);
        callback := Some(OnError(message));
      }
    }

    /** The completion listener of the profile write: the spinner stops; a success calls
        `onSuccess`, a failure reports the exception's message (or a fixed text). */
    method OnProfileWriteComplete(outcome: Remote.Outcome<()>) returns (callback: RegisterCallback)
      modifies this
      ensures outcome.Success? ==> uiState == old(uiState).(isLoading := false) && callback == OnSuccess
      ensures outcome.Failure? ==>
        var message := outcome.ErrorText(SaveFailedText);
        uiState == old(uiState).(isLoading := false, errorMessage := message) && callback == OnError(message)
      ensures !uiState.isLoading
      ensures Consistent(old(uiState)) ==> Consistent(uiState)
    {
      if outcome.Success? {
        uiState := uiState.(isLoading := false);
        callback := OnSuccess;
      } else {
        var message := outcome.ErrorText(SaveFailedText);
        uiState := uiState.(isLoading := false, errorMessage := message);
        callback := OnError(message);
      }
    }
  }
}
