# ConnectSphere contacts core, modelled in Dafny

ConnectSphere is an Android contacts app. Users sign in or register with email and password. They then keep a personal address book of contacts (name, phone, email, photo) in a remote document store, under `users/{uid}/contacts/{id}`. Almost all of the app is UI. This project models the logic underneath it:

- **The contacts view-model** (`ViewModel.ContactsViewModel`). It holds the recorded user and that user's cached contact list. The list is replaced when a fetch answers, and emptied if the fetch fails. An add, update or delete changes it only after the store confirms that write.
- **The home-screen wrapper** (`HomeWrapper`). It asks for a load only while the observed list is empty, and it wires a swipe on a row to a delete.
- **The search box** (`Home.SearchFilter`). It is a case-insensitive substring filter on contact names.
- **The add and edit screens' handlers** (`AddContact`, `EditContact`). They build or forward a contact: a blank-name guard, "no photo" stored as the empty string, and the original identifier kept on an edit.
- **The login and registration forms** (`Login`, `Register`). Each field update recomputes the button's enabled flag, keeping the invariant `enabled == isFormValid(fields)`. The submission moves `isLoading` and `errorMessage` through fixed transitions.

Remote calls (the document store and the authentication service) are not modelled. Each one becomes a `Remote.Outcome<T>` parameter, `Success(value)` or `Failure(message)`, where `message` stands for the exception's nullable `localizedMessage`. Every view-model operation returns the `StoreRequest` it sent, or `None` when it sent nothing, so "no remote call" is stated in the contracts. The view-model's operations are atomic: the request and the reconciliation of its outcome happen in one step. The login and registration submissions are split the way the source splits them. The submit method sets `isLoading` and returns the request. Each completion listener is a method of its own that the caller invokes with the outcome. The values that the registration listener's closure captures are passed to it as a `PendingRegistration`.

`isBlank` and `contains(…, ignoreCase = true)` come from the Kotlin library, and the model restricts them to ASCII (`Text`). Whitespace is tab through carriage return, U+001C through U+001F, and space. Case folding maps `A`–`Z` to `a`–`z`.

Behaviour of the source worth noting:
- The view-model's load guard tests only "is `uid` different from the recorded user". The "reload only while the list is empty" test sits in the home-screen wrapper, so a user switch with a non-empty cache keeps the previous user's contacts (`HomeWrapper.RefreshIfEmpty`).
- `updateContact` does not check that the identifier is non-empty.
- With no user recorded, `deleteContact` shows a toast and invokes `onFailure` when one is given. It reports no error value.
- A failed fetch silently empties the cache.

## Model

| member | source | states |
|---|---|---|
| ContactModel.DefaultContact | app/src/main/java/unam/connectsphere/models/Contact.kt:4-8 | `id`, `name`, `phone` and `email` default to the empty string, and `photoUri` defaults to absent |
| ContactModel.ContactEquality | app/src/main/java/unam/connectsphere/models/Contact.kt:3-9 | two contacts are equal exactly when all five fields are equal |
| ContactModel.WithId | app/src/main/java/unam/connectsphere/models/Contact.kt:3-9 | `copy(id = x)` sets `id` to `x` and keeps the other four fields; the result equals the input exactly when `x` was already its id |
| ContactModel.WithIdTwice | app/src/main/java/unam/connectsphere/viewmodel/ContactsViewModel.kt:51-57 | clearing the id and then setting the store id equals setting the store id directly; re-labelling with the contact's own id is the identity |
| ContactModel.PhotoField | app/src/main/java/unam/connectsphere/ui/addcontact/AddContactScreen.kt:207 | the stored `photoUri` is always present: the chosen picture, or the empty string when there is none |
| Remote.Outcome.ErrorText | app/src/main/java/unam/connectsphere/ui/login/LoginViewModel.kt:41 | the error text is the exception's message when it has one, and the fixed fallback text otherwise |
| Lists.Filter | app/src/main/java/unam/connectsphere/ui/home/HomeScreen.kt:45-47 | `filter` keeps exactly the elements satisfying the predicate, and is never longer than its input |
| Lists.Map | app/src/main/java/unam/connectsphere/viewmodel/ContactsViewModel.kt:72-74 | `map` keeps the length, and element `i` of the result is `f` applied to element `i` of the input |
| Lists.FilterIsSubsequence | app/src/main/java/unam/connectsphere/ui/home/HomeScreen.kt:45 | a filtered list is a subsequence of its input, so relative order is kept |
| Lists.FilterKeepsAll | app/src/main/java/unam/connectsphere/ui/home/HomeScreen.kt:45-47 | a predicate that holds of every element returns the input unchanged |
| Lists.FilterConcat | app/src/main/java/unam/connectsphere/viewmodel/ContactsViewModel.kt:87 | filtering a concatenation is the concatenation of the filtered parts |
| Lists.FilterCount | app/src/main/java/unam/connectsphere/ui/home/HomeScreen.kt:45-47 | each value occurs in the result as often as in the input when it satisfies the predicate, and never otherwise |
| Lists.FilterCongruent | app/src/main/java/unam/connectsphere/ui/home/HomeScreen.kt:45-47 | two predicates that agree on a list's elements filter it identically |
| Lists.FilterIdempotent | app/src/main/java/unam/connectsphere/viewmodel/ContactsViewModel.kt:87 | filtering twice with the same predicate equals filtering once |
| Text.IsBlank | app/src/main/java/unam/connectsphere/ui/addcontact/AddContactScreen.kt:197 | a string is blank exactly when it is empty or made only of whitespace, where whitespace is tab through carriage return, U+001C through U+001F, and space |
| Text.LowerAscii | app/src/main/java/unam/connectsphere/ui/home/HomeScreen.kt:46 | case folding maps an upper-case ASCII letter to its lower-case letter and leaves every other character unchanged |
| Text.ContainsIgnoreCase | app/src/main/java/unam/connectsphere/ui/home/HomeScreen.kt:46 | `contains(q, ignoreCase = true)` holds exactly when some window of the string matches `q` character by character, ignoring case |
| Text.EmptyQueryOccurs | app/src/main/java/unam/connectsphere/ui/home/HomeScreen.kt:46 | every string contains the empty query |
| Text.QueryCaseIrrelevant | app/src/main/java/unam/connectsphere/ui/home/HomeScreen.kt:46 | two queries that agree up to letter case are found in exactly the same strings |
| Home.SearchFilter | app/src/main/java/unam/connectsphere/ui/home/HomeScreen.kt:45-47 | the shown list holds exactly the cached contacts whose name contains the query, ignoring case, and is never longer than the cache |
| Home.SearchKeepsOrder | app/src/main/java/unam/connectsphere/ui/home/HomeScreen.kt:45 | the shown list is a subsequence of the cached list |
| Home.SearchCount | app/src/main/java/unam/connectsphere/ui/home/HomeScreen.kt:45-47 | a matching contact is shown as many times as it is cached, and a non-matching one never |
| Home.EmptyQueryShowsAll | app/src/main/java/unam/connectsphere/ui/home/HomeScreen.kt:46 | an empty search box shows the whole cached list |
| Home.SearchIgnoresQueryCase | app/src/main/java/unam/connectsphere/ui/home/HomeScreen.kt:46 | queries that differ only in letter case show the same list |
| ViewModel.FromDocuments | app/src/main/java/unam/connectsphere/viewmodel/ContactsViewModel.kt:37-39 | a fetch yields one contact per document, in order; each carries its document's id and keeps the document's other fields |
| ViewModel.ReplaceById | app/src/main/java/unam/connectsphere/viewmodel/ContactsViewModel.kt:72-74 | an update replaces every entry with the updated id and keeps the length, the order and every other entry |
| ViewModel.RemoveById | app/src/main/java/unam/connectsphere/viewmodel/ContactsViewModel.kt:87 | a delete keeps exactly the entries whose id differs from the deleted id, each as many times as it was cached, and drops every entry with that id |
| ViewModel.ReplaceKeepsIds | app/src/main/java/unam/connectsphere/viewmodel/ContactsViewModel.kt:72-74 | an update leaves the list's sequence of ids unchanged |
| ViewModel.ReplaceIdempotent | app/src/main/java/unam/connectsphere/viewmodel/ContactsViewModel.kt:72-74 | applying the same update twice equals applying it once |
| ViewModel.ReplaceAbsent | app/src/main/java/unam/connectsphere/viewmodel/ContactsViewModel.kt:72-74 | an update whose id is not cached leaves the list equal |
| ViewModel.RemoveKeepsOrder | app/src/main/java/unam/connectsphere/viewmodel/ContactsViewModel.kt:87 | the contacts left after a delete keep their order |
| ViewModel.RemoveAbsent | app/src/main/java/unam/connectsphere/viewmodel/ContactsViewModel.kt:87 | deleting an id that is not cached leaves the list equal |
| ViewModel.RemoveKeepsDistinct | app/src/main/java/unam/connectsphere/viewmodel/ContactsViewModel.kt:87 | a delete keeps the cached ids pairwise distinct |
| ViewModel.AddThenRemoveRestores | app/src/main/java/unam/connectsphere/viewmodel/ContactsViewModel.kt:56-88 | a successful add and then a successful delete of the store-assigned id restore the cache, when that id was fresh |
| ViewModel.AppendKeepsDistinct | app/src/main/java/unam/connectsphere/viewmodel/ContactsViewModel.kt:56-58 | appending under a fresh store id keeps the cached ids pairwise distinct |
| ViewModel.ContactsViewModel.constructor | app/src/main/java/unam/connectsphere/viewmodel/ContactsViewModel.kt:22-25 | the cache starts empty and no user is recorded |
| ViewModel.ContactsViewModel.LoadContacts | app/src/main/java/unam/connectsphere/viewmodel/ContactsViewModel.kt:28-47 | with the recorded user, nothing is fetched and nothing changes; with any other user, that user is recorded and the cache is replaced by the fetched contacts, or by the empty list if the fetch fails |
| ViewModel.ContactsViewModel.AddContact | app/src/main/java/unam/connectsphere/viewmodel/ContactsViewModel.kt:49-61 | with no user, nothing is sent and nothing changes; otherwise the contact is sent with an empty id, a success appends it under the store id after the earlier entries, and a failure changes nothing; cached ids stay pairwise distinct when the store id is fresh |
| ViewModel.ContactsViewModel.UpdateContact | app/src/main/java/unam/connectsphere/viewmodel/ContactsViewModel.kt:63-77 | with no user, nothing is sent and nothing changes; otherwise document `u.id` is overwritten, a success replaces the entries with that id, and a failure changes nothing; cached ids stay pairwise distinct |
| ViewModel.ContactsViewModel.DeleteContact | app/src/main/java/unam/connectsphere/viewmodel/ContactsViewModel.kt:79-99 | a success removes every entry with the id; a failure, or no user, leaves the cache unchanged, shows the matching toast and invokes `onFailure` once if one was given; cached ids stay pairwise distinct |
| HomeWrapper.RefreshIfEmpty | app/src/main/java/unam/connectsphere/ui/home/HomeScreenWrapper.kt:19-23 | a load is requested only when the observed list is empty; a non-empty list is kept even for a new user; an empty list with the recorded user fetches nothing |
| HomeWrapper.SwipeDelete | app/src/main/java/unam/connectsphere/ui/home/HomeScreenWrapper.kt:29 | a swipe deletes the swiped contact with no failure callback; the cache changes only on a successful delete; no user shows "Usuario no autenticado", a failed delete shows "No se pudo eliminar el contacto", and a success shows nothing |
| AddContact.NewContact | app/src/main/java/unam/connectsphere/ui/addcontact/AddContactScreen.kt:202-208 | the built contact carries the entered name, phone and email verbatim, the fresh id, and a `photoUri` that is always present |
| AddContact.ClientIdDiscarded | app/src/main/java/unam/connectsphere/ui/addcontact/AddContactScreen.kt:203 | the random client id has no effect on what the cache receives, because the store id replaces it |
| AddContact.AddContactForm.constructor | app/src/main/java/unam/connectsphere/ui/addcontact/AddContactScreen.kt:49-54 | the form opens with empty fields, no picture and no error |
| AddContact.AddContactForm.Save | app/src/main/java/unam/connectsphere/ui/addcontact/AddContactScreen.kt:196-211 | a blank name sets "El nombre es requerido" and calls neither `addContact` nor `onContactAdded`; otherwise one contact is built and passed to both, whatever the store answers; no contact with a blank name enters the cache |
| EditContact.InitialPhoto | app/src/main/java/unam/connectsphere/ui/editcontact/EditContactScreen.kt:66-68 | a stored `photoUri` that is absent or empty both mean "no photo"; any other value is kept |
| EditContact.EditedCopy | app/src/main/java/unam/connectsphere/ui/editcontact/EditContactScreen.kt:223-228 | the saved copy keeps the original id and takes the edited name, phone, email and photo, with "no photo" stored as the empty string |
| EditContact.SaveUntouched | app/src/main/java/unam/connectsphere/ui/editcontact/EditContactScreen.kt:223-228 | saving an untouched form gives back the original contact exactly when its `photoUri` is present |
| EditContact.EditContactForm.constructor | app/src/main/java/unam/connectsphere/ui/editcontact/EditContactScreen.kt:63-68 | the fields start from the contact's name, phone, email and photo |
| EditContact.EditContactForm.Save | app/src/main/java/unam/connectsphere/ui/editcontact/EditContactScreen.kt:222-231 | the edited copy, with the original id, goes to `updateContact`, and `onContactUpdated` follows whatever the store answers |
| EditContact.EditContactForm.Delete | app/src/main/java/unam/connectsphere/ui/editcontact/EditContactScreen.kt:244-248 | the original, unedited contact goes to `deleteContact` with a failure callback, and `onBack` follows; no user shows "Usuario no autenticado" and runs the callback, a failed delete shows "No se pudo eliminar el contacto" and runs the callback, and a success shows nothing |
| Login.IsFormValid | app/src/main/java/unam/connectsphere/ui/login/LoginViewModel.kt:26-28 | the form is valid exactly when both email and password contain a non-whitespace character |
| Login.DefaultState | app/src/main/java/unam/connectsphere/ui/login/LoginUiState.kt:5-11 | the defaults are empty fields, not loading, no error and the button disabled, which matches `isFormValid("", "")` |
| Login.LoginViewModel.constructor | app/src/main/java/unam/connectsphere/ui/login/LoginViewModel.kt:13 | the view-model starts from the default state, where the enabled invariant holds |
| Login.LoginViewModel.UpdateEmail | app/src/main/java/unam/connectsphere/ui/login/LoginViewModel.kt:18-20 | sets only the email and recomputes the button from the new email and the current password, so the invariant holds afterwards |
| Login.LoginViewModel.UpdatePassword | app/src/main/java/unam/connectsphere/ui/login/LoginViewModel.kt:22-24 | sets only the password and recomputes the button from the current email and the new password, so the invariant holds afterwards |
| Login.LoginViewModel.LoginUser | app/src/main/java/unam/connectsphere/ui/login/LoginViewModel.kt:30-33 | sets `isLoading` and clears the error before signing in with the form's email and password |
| Login.LoginViewModel.OnSignInComplete | app/src/main/java/unam/connectsphere/ui/login/LoginViewModel.kt:34-46 | completion always clears `isLoading`; a success calls `onSuccess` and leaves the error as it was; a failure sets the error to the message or "Error al iniciar sesión" and passes the same text to `onError` |
| Register.IsFormValid | app/src/main/java/unam/connectsphere/ui/register/RegisterViewModel.kt:44-46 | the form is valid exactly when name, email, phone and password all contain a non-whitespace character |
| Register.DefaultState | app/src/main/java/unam/connectsphere/ui/register/RegisterUiState.kt:5-13 | the defaults are empty fields, not loading, no error and the button disabled, which matches the validity of the empty form |
| Register.ProfileOf | app/src/main/java/unam/connectsphere/ui/register/RegisterViewModel.kt:62-67 | the profile holds the uid and the captured name, email and phone |
| Register.ProfileOmitsPassword | app/src/main/java/unam/connectsphere/ui/register/RegisterViewModel.kt:62-67 | the profile does not depend on the password |
| Register.RegisterViewModel.constructor | app/src/main/java/unam/connectsphere/ui/register/RegisterViewModel.kt:14 | the view-model starts from the default state, where the enabled invariant holds |
| Register.RegisterViewModel.UpdateName | app/src/main/java/unam/connectsphere/ui/register/RegisterViewModel.kt:20-24 | sets only the name and recomputes the button from the four current fields |
| Register.RegisterViewModel.UpdateEmail | app/src/main/java/unam/connectsphere/ui/register/RegisterViewModel.kt:26-30 | sets only the email and recomputes the button from the four current fields |
| Register.RegisterViewModel.UpdatePhone | app/src/main/java/unam/connectsphere/ui/register/RegisterViewModel.kt:32-36 | sets only the phone and recomputes the button from the four current fields |
| Register.RegisterViewModel.UpdatePassword | app/src/main/java/unam/connectsphere/ui/register/RegisterViewModel.kt:38-42 | sets only the password and recomputes the button from the four current fields |
| Register.RegisterViewModel.RegisterUser | app/src/main/java/unam/connectsphere/ui/register/RegisterViewModel.kt:48-56 | sets `isLoading`, clears the error, captures the four fields and creates the account with the captured email and password |
| Register.RegisterViewModel.OnCreateUserComplete | app/src/main/java/unam/connectsphere/ui/register/RegisterViewModel.kt:57-80 | a failure clears `isLoading` and reports the message or "Error al registrar usuario"; a success writes the captured profile; a success with no current user returns with no callback and `isLoading` still set |
| Register.RegisterViewModel.OnProfileWriteComplete | app/src/main/java/unam/connectsphere/ui/register/RegisterViewModel.kt:68-76 | the profile write's completion clears `isLoading`; a success calls `onSuccess`; a failure reports the message or "Error al guardar usuario" |

## Left out

- The document store and the authentication service (`get`, `add`, `set`, `delete`, `signInWithEmailAndPassword`, `createUserWithEmailAndPassword`, `auth.currentUser`) are foreign library calls. Their outcome, and the current user after account creation, are parameters.
- Overlapping asynchronous completions are not modelled. The source's listeners read `_contacts.value` when they complete. The model runs each view-model operation as one atomic step, so interleavings of several in-flight calls are not covered.
- Documents that the store cannot convert to a `Contact` are not modelled. `mapNotNull` drops none in the model, because every document converts.
- Log lines and the `Context` used for toasts are platform I/O. The toast text is returned. The log text is not.
- `saveImageLocally`, both `createImageUri` helpers, the camera, gallery and permission launchers, and `Uri` parsing are file and platform I/O. A chosen picture is the text of its URI. `Uri.parse(s).toString()` is taken to give back `s`.
- Text.ContainsIgnoreCase: does not model case folding outside ASCII, because the Unicode tables of the Kotlin library are not part of this model.
- Text.IsBlank: does not model whitespace outside ASCII (for example U+00A0 or U+2003), for the same reason.
- The repository class and the home view-model's live snapshot listener are not part of this model. They hold a subscription lifetime, and their add path is an empty stub.
- Layout, navigation (including the navigation graph's lookup of the contact to edit), theme values, and the login, register and splash screens' composables are not modelled.
- The setters of the add and edit forms' text fields are plain assignments to the form's fields. They are not modelled as separate methods.
