/** The add-contact screen: its form state and its save button. */
module AddContact {
  import opened Wrappers
  import opened ContactModel
  import opened Text
  import Remote
  import opened ViewModel

  /** The contact the save button builds from the form: the entered texts verbatim, a
      client-generated identifier, and the chosen picture (or the empty string). */
  function NewContact(id: string, name: string, phone: string, email: string, photo: Option<string>): (c: Contact)
    ensures c.id == id && c.name == name && c.phone == phone && c.email == email
    ensures c.photoUri == PhotoField(photo) && c.photoUri.Some?
  {
    Contact(id := id, name := name, phone := phone, email := email, photoUri := PhotoField(photo))
  }

  /** The client-generated identifier never reaches the cache: once the store assigns its own,
      contacts built under any two identifiers are the same. */
  lemma ClientIdDiscarded(id1: string, id2: string, name: string, phone: string, email: string,
                          photo: Option<string>, docId: string)
    ensures WithId(NewContact(id1, name, phone, email, photo), docId) ==
            WithId(NewContact(id2, name, phone, email, photo), docId)
  {
  }

  class AddContactForm {
    var name: string
    var phone: string
    var email: string
    var photoUri: Option<string>   // the chosen picture, as the text of its URI
    var errorMessage: string

    /** The form opens empty, with no picture and no error. */
    constructor ()
      ensures name == "" && phone == "" && email == "" && photoUri == None && errorMessage == ""
    {
      name, phone, email, photoUri, errorMessage := "", "", "", None, "";
    }

    /** The save button. A blank name only sets the error. Otherwise the contact is built under
        the fresh identifier `freshId`, handed to `addContact` and then to `onContactAdded`
        (returned as `added`) without waiting for the store; the error text is left as it was. */
    method Save(vm: ContactsViewModel, freshId: string, outcome: Remote.Outcome<string>)
      returns (added: Option<Contact>, request: Option<StoreRequest>)
      modifies this`errorMessage, vm`contacts
      ensures IsBlank(name) ==>
        errorMessage == "El nombre es requerido" && added == None && request == None &&
        vm.contacts == old(vm.contacts)
      ensures !IsBlank(name) ==>
        errorMessage == old(errorMessage) && added == Some(NewContact(freshId, name, phone, email, photoUri))
      ensures !IsBlank(name) && vm.userId.Some? ==>
        request == Some(AddDocument(vm.userId.value, WithId(added.value, "")))
      ensures !IsBlank(name) && vm.userId.Some? && outcome.Success? ==>
        vm.contacts == old(vm.contacts) + [WithId(added.value, outcome.value)]
      ensures vm.userId.None? ==> request == None
      ensures vm.userId.None? || outcome.Failure? ==> vm.contacts == old(vm.contacts)
      ensures forall c :: c in vm.contacts && c !in old(vm.contacts) ==> IsNotBlank(c.name)
    {
      if IsBlank(name) {
        errorMessage := "El nombre es requerido";
        added, request := None, None;
        return;
      }
      var c := NewContact(freshId, name, phone, email, photoUri);
      request := vm.AddContact(c, outcome);
      added := Some(c);
    }
  }
}
