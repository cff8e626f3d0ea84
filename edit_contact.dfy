/** The edit-contact screen: fields initialised from the contact, and its save and delete buttons. */
module EditContact {
  import opened Wrappers
  import opened ContactModel
  import Remote
  import opened ViewModel

  /** `contact.photoUri?.takeIf { it.isNotEmpty() }`: an absent or empty stored picture both
      mean "no picture". */
  function InitialPhoto(stored: Option<string>): (r: Option<string>)
    ensures r.None? <==> stored.None? || stored.value == ""
    ensures r.Some? ==> r == stored
  {
    if stored.Some? && stored.value != "" then stored else None
  }

  /** `contact.copy(name = ..., phone = ..., email = ..., photoUri = photo ?: "")`: the edited
      contact keeps the original identifier. */
  function EditedCopy(contact: Contact, name: string, phone: string, email: string, photo: Option<string>): (r: Contact)
    ensures r.id == contact.id
    ensures r.name == name && r.phone == phone && r.email == email && r.photoUri == PhotoField(photo)
  {
    contact.(name := name, phone := phone, email := email, photoUri := PhotoField(photo))
  }

  /** Saving without touching the form gives back the original contact, except that a contact
      stored with no `photoUri` at all comes back with the empty string. */
  lemma SaveUntouched(contact: Contact)
    ensures EditedCopy(contact, contact.name, contact.phone, contact.email, InitialPhoto(contact.photoUri)) == contact
            <==> contact.photoUri.Some?
  {
  }

  /** The navigation callback a button ends with. */
  datatype Exit = ContactUpdated | Back

  class EditContactForm {
    const contact: Contact
    var name: string
    var phone: string
    var email: string
    var photoUri: Option<string>

    /** The form opens on the contact's own name, phone, email and picture. */
    constructor (contact: Contact)
      ensures this.contact == contact
      ensures name == contact.name && phone == contact.phone && email == contact.email
      ensures photoUri == InitialPhoto(contact.photoUri)
    {
      this.contact := contact;
      name, phone, email := contact.name, contact.phone, contact.email;
      photoUri := InitialPhoto(contact.photoUri);
    }

    /** The save button: dispatch the edited copy to `updateContact`, then `onContactUpdated`
        whatever the store answers. */
    method Save(vm: ContactsViewModel, outcome: Remote.Outcome<()>)
      returns (updated: Contact, request: Option<StoreRequest>, exit: Exit)
      modifies vm`contacts
      ensures updated == EditedCopy(contact, name, phone, email, photoUri) && updated.id == contact.id
      ensures vm.userId.None? ==> request == None && vm.contacts == old(vm.contacts)
      ensures vm.userId.Some? ==> request == Some(SetDocument(vm.userId.value, contact.id, updated))
      ensures vm.userId.Some? && outcome.Success? ==> vm.contacts == ReplaceById(old(vm.contacts), updated)
      ensures outcome.Failure? ==> vm.contacts == old(vm.contacts)
      ensures exit == ContactUpdated
    {
      updated := EditedCopy(contact, name, phone, email, photoUri);
      request := vm.UpdateContact(updated, outcome);
      exit := ContactUpdated;
    }

    /** The delete button: delete the original, unedited contact with a failure callback that
        does nothing (`onFailureInvoked` says whether it ran), then `onBack` whatever the store
        answers. */
    method Delete(vm: ContactsViewModel, outcome: Remote.Outcome<()>)
      returns (request: Option<StoreRequest>, toast: Option<string>, onFailureInvoked: bool, exit: Exit)
      modifies vm`contacts
      ensures vm.userId.None? ==> request == None && vm.contacts == old(vm.contacts)
      ensures vm.userId.None? ==> toast == Some("Usuario no autenticado") && onFailureInvoked
      ensures vm.userId.Some? && outcome.Success? ==> toast == None && !onFailureInvoked
      ensures vm.userId.Some? && outcome.Failure? ==> toast == Some("No se pudo eliminar el contacto") && onFailureInvoked
      ensures vm.userId.Some? ==> request == Some(DeleteDocument(vm.userId.value, contact.id))
      ensures vm.userId.Some? && outcome.Success? ==> vm.contacts == RemoveById(old(vm.contacts), contact.id)
      ensures outcome.Failure? ==> vm.contacts == old(vm.contacts)
      ensures exit == Back
    {
      request, onFailureInvoked, toast := vm.DeleteContact(contact, outcome, true);
      exit := Back;
    }
  }
}
