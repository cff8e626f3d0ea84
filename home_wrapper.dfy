/**
 * The wrapper around the home screen: it asks the view-model to load the signed-in user's
 * contacts when the observed list is empty, and wires a swipe on a row to a delete.
 */
module HomeWrapper {
  import opened Wrappers
  import opened ContactModel
  import Remote
  import opened ViewModel

  /** The effect keyed on `(userId, contacts.isEmpty())`, each time it runs: `loadContacts(userId)`
      is requested only when the observed list is empty, and then fetches only when `userId`
      differs from the user the view-model recorded. */
  method RefreshIfEmpty(vm: ContactsViewModel, userId: string, outcome: Remote.Outcome<seq<Document>>)
    returns (loadRequested: bool, request: Option<StoreRequest>)
    modifies vm
    ensures loadRequested <==> old(vm.contacts) == []
    ensures !loadRequested || old(vm.userId) == Some(userId) ==>
      request == None && vm.contacts == old(vm.contacts) && vm.userId == old(vm.userId)
    ensures loadRequested && old(vm.userId) != Some(userId) ==>
      request == Some(GetContacts(userId)) && vm.userId == Some(userId) &&
      vm.contacts == (if outcome.Success? then FromDocuments(outcome.value) else [])
  {
    loadRequested := vm.contacts == [];
    request := None;
    if loadRequested {
      request := vm.LoadContacts(userId, outcome);
    }
  }

  /** `onDeleteContact = { contact -> viewModel.deleteContact(contact, context) }`: a swipe
      deletes the swiped contact and passes no failure callback. */
  method SwipeDelete(vm: ContactsViewModel, c: Contact, outcome: Remote.Outcome<()>)
    returns (request: Option<StoreRequest>, toast: Option<string>)
    modifies vm`contacts
    ensures old(vm.userId).None? ==> request == None && vm.contacts == old(vm.contacts)
    ensures old(vm.userId).Some? ==> request == Some(DeleteDocument(vm.userId.value, c.id))
    ensures old(vm.userId).Some? && outcome.Success? ==> vm.contacts == RemoveById(old(vm.contacts), c.id)
    ensures outcome.Failure? ==> vm.contacts == old(vm.contacts)
    ensures old(vm.userId).None? ==> toast == Some("Usuario no autenticado")
    ensures old(vm.userId).Some? && outcome.Success? ==> toast == None
    ensures old(vm.userId).Some? && outcome.Failure? ==> toast == Some("No se pudo eliminar el contacto")
  {
    var onFailureInvoked;
    request, onFailureInvoked, toast := vm.DeleteContact(c, outcome, false);
  }
}
