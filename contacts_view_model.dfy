/**
 * The contacts view-model: a cache of the recorded user's contacts. The cache is replaced when
 * a fetch answers (emptied if the fetch fails), and an add, update or delete changes it only
 * after the document store confirms that write. Each store call is replaced by its outcome, supplied
 * as a parameter, and each operation returns the request it sent to the store (None when it
 * sent nothing).
 */
module ViewModel {
  import opened Wrappers
  import opened ContactModel
  import Remote
  import Lists

  /** A document of `users/{uid}/contacts`: its store-assigned identifier and its fields. */
  datatype Document = Document(id: string, fields: Contact)

  /** The store calls the view-model makes. */
  datatype StoreRequest =
    | GetContacts(uid: string)                                  // collection(...).get()
    | AddDocument(uid: string, data: Contact)                   // collection(...).add(data)
    | SetDocument(uid: string, docId: string, data: Contact)    // document(docId).set(data)
    | DeleteDocument(uid: string, docId: string)                // document(docId).delete()

  /** `result.mapNotNull { doc -> doc.toObject(Contact).copy(id = doc.id) }`: one contact per
      document, in the store's order, each carrying its document's identifier. */
  function FromDocuments(docs: seq<Document>): (r: seq<Contact>)
    ensures |r| == |docs|
    ensures forall i :: 0 <= i < |docs| ==> r[i].id == docs[i].id && WithId(r[i], docs[i].fields.id) == docs[i].fields
  {
    Lists.Map(docs, (d: Document) => WithId(d.fields, d.id))
  }

  /** `contacts.map { if (it.id == u.id) u else it }` */
  function ReplaceById(contacts: seq<Contact>, u: Contact): (r: seq<Contact>)
    ensures |r| == |contacts|
    ensures forall i :: 0 <= i < |contacts| && contacts[i].id == u.id ==> r[i] == u
    ensures forall i :: 0 <= i < |contacts| && contacts[i].id != u.id ==> r[i] == contacts[i]
  {
    Lists.Map(contacts, (c: Contact) => if c.id == u.id then u else c)
  }

  /** `contacts.filter { it.id != id }` */
  function RemoveById(contacts: seq<Contact>, id: string): (r: seq<Contact>)
    ensures |r| <= |contacts|
    ensures forall c :: c in r <==> c in contacts && c.id != id
    ensures forall c :: multiset(r)[c] == if c.id != id then multiset(contacts)[c] else 0
  {
    var keep := (c: Contact) => c.id != id;
    Lists.FilterCounts(contacts, keep);
    Lists.Filter(contacts, keep)
  }

  function Ids(contacts: seq<Contact>): (r: seq<string>)
    ensures |r| == |contacts| && forall i :: 0 <= i < |contacts| ==> r[i] == contacts[i].id
  {
    Lists.Map(contacts, (c: Contact) => c.id)
  }

  /** The identifiers of the cached contacts are pairwise distinct. The store assigns a fresh
      identifier to every added document; the view-model's operations keep this property when
      they start from it. */
  ghost predicate DistinctIds(contacts: seq<Contact>)
  {
    forall i, j :: 0 <= i < j < |contacts| ==> contacts[i].id != contacts[j].id
  }

  /** An update changes no identifier, so the list's identifiers stay what they were. */
  lemma ReplaceKeepsIds(contacts: seq<Contact>, u: Contact)
    ensures Ids(ReplaceById(contacts, u)) == Ids(contacts)
  {
  }

  /** Applying the same update twice is applying it once. */
  lemma ReplaceIdempotent(contacts: seq<Contact>, u: Contact)
    ensures ReplaceById(ReplaceById(contacts, u), u) == ReplaceById(contacts, u)
  {
  }

  /** An update whose identifier is not cached leaves the list equal. */
  lemma ReplaceAbsent(contacts: seq<Contact>, u: Contact)
    requires forall c :: c in contacts ==> c.id != u.id
    ensures ReplaceById(contacts, u) == contacts
  {
  }

  /** Removal keeps the remaining contacts in their original order. */
  lemma RemoveKeepsOrder(contacts: seq<Contact>, id: string)
    ensures Lists.IsSubsequence(RemoveById(contacts, id), contacts)
  {
    Lists.FilterIsSubsequence(contacts, (c: Contact) => c.id != id);
  }

  /** Deleting an identifier that is not cached leaves the list equal. */
  lemma RemoveAbsent(contacts: seq<Contact>, id: string)
    requires forall c :: c in contacts ==> c.id != id
    ensures RemoveById(contacts, id) == contacts
  {
    Lists.FilterKeepsAll(contacts, (c: Contact) => c.id != id);
  }

  /** Removal preserves distinct identifiers. */
  lemma {:induction false} RemoveKeepsDistinct(contacts: seq<Contact>, id: string)
    requires DistinctIds(contacts)
    ensures DistinctIds(RemoveById(contacts, id))
  {
    if contacts != [] {
      var rest := contacts[1..];
      assert DistinctIds(rest);
      RemoveKeepsDistinct(rest, id);
      Lists.FilterUnfold(contacts, (c: Contact) => c.id != id);
      var r := RemoveById(contacts, id);
      if contacts[0].id != id {
        assert r == [contacts[0]] + RemoveById(rest, id);
        forall j | 0 < j < |r| ensures r[0].id != r[j].id {
          assert r[j] in RemoveById(rest, id);
        }
      }
    }
  }

  /** A successful add followed by a successful delete of the store-assigned identifier restores
      the cache, provided that identifier was not cached already. */
  lemma AddThenRemoveRestores(contacts: seq<Contact>, c: Contact, docId: string)
    requires forall x :: x in contacts ==> x.id != docId
    ensures RemoveById(contacts + [WithId(c, docId)], docId) == contacts
  {
    var keep := (x: Contact) => x.id != docId;
    Lists.FilterConcat(contacts, [WithId(c, docId)], keep);
    Lists.FilterKeepsAll(contacts, keep);
  }

  /** Appending a contact under a fresh identifier preserves distinct identifiers. */
  lemma AppendKeepsDistinct(contacts: seq<Contact>, c: Contact, docId: string)
    requires DistinctIds(contacts)
    requires forall x :: x in contacts ==> x.id != docId
    ensures DistinctIds(contacts + [WithId(c, docId)])
  {
  }

  class ContactsViewModel {
    /** The user whose contacts were last requested; `null` until the first load. */
    var userId: Option<string>
    /** `_contacts.value`, the list the screens observe. */
    var contacts: seq<Contact>

    /** A new view-model: empty cache, no user. */
    constructor ()
      ensures userId == None && contacts == []
    {
      userId := None;
      contacts := [];
    }

    /** `loadContacts(uid)`: fetch only when `uid` differs from the recorded user. The new user
        is recorded whatever the fetch's outcome; a failed fetch empties the cache. */
    method LoadContacts(uid: string, outcome: Remote.Outcome<seq<Document>>) returns (request: Option<StoreRequest>)
      modifies this
      ensures old(userId) == Some(uid) ==>
        request == None && userId == old(userId) && contacts == old(contacts)
      ensures old(userId) != Some(uid) ==>
        request == Some(GetContacts(uid)) && userId == Some(uid) &&
        contacts == (if outcome.Success? then FromDocuments(outcome.value) else [])
    {
      request := None;
      if userId != Some(uid) {
        userId := Some(uid);
        request := Some(GetContacts(uid));
        match outcome
        case Success(docs) => contacts := FromDocuments(docs);
        case Failure(_) => contacts := [];
      }
    }

    /** `addContact(contact)`: with a user recorded, send the contact with an empty identifier;
        on success append it under the store-assigned identifier. A failure has no listener. */
    method AddContact(c: Contact, outcome: Remote.Outcome<string>) returns (request: Option<StoreRequest>)
      modifies this`contacts
      ensures old(userId).None? ==> request == None && contacts == old(contacts)
      ensures old(userId).Some? ==> request == Some(AddDocument(userId.value, WithId(c, "")))
      ensures old(userId).Some? && outcome.Success? ==> contacts == old(contacts) + [WithId(c, outcome.value)]
      ensures outcome.Failure? ==> contacts == old(contacts)
      ensures DistinctIds(old(contacts)) && (outcome.Success? ==> forall x :: x in old(contacts) ==> x.id != outcome.value) ==>
        DistinctIds(contacts)
    {
      request := None;
      if userId.Some? {
        var data := WithId(c, "");
        request := Some(AddDocument(userId.value, data));
        if outcome.Success? {
          var saved := WithId(data, outcome.value);
          if DistinctIds(contacts) && forall x :: x in contacts ==> x.id != outcome.value {
            AppendKeepsDistinct(contacts, data, outcome.value);
          }
          contacts := contacts + [saved];
        }
      }
    }

    /** `updateContact(u)`: with a user recorded, overwrite document `u.id`; on success replace
        every cached entry with that identifier. A failure has no listener. */
    method UpdateContact(u: Contact, outcome: Remote.Outcome<()>) returns (request: Option<StoreRequest>)
      modifies this`contacts
      ensures old(userId).None? ==> request == None && contacts == old(contacts)
      ensures old(userId).Some? ==> request == Some(SetDocument(userId.value, u.id, u))
      ensures old(userId).Some? && outcome.Success? ==> contacts == ReplaceById(old(contacts), u)
      ensures outcome.Failure? ==> contacts == old(contacts)
      ensures DistinctIds(old(contacts)) ==> DistinctIds(contacts)
    {
      request := None;
      if userId.Some? {
        request := Some(SetDocument(userId.value, u.id, u));
        if outcome.Success? {
          ReplaceKeepsIds(contacts, u);
          contacts := ReplaceById(contacts, u);
        }
      }
    }

    /** `deleteContact(c, context, onFailure)`: with a user recorded, delete document `c.id`; on
        success drop every cached entry with that identifier. On a failed delete, or with no
        user recorded, the cache is left alone, a toast is shown and `onFailure` (when given)
        is invoked once. */
    method DeleteContact(c: Contact, outcome: Remote.Outcome<()>, hasOnFailure: bool)
      returns (request: Option<StoreRequest>, onFailureInvoked: bool, toast: Option<string>)
      modifies this`contacts
      ensures old(userId).None? ==>
        request == None && contacts == old(contacts) &&
        onFailureInvoked == hasOnFailure && toast == Some("Usuario no autenticado")
      ensures old(userId).Some? ==> request == Some(DeleteDocument(userId.value, c.id))
      ensures old(userId).Some? && outcome.Success? ==>
        contacts == RemoveById(old(contacts), c.id) && !onFailureInvoked && toast == None
      ensures old(userId).Some? && outcome.Failure? ==>
        contacts == old(contacts) && onFailureInvoked == hasOnFailure &&
        toast == Some("No se pudo eliminar el contacto")
      ensures DistinctIds(old(contacts)) ==> DistinctIds(contacts)
    {
      onFailureInvoked := false;
      toast := None;
      if userId.Some? {
        request := Some(DeleteDocument(userId.value, c.id));
        if outcome.Success? {
          if DistinctIds(contacts) {
            RemoveKeepsDistinct(contacts, c.id);
          }
          contacts := RemoveById(contacts, c.id);
        } else {
          toast := Some("No se pudo eliminar el contacto");
          onFailureInvoked := hasOnFailure;
        }
      } else {
        request := None;
        toast := Some("Usuario no autenticado");
        onFailureInvoked := hasOnFailure;
      }
    }
  }
}
