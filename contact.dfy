/**
 * The `Contact` record: one entry of a user's address book, as stored in the document
 * `users/{uid}/contacts/{id}`. Every field has a default so that the store can build a
 * contact from a document that lacks some of them.
 */
module ContactModel {
  import opened Wrappers

  datatype Contact = Contact(
    id: string := "",
    name: string := "",
    phone: string := "",
    email: string := "",
    photoUri: Option<string> := None  // path of the contact's picture; None means no picture
  )

  /** The defaults: every text field empty and no photo. */
  lemma DefaultContact()
    ensures Contact().id == "" && Contact().name == "" && Contact().phone == ""
    ensures Contact().email == "" && Contact().photoUri == None
  {
  }

  /** Data-class equality: two contacts are equal exactly when their five fields are. */
  lemma ContactEquality(a: Contact, b: Contact)
    ensures a == b <==>
      a.id == b.id && a.name == b.name && a.phone == b.phone &&
      a.email == b.email && a.photoUri == b.photoUri
  {
  }

  /** `c.copy(id = id)`: the same contact under another identifier. */
  function WithId(c: Contact, id: string): (r: Contact)
    ensures r.id == id
    ensures r.name == c.name && r.phone == c.phone && r.email == c.email && r.photoUri == c.photoUri
    ensures r == c <==> c.id == id
  {
    c.(id := id)
  }

  /** Re-labelling twice keeps only the last identifier, and re-labelling with the contact's own
      identifier changes nothing. */
  lemma WithIdTwice(c: Contact, id1: string, id2: string)
    ensures WithId(WithId(c, id1), id2) == WithId(c, id2)
    ensures WithId(c, c.id) == c
  {
  }

  /** `photoUri?.toString() ?: ""`: what the add and edit screens store for the chosen
      picture; no picture is stored as the empty string, never as an absent field. */
  function PhotoField(chosen: Option<string>): (r: Option<string>)
    ensures r.Some?
    ensures chosen.Some? ==> r == chosen
    ensures chosen.None? ==> r == Some("")
  {
    Some(chosen.GetOr(""))
  }
}
