/** The home screen's search box: the list shown is the cached list filtered by name. */
module Home {
  import opened ContactModel
  import opened Text
  import Lists

  predicate Matches(query: string, c: Contact)
  {
    ContainsIgnoreCase(c.name, query)
  }

  /** `contacts.filter { it.name.contains(query, ignoreCase = true) }` */
  function SearchFilter(contacts: seq<Contact>, query: string): (r: seq<Contact>)
    ensures |r| <= |contacts|
    ensures forall c :: c in r <==> c in contacts && exists i :: OccursAt(c.name, query, i)
  {
    Lists.Filter(contacts, (c: Contact) => Matches(query, c))
  }

  /** The shown list keeps the cached order. */
  lemma SearchKeepsOrder(contacts: seq<Contact>, query: string)
    ensures Lists.IsSubsequence(SearchFilter(contacts, query), contacts)
  {
    Lists.FilterIsSubsequence(contacts, (c: Contact) => Matches(query, c));
  }

  /** Every matching contact is shown as many times as it is cached, a non-matching one never. */
  lemma SearchCount(contacts: seq<Contact>, query: string, c: Contact)
    ensures multiset(SearchFilter(contacts, query))[c] ==
      if ContainsIgnoreCase(c.name, query) then multiset(contacts)[c] else 0
  {
    Lists.FilterCount(contacts, (x: Contact) => Matches(query, x), c);
  }

  /** An empty search box shows the whole list. */
  lemma EmptyQueryShowsAll(contacts: seq<Contact>)
    ensures SearchFilter(contacts, "") == contacts
  {
    forall c | c in contacts ensures Matches("", c) {
      EmptyQueryOccurs(c.name);
    }
    Lists.FilterKeepsAll(contacts, (c: Contact) => Matches("", c));
  }

  /** The search ignores the letter case of the query. */
  lemma SearchIgnoresQueryCase(contacts: seq<Contact>, q: string, q': string)
    requires |q| == |q'|
    requires forall k :: 0 <= k < |q| ==> CharEqualsIgnoreCase(q[k], q'[k])
    ensures SearchFilter(contacts, q) == SearchFilter(contacts, q')
  {
    forall c | c in contacts ensures Matches(q, c) == Matches(q', c) {
      QueryCaseIrrelevant(c.name, q, q');
    }
    Lists.FilterCongruent(contacts, (c: Contact) => Matches(q, c), (c: Contact) => Matches(q', c));
  }
}
