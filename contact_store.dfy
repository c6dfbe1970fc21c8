/** The GraphQL server's contact store: the module-level `contacts` list, the
    `search` query, the `list`, `add` and `remove` resolvers of `Contacts`,
    and `__resolveType`, which tags each output object for the `CluiOutput` union. */
module ContactStore {
  import opened Wrappers
  import opened Contacts
  import Seqs
  import Text

  /** A markdown text built by json2md. Its layout is not modelled; only what
      it tabulates is. Every such text is non-empty, hence truthy. */
  datatype Markdown = ContactsTable(rows: seq<Contact>) | AddedContact(contact: Contact)

  /** A resolver's result object: `{error}`, `{markdown}` or `{message}`. */
  datatype OutputObject = OutputObject(error: Option<string>, markdown: Option<Markdown>, message: Option<string>)

  /** The members of the `CluiOutput` union. */
  datatype OutputType = CluiSuccessOutput | CluiMarkdownOutput | CluiErrorOutput

  function ErrorOutput(error: string): OutputObject { OutputObject(Some(error), None, None) }
  function MarkdownOutput(md: Markdown): OutputObject { OutputObject(None, Some(md), None) }
  function SuccessOutput(message: string): OutputObject { OutputObject(None, None, Some(message)) }

  function DuplicateMessage(email: string): string { "Contact with email: \"" + email + "\" already exists" }
  function NotFoundMessage(email: string): string { "Contact with email: \"" + email + "\" not found" }
  function RemovedMessage(email: string): string { "Removed contact: \"" + email + "\"" }

  /** Truthiness of an optional string field. */
  predicate Present(s: Option<string>) { s.Some? && s.value != "" }

  /** `CluiOutput.__resolveType`: error wins over markdown, markdown over success. */
  function ResolveType(obj: OutputObject): (t: OutputType)
    ensures t == CluiErrorOutput <==> Present(obj.error)
    ensures t == CluiMarkdownOutput <==> !Present(obj.error) && obj.markdown.Some?
    ensures t == CluiSuccessOutput <==> !Present(obj.error) && obj.markdown.None?
  {
    if Present(obj.error) then CluiErrorOutput
    else if obj.markdown.Some? then CluiMarkdownOutput
    else CluiSuccessOutput
  }

  /** The search condition: the lower-cased name or email contains the lower-cased query. */
  predicate Matches(c: Contact, query: string)
  {
    Text.Contains(Text.Lower(c.name), Text.Lower(query)) || Text.Contains(Text.Lower(c.email), Text.Lower(query))
  }

  /** What `search(query)` returns for `contacts`: everything for a missing or
      empty query, otherwise exactly the matching contacts, each as often as it
      occurs, in their original order. */
  function SearchResults(contacts: seq<Contact>, query: Option<string>): (r: seq<Contact>)
    ensures !Present(query) ==> r == contacts
    ensures Present(query) ==> forall c :: c in r <==> c in contacts && Matches(c, query.value)
    ensures Present(query) ==> forall c :: multiset(r)[c] == if Matches(c, query.value) then multiset(contacts)[c] else 0
    ensures Seqs.IsSubsequence(r, contacts)
  {
    if Present(query) then
      var p := (c: Contact) => Matches(c, query.value);
      var r := Seqs.Filter(contacts, p);
      assert forall c :: c in r <==> c in contacts && Matches(c, query.value) by {
        forall c ensures c in r <==> c in contacts && Matches(c, query.value) {
          Seqs.FilterMembers(contacts, p, c);
        }
      }
      assert forall c :: multiset(r)[c] == if Matches(c, query.value) then multiset(contacts)[c] else 0 by {
        forall c ensures multiset(r)[c] == if Matches(c, query.value) then multiset(contacts)[c] else 0 {
          Seqs.FilterCount(contacts, p, c);
        }
      }
      Seqs.FilterIsSubsequence(contacts, p);
      r
    else
      Seqs.FilterIsSubsequence(contacts, (c: Contact) => true);
      Seqs.FilterKeepsAll(contacts, (c: Contact) => true);
      contacts
  }

  /** The list `remove` leaves: every record whose email differs from `email`,
      in the original order. */
  function WithoutEmail(contacts: seq<Contact>, email: string): (r: seq<Contact>)
    ensures forall c :: c in r <==> c in contacts && c.email != email
    ensures forall c :: multiset(r)[c] == if c.email != email then multiset(contacts)[c] else 0
    ensures email !in EmailSet(r)
    ensures Seqs.IsSubsequence(r, contacts)
    ensures UniqueEmails(contacts) ==> UniqueEmails(r)
  {
    var p := (c: Contact) => c.email != email;
    var r := Seqs.Filter(contacts, p);
    assert forall c :: c in r <==> c in contacts && c.email != email by {
      forall c ensures c in r <==> c in contacts && c.email != email {
        Seqs.FilterMembers(contacts, p, c);
      }
    }
    assert forall c :: multiset(r)[c] == if c.email != email then multiset(contacts)[c] else 0 by {
      forall c ensures multiset(r)[c] == if c.email != email then multiset(contacts)[c] else 0 {
        Seqs.FilterCount(contacts, p, c);
      }
    }
    Seqs.FilterIsSubsequence(contacts, p);
    assert UniqueEmails(contacts) ==> UniqueEmails(r) by {
      if UniqueEmails(contacts) {
        FilterKeepsUnique(contacts, p);
      }
    }
    r
  }

  /** The `find(c => c.email === email)` both `add` and `remove` start with:
      the first record with that email. */
  function FindByEmail(contacts: seq<Contact>, email: string): (r: Option<Contact>)
    ensures r.None? <==> email !in EmailSet(contacts)
    ensures r.Some? ==> r.value in contacts && r.value.email == email
    ensures r.Some? ==> exists i :: 0 <= i < |contacts| && contacts[i] == r.value && forall j :: 0 <= j < i ==> contacts[j].email != email
  {
    var r := Seqs.Find(contacts, (c: Contact) => c.email == email);
    assert r.Some? ==> r.value in contacts by {
      if r.Some? {
        var i :| 0 <= i < |contacts| && contacts[i] == r.value;
      }
    }
    r
  }

  class Store {
    /** The module-level `contacts` array. */
    var contacts: seq<Contact>

    /** The store as the server starts it, with the seed records (random ones,
        produced by faker, in the source). */
    constructor (seed: seq<Contact>)
      ensures contacts == seed
    {
      contacts := seed;
    }

    /** `Query.search`: reads the list and never changes it. */
    method Search(query: Option<string>) returns (r: seq<Contact>)
      ensures r == SearchResults(contacts, query)
      ensures !Present(query) ==> r == contacts
      ensures Present(query) ==> forall c :: c in r <==> c in contacts && Matches(c, query.value)
      ensures Present(query) ==> forall c :: multiset(r)[c] == if Matches(c, query.value) then multiset(contacts)[c] else 0
      ensures Seqs.IsSubsequence(r, contacts)
    {
      r := SearchResults(contacts, query);
    }

    /** `Contacts.list`: a markdown table of every contact, in order. */
    method List() returns (out: OutputObject)
      ensures out == MarkdownOutput(ContactsTable(contacts))
      ensures ResolveType(out) == CluiMarkdownOutput
    {
      out := MarkdownOutput(ContactsTable(contacts));
    }

    /** `Contacts.add`: refuses an email that is already present, otherwise
        appends the new record. */
    method Add(name: string, email: string) returns (out: OutputObject)
      modifies this
      ensures email in EmailSet(old(contacts)) ==>
                contacts == old(contacts) && out == ErrorOutput(DuplicateMessage(email))
      ensures email !in EmailSet(old(contacts)) ==>
                contacts == old(contacts) + [Contact(name, email)] && out == MarkdownOutput(AddedContact(Contact(name, email)))
      ensures ResolveType(out) == if email in EmailSet(old(contacts)) then CluiErrorOutput else CluiMarkdownOutput
      ensures UniqueEmails(old(contacts)) ==> UniqueEmails(contacts)
    {
      var existing := FindByEmail(contacts, email);
      if existing.Some? {
        out := ErrorOutput(DuplicateMessage(email));
        return;
      }
      if UniqueEmails(contacts) {
        AppendKeepsUnique(contacts, Contact(name, email));
      }
      contacts := contacts + [Contact(name, email)];
      out := MarkdownOutput(AddedContact(Contact(name, email)));
    }

    /** `Contacts.remove`: reports an absent email, otherwise drops every record
        with that email. */
    method Remove(email: string) returns (out: OutputObject)
      modifies this
      ensures email !in EmailSet(old(contacts)) ==>
                contacts == old(contacts) && out == ErrorOutput(NotFoundMessage(email))
      ensures email in EmailSet(old(contacts)) ==>
                contacts == WithoutEmail(old(contacts), email) && out == SuccessOutput(RemovedMessage(email))
      ensures ResolveType(out) == if email in EmailSet(old(contacts)) then CluiSuccessOutput else CluiErrorOutput
      ensures forall c :: c in contacts <==> c in old(contacts) && c.email != email
      ensures forall c :: multiset(contacts)[c] == if c.email != email then multiset(old(contacts))[c] else 0
      ensures Seqs.IsSubsequence(contacts, old(contacts))
      ensures UniqueEmails(old(contacts)) ==> UniqueEmails(contacts)
    {
      var existing := FindByEmail(contacts, email);
      if existing.None? {
        out := ErrorOutput(NotFoundMessage(email));
        Seqs.FilterIsSubsequence(contacts, (c: Contact) => true);
        Seqs.FilterKeepsAll(contacts, (c: Contact) => true);
        return;
      }
      contacts := WithoutEmail(contacts, existing.value.email);
      out := SuccessOutput(RemovedMessage(existing.value.email));
    }
  }

  /** The query's case does not matter: `search` lower-cases it. */
  lemma SearchIgnoresQueryCase(contacts: seq<Contact>, query: string)
    ensures SearchResults(contacts, Some(query)) == SearchResults(contacts, Some(Text.Lower(query)))
  {
    Text.LowerIdempotent(query);
    Seqs.FilterCongruent(contacts, (c: Contact) => Matches(c, query), (c: Contact) => Matches(c, Text.Lower(query)));
  }

  /** After adding a record, searching for its email finds it. */
  lemma FoundAfterAdd(contacts: seq<Contact>, c: Contact)
    ensures c in SearchResults(contacts + [c], Some(c.email))
  {
    Text.ContainsSelfAndEmpty(Text.Lower(c.email));
    Seqs.FilterMembers(contacts + [c], (x: Contact) => Matches(x, c.email), c);
  }

  /** Removing the email just added restores the list that was there before. */
  lemma RemoveUndoesAdd(contacts: seq<Contact>, c: Contact)
    requires c.email !in EmailSet(contacts)
    ensures WithoutEmail(contacts + [c], c.email) == contacts
  {
    var p := (x: Contact) => x.email != c.email;
    Seqs.FilterAppend(contacts, [c], p);
    Seqs.FilterKeepsAll(contacts, p);
    assert Seqs.Filter([c], p) == [];
  }

  /** With unique emails, removing a present email drops exactly one record. */
  lemma {:induction false} RemoveDropsOne(contacts: seq<Contact>, email: string)
    requires UniqueEmails(contacts) && email in EmailSet(contacts)
    ensures |WithoutEmail(contacts, email)| == |contacts| - 1
    decreases |contacts|
  {
    var p := (x: Contact) => x.email != email;
    UniqueEmailsCons(contacts);
    EmailSetCons(contacts);
    var t := contacts[1..];
    if contacts[0].email == email {
      forall i | 0 <= i < |t| ensures p(t[i]) {
        assert t[i] in t;
      }
      Seqs.FilterKeepsAll(t, p);
    } else {
      RemoveDropsOne(t, email);
    }
  }

}
