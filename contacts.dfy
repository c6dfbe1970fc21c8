/** The `Contact` record of the schema (`{name, email}`) and the email
    uniqueness the contact store is meant to keep. */
module Contacts {
  import Seqs

  datatype Contact = Contact(name: string, email: string)

  /** The emails that occur in `cs`. */
  function EmailSet(cs: seq<Contact>): set<string>
  {
    set c | c in cs :: c.email
  }

  /** No two records of `cs` share an email. */
  ghost predicate UniqueEmails(cs: seq<Contact>)
  {
    forall i, j :: 0 <= i < j < |cs| ==> cs[i].email != cs[j].email
  }

  lemma EmailSetCons(cs: seq<Contact>)
    requires cs != []
    ensures EmailSet(cs) == {cs[0].email} + EmailSet(cs[1..])
  {
  }

  /** Uniqueness of a non-empty list, read from its head. */
  lemma UniqueEmailsCons(cs: seq<Contact>)
    requires cs != []
    ensures UniqueEmails(cs) <==> cs[0].email !in EmailSet(cs[1..]) && UniqueEmails(cs[1..])
  {
  }

  /** A list has at most as many distinct emails as records, and exactly as
      many iff its emails are unique. */
  lemma {:induction false} EmailSetSize(cs: seq<Contact>)
    ensures |EmailSet(cs)| <= |cs|
    ensures |EmailSet(cs)| == |cs| <==> UniqueEmails(cs)
    decreases |cs|
  {
    if cs == [] {
      assert EmailSet(cs) == {};
    } else {
      EmailSetSize(cs[1..]);
      EmailSetCons(cs);
      UniqueEmailsCons(cs);
    }
  }

  /** Appending a record whose email is new keeps the emails unique. */
  lemma AppendKeepsUnique(cs: seq<Contact>, c: Contact)
    requires UniqueEmails(cs) && c.email !in EmailSet(cs)
    ensures UniqueEmails(cs + [c])
  {
  }

  /** Any filter of a list with unique emails has unique emails. */
  lemma {:induction false} FilterKeepsUnique(cs: seq<Contact>, p: Contact -> bool)
    requires UniqueEmails(cs)
    ensures UniqueEmails(Seqs.Filter(cs, p))
    decreases |cs|
  {
    if cs != [] {
      UniqueEmailsCons(cs);
      FilterKeepsUnique(cs[1..], p);
      var rest := Seqs.Filter(cs[1..], p);
      if p(cs[0]) {
        var r := Seqs.Filter(cs, p);
        assert r == [cs[0]] + rest;
        assert cs[0].email !in EmailSet(rest) by {
          forall c | c in rest
            ensures c.email != cs[0].email
          {
            Seqs.FilterMembers(cs[1..], p, c);
          }
        }
        assert r[1..] == rest;
        UniqueEmailsCons(r);
      } else {
        assert Seqs.Filter(cs, p) == rest;
      }
    }
  }

}
