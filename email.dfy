/** The `email` command: its sub-commands are built from a contact search,
    one per email, and each runs an `Email` composer for that contact. The
    search call itself is asynchronous network I/O and is not modelled; its
    response's `search` list is the input here. */
module EmailCommand {
  import opened Wrappers
  import opened Contacts
  import opened SessionItem
  import Seqs

  /** A sub-command: its description, and the contact its `run` composes an email to. */
  datatype SubCommand = SubCommand(description: string, contact: Contact)

  /** The last contact in `cs` with email `email`: the one whose entry survives
      when later assignments to the same key overwrite earlier ones. */
  function LastWithEmail(cs: seq<Contact>, email: string): Option<Contact>
  {
    Seqs.FindLast(cs, (c: Contact) => c.email == email)
  }

  /** Appending a contact makes it the last one with its email and changes no other. */
  lemma LastWithEmailSnoc(cs: seq<Contact>, c: Contact, email: string)
    ensures LastWithEmail(cs + [c], email) == if c.email == email then Some(c) else LastWithEmail(cs, email)
  {
  }

  /** The entry keyed by `email` after folding `cs` into the map. */
  predicate EntryFor(cs: seq<Contact>, email: string, entry: SubCommand)
  {
    var last := LastWithEmail(cs, email);
    last.Some? && entry == SubCommand(last.value.name, last.value)
  }

  /** `commands(query)` once the search has answered: no `search` list gives no
      sub-commands; otherwise the list is folded into a map keyed by email. */
  method Commands(search: Option<seq<Contact>>) returns (m: map<string, SubCommand>)
    ensures search.None? ==> m == map[]
    ensures search.Some? ==> m.Keys == EmailSet(search.value)
    ensures search.Some? ==> forall e :: e in m ==> EntryFor(search.value, e, m[e])
    ensures search.Some? ==> |m| <= |search.value| && (|m| == |search.value| <==> UniqueEmails(search.value))
  {
    m := map[];
    if search.None? {
      return;
    }
    var cs := search.value;
    for i := 0 to |cs|
      invariant m.Keys == EmailSet(cs[..i])
      invariant forall e :: e in m ==> EntryFor(cs[..i], e, m[e])
    {
      var contact := cs[i];
      ghost var done := cs[..i];
      assert cs[..i + 1] == done + [contact];
      ghost var before := m;
      m := m[contact.email := SubCommand(contact.name, contact)];
      assert EmailSet(done + [contact]) == EmailSet(done) + {contact.email} by {
        assert forall c :: c in done + [contact] <==> c in done || c == contact;
      }
      forall e | e in m
        ensures EntryFor(done + [contact], e, m[e])
      {
        LastWithEmailSnoc(done, contact, e);
        if e != contact.email {
          assert m[e] == before[e];
        }
      }
    }
    assert cs[..|cs|] == cs;
    EmailSetSize(cs);
    assert |m| == |m.Keys|;
  }

  /** What the composer shows: the form, or the confirmation once sent. */
  datatype EmailView = Compose(to: string, text: string, placeholder: string) | Sent(notice: string)

  /** The `Email` component: a message being written to one contact. */
  class Email {
    const contact: Contact
    /** Whether `props.item` is set. */
    const hasItem: bool
    /** The textarea's text. */
    var value: string
    var submitted: bool
    /** The signals sent to `props.item`, in order. */
    var itemLog: seq<Signal>

    /** The session advances at most once, and only once the message is sent. */
    ghost predicate Valid()
      reads this
    {
      multiset(itemLog)[Next] == if hasItem && submitted then 1 else 0
    }

    constructor (contact: Contact, hasItem: bool)
      ensures this.contact == contact && this.hasItem == hasItem
      ensures value == "" && !submitted && itemLog == []
      ensures Valid()
    {
      this.contact := contact;
      this.hasItem := hasItem;
      value := "";
      submitted := false;
      itemLog := [];
    }

    /** The textarea's `onChange`. */
    method Change(text: string)
      modifies this
      ensures value == text && submitted == old(submitted) && itemLog == old(itemLog)
      ensures old(Valid()) ==> Valid()
    {
      value := text;
    }

    /** `onSubmit`: marks the message sent and advances the session once. The
        form is replaced by the confirmation afterwards, so it happens once. */
    method Submit()
      requires Valid() && !submitted
      modifies this
      ensures submitted && value == old(value)
      ensures Valid()
      ensures itemLog == old(itemLog) + (if hasItem then [Next] else [])
    {
      submitted := true;
      if hasItem {
        itemLog := itemLog + [Next];
      }
    }

    /** The controls' `onCancel`: `item.remove().next()` when there is an item.
        The controls exist only until the message is sent. */
    method Cancel()
      requires Valid() && !submitted
      modifies this
      ensures value == old(value) && submitted == old(submitted)
      ensures Valid()
      ensures itemLog == old(itemLog) + (if hasItem then [RemoveThenNext] else [])
    {
      if hasItem {
        itemLog := itemLog + [RemoveThenNext];
      }
    }

    function View(): (v: EmailView)
      reads this
      ensures v.Sent? <==> submitted
      ensures v.Sent? ==> v.notice == "email sent to " + contact.email
      ensures v.Compose? ==> v.to == contact.email && v.text == value && v.placeholder == "Write something to " + contact.name
    {
      if submitted then Sent("email sent to " + contact.email)
      else Compose(contact.email, value, "Write something to " + contact.name)
    }
  }

}
