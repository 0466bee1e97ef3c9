/** The contact data store of contactbook/model/contacts.py: a Contact record
    whose tag list grows in place, and a ContactBook that keeps contacts in a
    dictionary keyed by phone, in insertion order. */
module Contacts {

  import opened Seqs
  import opened Text

  /** The moment a contact was created. No clock is modelled: the caller
      supplies it, and the model knows it only through its printed form. */
  datatype Timestamp = Timestamp(text: string)

  /** The exception `del` raises for a phone that is not a key. */
  datatype Error = KeyError(key: string)

  /** Success, or the exception an operation raised. */
  datatype Outcome = Pass | Fail(error: Error)

  /** The tag list after `add_tag(tag)`: the tag is appended only when it is
      absent, so existing tags keep their order and nothing is duplicated. */
  function WithTag(tags: seq<string>, tag: string): (r: seq<string>)
    ensures tag in r
    ensures tag in tags ==> r == tags
    ensures tags <= r && |r| <= |tags| + 1
    ensures forall x :: x in r <==> x in tags || x == tag
    ensures multiset(r)[tag] == if tag in tags then multiset(tags)[tag] else 1
    ensures forall x | x != tag :: multiset(r)[x] == multiset(tags)[x]
    ensures NoDuplicates(tags) ==> NoDuplicates(r)
  {
    if tag in tags then tags else tags + [tag]
  }

  /** Adding the same tag twice is the same as adding it once. */
  lemma WithTagIdempotent(tags: seq<string>, tag: string)
    ensures WithTag(WithTag(tags, tag), tag) == WithTag(tags, tag)
  {
  }

  /** A text holds no line break. */
  predicate SingleLine(s: string) {
    '\n' !in s
  }

  /** One person's contact record. Only the tag list ever changes after
      construction, so the other fields are constants. */
  class Contact {
    const name: string
    const phone: string
    const email: string
    var tags: seq<string>
    const creationDate: Timestamp

    /** `Contact(name, phone, email, tags)`; the tags are kept as given, even
        with duplicates, and default to none. */
    constructor (name: string, phone: string, email: string, creationDate: Timestamp, tags: seq<string> := [])
      ensures this.name == name && this.phone == phone && this.email == email
      ensures this.tags == tags && this.creationDate == creationDate
    {
      this.name := name;
      this.phone := phone;
      this.email := email;
      this.tags := tags;
      this.creationDate := creationDate;
    }

    /** `add_tag`: append `tag` unless it is already there. */
    method AddTag(tag: string)
      modifies this
      ensures tags == WithTag(old(tags), tag)
    {
      if tag !in tags {
        tags := tags + [tag];
      }
    }

    /** Every field renders on a line of its own. */
    ghost predicate SingleLineFields()
      reads this
    {
      && SingleLine(name) && SingleLine(phone) && SingleLine(email)
      && SingleLine(creationDate.text)
      && forall i | 0 <= i < |tags| :: SingleLine(tags[i])
    }

    /** The five labelled lines `__str__` prints, the tags joined by ", ". */
    function Labelled(): seq<string>
      reads this
    {
      [ "Name: " + name,
        "Phone: " + phone,
        "Email: " + email,
        "Tags: " + Join(", ", tags),
        "Created on: " + creationDate.text ]
    }

    /** `__str__`: the labelled lines, separated by line breaks. The result
        is the f-string of the source: each label, its field, and a line
        break before every label but the first. */
    function ToString(): (r: string)
      reads this
      ensures r == "Name: " + name + "\nPhone: " + phone + "\nEmail: " + email
                 + "\nTags: " + Join(", ", tags) + "\nCreated on: " + creationDate.text
    {
      var joined, date := Join(", ", tags), creationDate.text;
      assert "\n" + "Phone: " == "\nPhone: " && "\n" + "Email: " == "\nEmail: ";
      assert "\n" + "Tags: " == "\nTags: " && "\n" + "Created on: " == "\nCreated on: ";
      JoinFive("\n", Labelled());
      var line1 := "Name: " + name;
      Regroup(line1, "\n", "Phone: ", phone);
      var line2 := line1 + "\nPhone: " + phone;
      Regroup(line2, "\n", "Email: ", email);
      var line3 := line2 + "\nEmail: " + email;
      Regroup(line3, "\n", "Tags: ", joined);
      var line4 := line3 + "\nTags: " + joined;
      Regroup(line4, "\n", "Created on: ", date);
      Join("\n", Labelled())
    }
  }

  /** The rendering of a contact whose fields hold no line break is exactly
      five lines, each a label followed by one field, in a fixed order. */
  lemma ToStringLines(c: Contact)
    requires c.SingleLineFields()
    ensures Lines(c.ToString()) == [
      "Name: " + c.name,
      "Phone: " + c.phone,
      "Email: " + c.email,
      "Tags: " + Join(", ", c.tags),
      "Created on: " + c.creationDate.text]
  {
    JoinChars(", ", c.tags, '\n');
    LinesJoin(c.Labelled());
  }

  /** The contacts of `cs` whose tags include `tag`, in their order in `cs`. */
  function Tagged(cs: seq<Contact>, tag: string): (r: seq<Contact>)
    reads cs
    ensures IsSubsequence(r, cs)
    ensures forall c | c in r :: c in cs && tag in c.tags
    ensures forall c | c in cs && tag in c.tags :: c in r
  {
    if cs == [] then []
    else if tag in cs[0].tags then [cs[0]] + Tagged(cs[1..], tag)
    else Tagged(cs[1..], tag)
  }

  /** Each non-empty criterion is a substring of the matching field; an
      empty criterion matches every contact. */
  predicate Matches(c: Contact, name: string, phone: string, email: string) {
    IsSubstring(name, c.name) && IsSubstring(phone, c.phone) && IsSubstring(email, c.email)
  }

  /** The contacts of `cs` that match the criteria, in their order in `cs`. */
  function Matching(cs: seq<Contact>, name: string, phone: string, email: string): (r: seq<Contact>)
    ensures IsSubsequence(r, cs)
    ensures forall c | c in r :: c in cs && Matches(c, name, phone, email)
    ensures forall c | c in cs && Matches(c, name, phone, email) :: c in r
  {
    if cs == [] then []
    else if Matches(cs[0], name, phone, email) then [cs[0]] + Matching(cs[1..], name, phone, email)
    else Matching(cs[1..], name, phone, email)
  }

  /** A criterion left empty applies no filter: only the others decide. */
  lemma EmptyCriteriaIgnored(c: Contact, name: string, phone: string, email: string)
    ensures Matches(c, name, "", "") <==> IsSubstring(name, c.name)
    ensures Matches(c, "", phone, "") <==> IsSubstring(phone, c.phone)
    ensures Matches(c, "", "", email) <==> IsSubstring(email, c.email)
  {
    EmptyIsSubstring(c.name);
    EmptyIsSubstring(c.phone);
    EmptyIsSubstring(c.email);
  }

  /** With every criterion empty, nothing is filtered out. */
  lemma {:induction false} MatchingNoCriteria(cs: seq<Contact>)
    ensures Matching(cs, "", "", "") == cs
  {
    if cs != [] {
      EmptyCriteriaIgnored(cs[0], "", "", "");
      MatchingNoCriteria(cs[1..]);
      assert cs == [cs[0]] + cs[1..];
    }
  }

  /** The contacts stored in `m` under `keys`, in the order of `keys`. */
  function Listed(keys: seq<string>, m: map<string, Contact>): (r: seq<Contact>)
    requires forall k | k in keys :: k in m
    ensures |r| == |keys|
    ensures forall i | 0 <= i < |r| :: r[i] == m[keys[i]]
  {
    seq(|keys|, i requires 0 <= i < |keys| => m[keys[i]])
  }

  /** Storing under a new key lists the new contact last. */
  lemma ListedAppend(keys: seq<string>, m: map<string, Contact>, k: string, c: Contact)
    requires forall x | x in keys :: x in m
    requires k !in keys
    ensures Listed(keys + [k], m[k := c]) == Listed(keys, m) + [c]
  {
    var before, after := Listed(keys, m), Listed(keys + [k], m[k := c]);
    forall j | 0 <= j < |after| ensures after[j] == (before + [c])[j] {
      if j < |keys| {
        assert (keys + [k])[j] == keys[j] != k;
      }
    }
  }

  /** Storing under an existing key replaces the contact in its position. */
  lemma ListedOverwrite(keys: seq<string>, m: map<string, Contact>, i: nat, c: Contact)
    requires forall x | x in keys :: x in m
    requires NoDuplicates(keys) && i < |keys|
    ensures Listed(keys, m[keys[i] := c]) == Listed(keys, m)[i := c]
  {
  }

  /** Removing a key drops its contact and keeps the others in order. */
  lemma ListedRemove(keys: seq<string>, m: map<string, Contact>, i: nat)
    requires forall x | x in keys :: x in m
    requires NoDuplicates(keys) && i < |keys|
    ensures forall x | x in keys[..i] + keys[i + 1..] :: x in m - {keys[i]}
    ensures Listed(keys[..i] + keys[i + 1..], m - {keys[i]})
         == Listed(keys, m)[..i] + Listed(keys, m)[i + 1..]
  {
    RemoveAt(keys, i);
    var rest := keys[..i] + keys[i + 1..];
    var before, after := Listed(keys, m), Listed(rest, m - {keys[i]});
    forall j | 0 <= j < |after|
      ensures after[j] == (before[..i] + before[i + 1..])[j]
    {
      if j < i { assert rest[j] == keys[j]; } else { assert rest[j] == keys[j + 1]; }
    }
  }

  /** The contact book: a dictionary from phone to contact. A Python dict
      remembers the order in which its keys were first inserted; `keys` holds
      that order and `contacts` the entries. */
  class ContactBook {
    var keys: seq<string>
    var contacts: map<string, Contact>

    /** The keys are listed once each, and every contact is stored under its
        own phone. */
    ghost predicate Valid()
      reads this
    {
      && NoDuplicates(keys)
      && (forall k :: k in contacts <==> k in keys)
      && (forall k | k in contacts :: contacts[k].phone == k)
    }

    constructor ()
      ensures Valid() && keys == [] && contacts == map[]
    {
      keys := [];
      contacts := map[];
    }

    /** The number of entries is the number of listed keys. */
    lemma SizeIsKeyCount()
      requires Valid()
      ensures |contacts| == |keys|
    {
      DistinctCardinality(keys);
      assert contacts.Keys == set k | k in keys;
    }

    /** `list_contacts`: every stored contact once, in insertion order. */
    function ListContacts(): (r: seq<Contact>)
      reads this
      requires Valid()
      ensures |r| == |keys| == |contacts|
      ensures forall i | 0 <= i < |r| :: r[i].phone == keys[i] && r[i] == contacts[keys[i]]
    {
      SizeIsKeyCount();
      Listed(keys, contacts)
    }

    /** The listing holds every stored contact, and nothing else. */
    lemma ListingComplete()
      requires Valid()
      ensures forall k | k in contacts :: contacts[k] in ListContacts()
      ensures forall c | c in ListContacts() :: c.phone in contacts && contacts[c.phone] == c
    {
      var r := ListContacts();
      forall k | k in contacts ensures contacts[k] in r {
        var i := IndexOf(keys, k);
        assert r[i] == contacts[k];
      }
    }

    /** No contact is listed twice: distinct phones hold distinct contacts. */
    lemma ListedOnce()
      requires Valid()
      ensures NoDuplicates(ListContacts())
    {
      var r := ListContacts();
      forall i, j | 0 <= i < j < |r| ensures r[i] != r[j] {
        assert r[i].phone == keys[i] && r[j].phone == keys[j];
      }
    }

    /** `contacts_by_tag`: the stored contacts carrying `tag`, in insertion
        order; empty when none does. */
    function ContactsByTag(tag: string): (r: seq<Contact>)
      reads this, contacts.Values
      requires Valid()
      ensures IsSubsequence(r, ListContacts())
      ensures forall c | c in r :: c in ListContacts() && tag in c.tags
      ensures forall k | k in contacts :: contacts[k] in r <==> tag in contacts[k].tags
    {
      ListingComplete();
      Tagged(ListContacts(), tag)
    }

    /** The tag filter lists no contact twice, and comes back empty exactly
        when no stored contact carries the tag. */
    lemma ByTagOnce(tag: string)
      requires Valid()
      ensures NoDuplicates(ContactsByTag(tag))
      ensures ContactsByTag(tag) == [] <==> forall k | k in contacts :: tag !in contacts[k].tags
    {
      var r := ContactsByTag(tag);
      ListedOnce();
      SubsequenceDistinct(r, ListContacts());
      if r != [] {
        var c := r[0];
        assert c in r;
        ListingComplete();
        assert c.phone in contacts && tag in contacts[c.phone].tags;
      }
    }

    /** `search_by_criteria` as the tests intend it: the stored contacts
        matching every criterion, in insertion order. */
    function SearchByCriteria(name: string, phone: string, email: string): (r: seq<Contact>)
      reads this
      requires Valid()
      ensures IsSubsequence(r, ListContacts())
      ensures forall c | c in r :: c in ListContacts() && Matches(c, name, phone, email)
      ensures forall k | k in contacts :: contacts[k] in r <==> Matches(contacts[k], name, phone, email)
    {
      ListingComplete();
      Matching(ListContacts(), name, phone, email)
    }

    /** The search lists no contact twice. */
    lemma SearchOnce(name: string, phone: string, email: string)
      requires Valid()
      ensures NoDuplicates(SearchByCriteria(name, phone, email))
    {
      ListedOnce();
      SubsequenceDistinct(SearchByCriteria(name, phone, email), ListContacts());
    }

    /** With no criterion given, the search lists every contact. */
    lemma SearchWithoutCriteria()
      requires Valid()
      ensures SearchByCriteria("", "", "") == ListContacts()
    {
      MatchingNoCriteria(ListContacts());
    }

    /** `add_contact`: store a new contact under `phone`. A new phone goes
        last; an existing one keeps its position and gets the new contact. */
    method AddContact(name: string, phone: string, email: string, tags: seq<string>, now: Timestamp)
      requires Valid()
      modifies this
      ensures Valid()
      ensures phone in contacts && fresh(contacts[phone])
      ensures contacts[phone].name == name && contacts[phone].phone == phone
      ensures contacts[phone].email == email && contacts[phone].tags == tags
      ensures contacts[phone].creationDate == now
      ensures contacts == old(contacts)[phone := contacts[phone]]
      ensures keys == if phone in old(contacts) then old(keys) else old(keys) + [phone]
      ensures |contacts| == if phone in old(contacts) then old(|contacts|) else old(|contacts|) + 1
      ensures phone in old(contacts) ==>
        ListContacts() == old(ListContacts())[IndexOf(keys, phone) := contacts[phone]]
      ensures phone !in old(contacts) ==>
        ListContacts() == old(ListContacts()) + [contacts[phone]]
    {
      var c := new Contact(name, phone, email, now, tags);
      if phone !in contacts {
        ListedAppend(keys, contacts, phone, c);
        keys := keys + [phone];
      } else {
        ListedOverwrite(keys, contacts, IndexOf(keys, phone), c);
      }
      contacts := contacts[phone := c];
      SizeIsKeyCount();
    }

    /** `delete_contact`: remove the entry for `phone`, or report the
        KeyError that `del` raises when there is none. */
    method DeleteContact(phone: string) returns (result: Outcome)
      requires Valid()
      modifies this
      ensures Valid()
      ensures result == if phone in old(contacts) then Pass else Fail(KeyError(phone))
      ensures result.Fail? ==> keys == old(keys) && contacts == old(contacts)
      ensures result.Pass? ==> contacts == old(contacts) - {phone}
      ensures result.Pass? ==> |contacts| == old(|contacts|) - 1
      ensures result.Pass? ==>
        var i := IndexOf(old(keys), phone);
        && keys == old(keys)[..i] + old(keys)[i + 1..]
        && ListContacts() == old(ListContacts())[..i] + old(ListContacts())[i + 1..]
    {
      if phone !in contacts {
        return Fail(KeyError(phone));
      }
      var i := IndexOf(keys, phone);
      ListedRemove(keys, contacts, i);
      RemoveAt(keys, i);
      keys := keys[..i] + keys[i + 1..];
      contacts := contacts - {phone};
      SizeIsKeyCount();
      result := Pass;
    }
  }
}
