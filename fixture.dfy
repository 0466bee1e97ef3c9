/** The three-contact book of tests/test_contactbook.py and the answers its
    queries are expected to give. */
module Fixture {

  import opened Text
  import opened Contacts

  /** A contact holds exactly these fields. */
  ghost predicate Holds(c: Contact, name: string, phone: string, email: string, tags: seq<string>)
    reads c
  {
    c.name == name && c.phone == phone && c.email == email && c.tags == tags
  }

  /** Adding "new_tag" twice to John Doe's record leaves it there once. */
  method TagTwice(now: Timestamp) returns (c: Contact)
    ensures "new_tag" in c.tags && multiset(c.tags)["new_tag"] == 1
    ensures c.tags == ["work", "new_tag"]
  {
    c := new Contact("John Doe", "12345", "john@work.com", now, ["work"]);
    c.AddTag("new_tag");
    c.AddTag("new_tag");
  }

  /** John Doe's record renders as the five labelled lines, the single tag
      standing alone. */
  lemma JohnRendering(c: Contact)
    requires Holds(c, "John Doe", "12345", "john@work.com", ["work"])
    ensures c.ToString()
         == "Name: John Doe\nPhone: 12345\nEmail: john@work.com\nTags: work\nCreated on: "
          + c.creationDate.text
  {
    assert Join(", ", c.tags) == "work";
    var s1 := "Name: " + "John Doe";
    assert s1 == "Name: John Doe";
    var s2 := s1 + "\nPhone: ";
    assert s2 == "Name: John Doe\nPhone: ";
    var s3 := s2 + "12345";
    assert s3 == "Name: John Doe\nPhone: 12345";
    var s4 := s3 + "\nEmail: ";
    assert s4 == "Name: John Doe\nPhone: 12345\nEmail: ";
    var s5 := s4 + "john@work.com";
    assert s5 == "Name: John Doe\nPhone: 12345\nEmail: john@work.com";
    var s6 := s5 + "\nTags: ";
    assert s6 == "Name: John Doe\nPhone: 12345\nEmail: john@work.com\nTags: ";
    var s7 := s6 + "work";
    assert s7 == "Name: John Doe\nPhone: 12345\nEmail: john@work.com\nTags: work";
    var s8 := s7 + "\nCreated on: ";
    assert s8 == "Name: John Doe\nPhone: 12345\nEmail: john@work.com\nTags: work\nCreated on: ";
  }

  /** Adding John Doe to an empty book stores exactly that one contact. */
  method AddToEmpty(now: Timestamp) returns (book: ContactBook)
    ensures book.Valid() && |book.contacts| == 1
    ensures "12345" in book.contacts && book.contacts["12345"].name == "John Doe"
  {
    book := new ContactBook();
    book.AddContact("John Doe", "12345", "john@work.com", ["work"], now);
  }

  /** The book the tests build: John Doe, Jane Doe and Alice Johnson, added
      in that order. */
  ghost predicate IsFixture(book: ContactBook)
    reads book, book.contacts.Values
  {
    && book.Valid()
    && book.keys == ["12345", "67890", "12346"]
    && Holds(book.contacts["12345"], "John Doe", "12345", "john@work.com", ["work"])
    && Holds(book.contacts["67890"], "Jane Doe", "67890", "jane@personal.com", ["friend"])
    && Holds(book.contacts["12346"], "Alice Johnson", "12346", "alice@company.com", ["work"])
  }

  /** Build the book with three calls of AddContact, as the tests do. */
  method Build(now: Timestamp) returns (book: ContactBook)
    ensures fresh(book) && IsFixture(book)
  {
    book := new ContactBook();
    book.AddContact("John Doe", "12345", "john@work.com", ["work"], now);
    book.AddContact("Jane Doe", "67890", "jane@personal.com", ["friend"], now);
    AddAlice(book, now);
  }

  /** The third call of the fixture, on the book holding the first two. */
  method AddAlice(book: ContactBook, now: Timestamp)
    requires book.Valid() && book.keys == ["12345", "67890"]
    requires Holds(book.contacts["12345"], "John Doe", "12345", "john@work.com", ["work"])
    requires Holds(book.contacts["67890"], "Jane Doe", "67890", "jane@personal.com", ["friend"])
    modifies book
    ensures IsFixture(book)
  {
    ghost var john, jane := book.contacts["12345"], book.contacts["67890"];
    assert "12346" != "12345" by { assert "12346"[4] != "12345"[4]; }
    book.AddContact("Alice Johnson", "12346", "alice@company.com", ["work"], now);
    assert book.contacts["12345"] == john && book.contacts["67890"] == jane;
    assert book.Valid();
    assert book.keys == ["12345", "67890", "12346"];
    assert Holds(john, "John Doe", "12345", "john@work.com", ["work"]);
    assert Holds(jane, "Jane Doe", "67890", "jane@personal.com", ["friend"]);
    assert Holds(book.contacts["12346"], "Alice Johnson", "12346", "alice@company.com", ["work"]);
  }

  /** One for a condition that holds, none for one that does not. */
  function Count(b: bool): (n: nat)
    ensures n <= 1 && (n == 1 <==> b)
  {
    if b then 1 else 0
  }

  /** Filtering three contacts keeps as many as match. */
  lemma MatchingOfThree(a: Contact, b: Contact, c: Contact, name: string, phone: string, email: string)
    ensures |Matching([a, b, c], name, phone, email)|
         == Count(Matches(a, name, phone, email)) + Count(Matches(b, name, phone, email))
          + Count(Matches(c, name, phone, email))
  {
    assert [c][1..] == [];
    assert |Matching([c], name, phone, email)| == Count(Matches(c, name, phone, email));
    assert [b, c][1..] == [c];
    assert |Matching([b, c], name, phone, email)|
        == Count(Matches(b, name, phone, email)) + |Matching([c], name, phone, email)|;
    assert [a, b, c][1..] == [b, c];
    assert |Matching([a, b, c], name, phone, email)|
        == Count(Matches(a, name, phone, email)) + |Matching([b, c], name, phone, email)|;
  }

  /** Selecting three contacts by tag keeps as many as carry it. */
  lemma TaggedOfThree(a: Contact, b: Contact, c: Contact, tag: string)
    ensures |Tagged([a, b, c], tag)| == Count(tag in a.tags) + Count(tag in b.tags) + Count(tag in c.tags)
  {
    assert [c][1..] == [];
    assert |Tagged([c], tag)| == Count(tag in c.tags);
    assert [b, c][1..] == [c];
    assert |Tagged([b, c], tag)| == Count(tag in b.tags) + |Tagged([c], tag)|;
    assert [a, b, c][1..] == [b, c];
    assert |Tagged([a, b, c], tag)| == Count(tag in a.tags) + |Tagged([b, c], tag)|;
  }

  /** The book lists John Doe first, and all three contacts. */
  lemma FixtureListed(book: ContactBook)
    requires IsFixture(book)
    ensures |book.ListContacts()| == 3
    ensures book.ListContacts()[0].name == "John Doe"
  {
  }

  /** Two of the three contacts carry the tag "work". */
  lemma FixtureByTag(book: ContactBook)
    requires IsFixture(book)
    ensures |book.ContactsByTag("work")| == 2
    ensures forall c | c in book.ContactsByTag("work") :: "work" in c.tags
  {
    var all := book.ListContacts();
    assert all == [all[0], all[1], all[2]];
    TaggedOfThree(all[0], all[1], all[2], "work");
  }

  /** The listing of the fixture, with every field of every contact matched
      by the empty criterion. */
  lemma FixtureSearchable(book: ContactBook)
    requires IsFixture(book)
    ensures var all := book.ListContacts();
      && all == [all[0], all[1], all[2]]
      && all[0].name == "John Doe" && all[1].name == "Jane Doe" && all[2].name == "Alice Johnson"
      && all[0].phone == "12345" && all[1].phone == "67890" && all[2].phone == "12346"
      && all[0].email == "john@work.com" && all[1].email == "jane@personal.com"
      && all[2].email == "alice@company.com"
      && forall i | 0 <= i < 3 ::
           IsSubstring("", all[i].name) && IsSubstring("", all[i].phone) && IsSubstring("", all[i].email)
  {
    var all := book.ListContacts();
    forall i | 0 <= i < 3
      ensures IsSubstring("", all[i].name) && IsSubstring("", all[i].phone) && IsSubstring("", all[i].email)
    {
      EmptyIsSubstring(all[i].name);
      EmptyIsSubstring(all[i].phone);
      EmptyIsSubstring(all[i].email);
    }
  }

  // The criterion lemmas below take the fields as parameters pinned down by
  // their requires, instead of stating facts about literals alone: a fact
  // whose arguments are all literals makes the solver unfold the recursive
  // substring test on every literal in scope, which is far costlier.

  /** "John" is part of John Doe and Alice Johnson, not of Jane Doe. */
  lemma JohnCriterion(john: string, jane: string, alice: string)
    requires john == "John Doe" && jane == "Jane Doe" && alice == "Alice Johnson"
    ensures IsSubstring("John", john) && !IsSubstring("John", jane) && IsSubstring("John", alice)
  {
    OccursIsSubstring("John", john, 0);
    NoOccurrenceOfPair("John", jane);
    OccursIsSubstring("John", alice, 6);
  }

  /** "Doe" is part of John Doe and Jane Doe, not of Alice Johnson. */
  lemma DoeCriterion(john: string, jane: string, alice: string)
    requires john == "John Doe" && jane == "Jane Doe" && alice == "Alice Johnson"
    ensures IsSubstring("Doe", john) && IsSubstring("Doe", jane) && !IsSubstring("Doe", alice)
  {
    OccursIsSubstring("Doe", john, 5);
    OccursIsSubstring("Doe", jane, 5);
    NoOccurrenceOfFirst("Doe", alice);
  }

  /** "123" begins 12345 and 12346 and is absent from 67890. */
  lemma PhonePrefixCriterion(john: string, jane: string, alice: string)
    requires john == "12345" && jane == "67890" && alice == "12346"
    ensures IsSubstring("123", john) && !IsSubstring("123", jane) && IsSubstring("123", alice)
  {
    OccursIsSubstring("123", john, 0);
    NoOccurrenceOfFirst("123", jane);
    OccursIsSubstring("123", alice, 0);
  }

  /** "12345" matches only itself. */
  lemma WholePhoneCriterion(john: string, jane: string, alice: string)
    requires john == "12345" && jane == "67890" && alice == "12346"
    ensures IsSubstring("12345", john) && !IsSubstring("12345", jane) && !IsSubstring("12345", alice)
  {
    OccursIsSubstring("12345", john, 0);
    NoOccurrenceOfFirst("12345", jane);
    NoOccurrenceOfSameLength("12345", alice);
  }

  /** John's address matches only itself. */
  lemma EmailCriterion(john: string, jane: string, alice: string)
    requires john == "john@work.com" && jane == "jane@personal.com" && alice == "alice@company.com"
    ensures IsSubstring("john@work.com", john)
    ensures !IsSubstring("john@work.com", jane) && !IsSubstring("john@work.com", alice)
  {
    OccursIsSubstring("john@work.com", john, 0);
    NoOccurrenceOfPair("john@work.com", jane);
    NoOccurrenceOfFirst("john@work.com", alice);
  }

  /** "Jane" is part of Jane Doe only. */
  lemma JaneCriterion(john: string, jane: string, alice: string)
    requires john == "John Doe" && jane == "Jane Doe" && alice == "Alice Johnson"
    ensures !IsSubstring("Jane", john) && IsSubstring("Jane", jane) && !IsSubstring("Jane", alice)
  {
    NoOccurrenceOfPair("Jane", john);
    OccursIsSubstring("Jane", jane, 0);
    NoOccurrenceOfPair("Jane", alice);
  }

  /** `name="John"` matches John Doe and Alice Johnson. */
  lemma SearchJohn(book: ContactBook)
    requires IsFixture(book)
    ensures |book.SearchByCriteria("John", "", "")| == 2
  {
    FixtureSearchable(book);
    var all := book.ListContacts();
    JohnCriterion(all[0].name, all[1].name, all[2].name);
    MatchingOfThree(all[0], all[1], all[2], "John", "", "");
  }

  /** `name="Doe"` matches John Doe and Jane Doe. */
  lemma SearchDoe(book: ContactBook)
    requires IsFixture(book)
    ensures |book.SearchByCriteria("Doe", "", "")| == 2
  {
    FixtureSearchable(book);
    var all := book.ListContacts();
    DoeCriterion(all[0].name, all[1].name, all[2].name);
    MatchingOfThree(all[0], all[1], all[2], "Doe", "", "");
  }

  /** `phone="123"` matches 12345 and 12346. */
  lemma SearchPhonePrefix(book: ContactBook)
    requires IsFixture(book)
    ensures |book.SearchByCriteria("", "123", "")| == 2
  {
    FixtureSearchable(book);
    var all := book.ListContacts();
    PhonePrefixCriterion(all[0].phone, all[1].phone, all[2].phone);
    MatchingOfThree(all[0], all[1], all[2], "", "123", "");
  }

  /** `phone="12345"` matches only 12345. */
  lemma SearchWholePhone(book: ContactBook)
    requires IsFixture(book)
    ensures |book.SearchByCriteria("", "12345", "")| == 1
  {
    FixtureSearchable(book);
    var all := book.ListContacts();
    WholePhoneCriterion(all[0].phone, all[1].phone, all[2].phone);
    MatchingOfThree(all[0], all[1], all[2], "", "12345", "");
  }

  /** `email="john@work.com"` matches only John Doe. */
  lemma SearchEmail(book: ContactBook)
    requires IsFixture(book)
    ensures |book.SearchByCriteria("", "", "john@work.com")| == 1
  {
    FixtureSearchable(book);
    var all := book.ListContacts();
    EmailCriterion(all[0].email, all[1].email, all[2].email);
    MatchingOfThree(all[0], all[1], all[2], "", "", "john@work.com");
  }

  /** `name="Jane", email="jane@personal.com"` matches only Jane Doe. */
  lemma SearchNameAndEmail(book: ContactBook)
    requires IsFixture(book)
    ensures |book.SearchByCriteria("Jane", "", "jane@personal.com")| == 1
  {
    FixtureSearchable(book);
    var all := book.ListContacts();
    JaneCriterion(all[0].name, all[1].name, all[2].name);
    OccursIsSubstring("jane@personal.com", all[1].email, 0);
    MatchingOfThree(all[0], all[1], all[2], "Jane", "", "jane@personal.com");
  }

  /** Deleting 12345 leaves two contacts; deleting it again is a KeyError. */
  method DeleteTwice(book: ContactBook) returns (first: Outcome, remaining: nat, second: Outcome)
    requires IsFixture(book)
    modifies book
    ensures first == Pass && remaining == 2 && "12345" !in book.contacts
    ensures second == Fail(KeyError("12345"))
  {
    first := book.DeleteContact("12345");
    remaining := |book.contacts|;
    second := book.DeleteContact("12345");
  }
}
