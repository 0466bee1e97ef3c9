# Contact book data store, modelled in Dafny

This project models the contact data store of `contactbook/model/contacts.py`.
The store has two parts:

- **`Contact`**: a record of a name, a phone, an email, an ordered list of tags
  and a creation date. `add_tag` appends a tag unless it is already present.
  `__str__` renders the record as five labelled lines.
- **`ContactBook`**: a dictionary from phone number to contact.
  - `add_contact` stores a new contact under its phone. It replaces any
    contact already stored there, and that entry keeps its position.
  - `delete_contact` removes the entry, or raises `KeyError` when the phone is
    not a key.
  - `list_contacts` returns the stored contacts in insertion order.
  - `contacts_by_tag` keeps the stored contacts that carry a tag.
  - `search_by_criteria` keeps the stored contacts whose name, phone and email
    contain the given texts; an empty criterion matches everything.

`search_by_criteria` has no implementation in the source. Its body is `pass`
(contactbook/model/contacts.py:39-40), so it returns `None`. The model states
the behaviour its tests expect (tests/test_contactbook.py:155-167): a
conjunction of case-sensitive substring tests. This is where the model departs
from the code, on purpose.

Files:

- `seqs.dfy` (module `Seqs`): facts about sequences. Covers distinctness, the
  position of an element, order-preserving subsequences, and removing one
  position.
- `text.dfy` (module `Text`): Python's `p in s` for strings (`IsSubstring`),
  checked against a positional definition. Also `sep.join(parts)` (`Join`) and
  splitting at line breaks (`Lines`), its inverse.
- `contacts.dfy` (module `Contacts`): the store itself.
  - `Contact` is a class. `tags` is its only mutable field, changed in place by
    `AddTag`. The other fields are constants, because no code of the store
    reassigns them.
  - `ContactBook` is a class with two fields. `contacts` is a map from phone to
    contact. `keys` records the order in which the current phones were
    inserted, as a Python dict does. Overwriting a phone keeps its position; a
    phone added again after a delete goes last. `AddContact` and `DeleteContact` reassign both fields.
    `ListContacts`, `ContactsByTag` and `SearchByCriteria` are functions of
    them.
  - `Valid()` is the invariant:
    - every key is listed exactly once;
    - the map and the key list hold the same phones;
    - each contact is stored under its own phone.
- `fixture.dfy` (module `Fixture`): the three-contact book of the tests. It is
  built with three `AddContact` calls. The file also holds the answers the
  tests expect from it, proved from the general contracts.

## Model

| member | source | states |
|---|---|---|
| Contacts.WithTag | contactbook/model/contacts.py:13-15 | After adding a tag, the tag is present. The list is unchanged if the tag was there already. Otherwise the old list is a prefix of the new one, which is one longer. The set of elements gains exactly the tag. The tag occurs once if it was absent, and every other tag keeps its count. A list without duplicates stays without duplicates. |
| Contacts.WithTagIdempotent | contactbook/model/contacts.py:13-15 | Adding the same tag twice gives the same list as adding it once. |
| Contacts.Contact.constructor | contactbook/model/contacts.py:5-11 | A new contact holds exactly the given name, phone, email, tags and creation date. Tags default to none and are kept as given, without removing duplicates. |
| Contacts.Contact.AddTag | contactbook/model/contacts.py:13-15 | The tag list changes in place to the `WithTag` list of its old value. |
| Contacts.Contact.ToString | contactbook/model/contacts.py:17-19 | `__str__`: the rendering is "Name: ", name, line break, "Phone: ", phone, line break, "Email: ", email, line break, "Tags: ", the tags joined by ", ", line break, "Created on: " and the date. |
| Contacts.ToStringLines | contactbook/model/contacts.py:17-19 | When no field holds a line break, the rendering splits into exactly five lines, each a label and one field, in a fixed order. |
| Text.Join | contactbook/model/contacts.py:18 | Joining no parts gives the empty text. Joining one part gives that part. The first part always begins the result. What follows the first part is stated by `Text.JoinAppend`. |
| Text.JoinAppend | contactbook/model/contacts.py:18 | Joining one more part appends the separator and then that part. So every part after the first follows a separator, in order. |
| Text.LinesJoin | contactbook/model/contacts.py:17-19 | Splitting at line breaks recovers the lines that were joined with line breaks, provided none of them contains one. |
| Text.SubstringIffOccurs | tests/test_contactbook.py:155-167 | `IsSubstring`, the model of Python's `in` on strings that the search uses, holds exactly when the criterion equals some window of the field. |
| Contacts.Tagged | contactbook/model/contacts.py:37 | The filter keeps the contacts carrying the tag, in order. Its result is a subsequence of the input and holds only contacts that carry the tag. It holds every input contact that carries it. |
| Contacts.Matching | contactbook/model/contacts.py:39-40 | The intended search filter keeps the contacts matching every criterion, in order. Its result is a subsequence of the input and holds only matching contacts. It holds every matching input contact. |
| Contacts.EmptyCriteriaIgnored | tests/test_contactbook.py:161 | `Matches` is the per-contact test of the search: every criterion is a substring of its field. An empty criterion does not filter. A contact matches exactly when the other criterion is a substring of its field. |
| Contacts.MatchingNoCriteria | contactbook/model/contacts.py:39-40 | With all three criteria empty, the filter returns its input unchanged. |
| Contacts.ListedAppend | contactbook/model/contacts.py:28 | Storing under a new key puts its contact at the end of the listing and leaves the earlier entries as they were. |
| Contacts.ListedOverwrite | contactbook/model/contacts.py:28 | Storing under an existing key replaces that key's contact in its own position. |
| Contacts.ListedRemove | contactbook/model/contacts.py:31 | Removing a key drops its contact from the listing and keeps the others in their relative order. |
| Contacts.ContactBook.constructor | contactbook/model/contacts.py:22-24 | A new book is empty and satisfies the store invariant. |
| Contacts.ContactBook.SizeIsKeyCount | contactbook/model/contacts.py:24 | The number of dictionary entries equals the number of keys in insertion order. |
| Contacts.ContactBook.ListContacts | contactbook/model/contacts.py:33-34 | The listing has one element per entry. Its i-th element is the contact stored under the i-th inserted phone. |
| Contacts.ContactBook.ListingComplete | contactbook/model/contacts.py:33-34 | Every stored contact is listed, and every listed contact is the one stored under its own phone. |
| Contacts.ContactBook.ListedOnce | contactbook/model/contacts.py:33-34 | No contact is listed twice. |
| Contacts.ContactBook.ContactsByTag | contactbook/model/contacts.py:36-37 | The result is a subsequence of the listing. Each contact in it carries the tag. A stored contact is in it exactly when it carries the tag. |
| Contacts.ContactBook.ByTagOnce | contactbook/model/contacts.py:36-37 | The tag filter holds no contact twice. It is empty exactly when no stored contact carries the tag; an empty result is not an error. |
| Contacts.ContactBook.SearchByCriteria | contactbook/model/contacts.py:39-40 | The result is a subsequence of the listing. Each contact in it matches every criterion. A stored contact is in it exactly when it matches. |
| Contacts.ContactBook.SearchOnce | contactbook/model/contacts.py:39-40 | The search holds no contact twice. |
| Contacts.ContactBook.SearchWithoutCriteria | contactbook/model/contacts.py:39-40 | With all criteria empty, the search returns the whole listing. |
| Contacts.ContactBook.AddContact | contactbook/model/contacts.py:26-28 | The invariant is kept. The phone's entry is a fresh contact with the given fields. Every other entry is unchanged. A new phone is appended to the key order and grows the size by one; the listing gains the contact at its end. An existing phone keeps the size and its position; the listing gets the new contact at that position. |
| Contacts.ContactBook.DeleteContact | contactbook/model/contacts.py:30-31 | A missing phone gives `KeyError(phone)` and leaves the book unchanged. Otherwise exactly that key goes and the size drops by one. The key order and the listing lose that one position; the rest keep their order. |
| Fixture.TagTwice | tests/test_contactbook.py:82-87 | Adding "new_tag" twice to John Doe's record leaves exactly one copy, after "work". |
| Fixture.JohnRendering | tests/test_contactbook.py:90-94 | John Doe's record renders as exactly `"Name: John Doe\nPhone: 12345\nEmail: john@work.com\nTags: work\nCreated on: "` followed by the date's text. |
| Fixture.AddToEmpty | tests/test_contactbook.py:126-131 | Adding John Doe to an empty book gives one entry, stored under 12345, with name John Doe. |
| Fixture.Build | tests/test_contactbook.py:29-35 | Three `AddContact` calls on a new book give John Doe, Jane Doe and Alice Johnson, in that order, with their fields. |
| Fixture.AddAlice | tests/test_contactbook.py:34 | The third call of the fixture appends Alice Johnson and keeps the first two contacts. |
| Fixture.FixtureListed | tests/test_contactbook.py:140-145 | The fixture lists three contacts, John Doe first. |
| Fixture.FixtureByTag | tests/test_contactbook.py:147-152 | Two fixture contacts carry "work", and every contact returned carries it. |
| Fixture.SearchJohn | tests/test_contactbook.py:157 | `name="John"` finds two contacts. |
| Fixture.SearchWholePhone | tests/test_contactbook.py:158 | `phone="12345"` finds one contact. |
| Fixture.SearchEmail | tests/test_contactbook.py:159 | `email="john@work.com"` finds one contact. |
| Fixture.SearchDoe | tests/test_contactbook.py:160 | `name="Doe"` finds two contacts. |
| Fixture.SearchPhonePrefix | tests/test_contactbook.py:161 | `name="", phone="123"` finds two contacts. |
| Fixture.SearchNameAndEmail | tests/test_contactbook.py:162 | `name="Jane", email="jane@personal.com"` finds one contact. |
| Fixture.DeleteTwice | tests/test_contactbook.py:133-138 | Deleting 12345 from the fixture succeeds and leaves two entries, without 12345. Deleting it again reports `KeyError("12345")`. |

## Left out

- `search_by_criteria` as written returns `None` for every input
  (contactbook/model/contacts.py:39-40). The model gives it the intended
  behaviour from the tests instead.
- Default criteria: the model's search takes all three criteria. The source
  declares no default values, although the tests expect `''` for each
  (tests/test_contactbook.py:116), and a call giving only some criteria raises
  `TypeError` in Python. Callers of the model pass `""` for an absent criterion.
- The clock. `creation_date` defaults to `datetime.now()`
  (contactbook/model/contacts.py:11). The model takes the date as a parameter
  and knows it only through its printed text. Python's datetime formatting is
  not part of this model.
- Exceptions: `delete_contact` on a missing phone returns the `KeyError` as a value
  (`Fail(KeyError(phone))`) instead of raising an exception.
- Aliasing of the caller's tag list. `add_contact` stores the list object it
  is given (contactbook/model/contacts.py:27), so a caller that later mutates
  that list changes the stored contact. The model copies tags as a value
  sequence.
- Reassignment of `name`, `phone` or `email` on a stored contact. Python
  dataclass fields are writable, but no code of the store writes them, so the
  model makes them constants. A caller that changes a stored contact's phone
  would break the invariant that each contact is stored under its own phone.
- The methods that `@dataclass` generates (`__eq__`, `__repr__`, `__init__`
  field checks). The model compares contacts by identity. Listed contacts have
  distinct phones, so they would be distinct under the generated `__eq__` as
  well.
- The reflection tests. These check `__dataclass_params__`, `isinstance` of
  fields and `inspect.signature` strings (tests/test_contactbook.py:39-64,
  98-123). They describe Python metadata, not behaviour.
- contactbook/view/ui_console.py (the interactive console, its prompts and
  tables) and contactbook/app.py (process start-up). These are input and
  output only and are not part of this model.
- Characters are compared one by one. There is no Unicode normalisation or
  case folding, which matches Python's `in` on `str`.
