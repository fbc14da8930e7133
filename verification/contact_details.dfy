/** The contact details screen: the contact's conversation history, newest
    first; the address as one line and as a maps query; which detail rows
    show; and the Hero's study status. */
module ContactDetails {
  import opened Types
  import opened Sequences

  // ---------------------------------------------------------------------
  // Conversation history

  /** `contact?.id`: absent when no contact was found. */
  function ViewedId(contact: Option<Contact>): Option<string> {
    if contact.Some? then Some(contact.value.id) else None
  }

  /** `conversations.filter(({ contact: { id } }) => id === contact?.id)`.
      With no contact, `contact?.id` is `undefined`, which matches the
      conversations that have no contact assigned. */
  function ContactConversations(conversations: seq<Conversation>, contact: Option<Contact>): (r: seq<Conversation>)
    ensures forall c :: c in r <==> c in conversations && c.contact.id == ViewedId(contact)
    ensures IsSubsequence(r, conversations)
    ensures forall c :: multiset(r)[c] == if c.contact.id == ViewedId(contact) then multiset(conversations)[c] else 0
  {
    var id := ViewedId(contact);
    FilterMultiset(conversations, (c: Conversation) => c.contact.id == id);
    FilterMembership(conversations, (c: Conversation) => c.contact.id == id);
    FilterIsSubsequence(conversations, (c: Conversation) => c.contact.id == id);
    Filter(conversations, (c: Conversation) => c.contact.id == id)
  }

  /** The sort comparator: `1` (a after b) when a is older, `-1` otherwise.
      It never answers `0`, and for two conversations on the same date it
      answers `-1` both ways, so their relative order is left to the sort. */
  function Compare(a: Conversation, b: Conversation): (r: int)
    ensures r == 1 || r == -1
    ensures r == 1 <==> a.date < b.date
    ensures a.date == b.date ==> r == -1
  {
    if a.date < b.date then 1 else -1
  }

  /** Newest first: dates never increase along the list. */
  ghost predicate NewestFirst(s: seq<Conversation>) {
    forall i, j :: 0 <= i < j < |s| ==> s[i].date >= s[j].date
  }

  /** `contactConversations.sort(...)`: sorts the filtered array in place,
      newest first. Ties are in no particular order, as with the source's
      comparator; this model sorts by insertion. */
  method SortNewestFirst(a: array<Conversation>)
    modifies a
    ensures NewestFirst(a[..])
    ensures multiset(a[..]) == old(multiset(a[..]))
  {
    var i := 0;
    while i < a.Length
      invariant 0 <= i <= a.Length
      invariant forall k, l :: 0 <= k < l < i ==> a[k].date >= a[l].date
      invariant multiset(a[..]) == old(multiset(a[..]))
    {
      InsertNewestFirst(a, i);
      i := i + 1;
    }
  }

  /** Moves `a[i]` down into the newest-first prefix `a[..i]`, one adjacent
      swap at a time, while the comparator says it belongs before its
      neighbour. */
  method InsertNewestFirst(a: array<Conversation>, i: nat)
    requires i < a.Length
    requires forall k, l :: 0 <= k < l < i ==> a[k].date >= a[l].date
    modifies a
    ensures forall k, l :: 0 <= k < l <= i ==> a[k].date >= a[l].date
    ensures multiset(a[..]) == old(multiset(a[..]))
  {
    var j := i;
    while j > 0 && Compare(a[j - 1], a[j]) > 0
      invariant 0 <= j <= i
      invariant forall k, l :: 0 <= k < l <= i && k != j && l != j ==> a[k].date >= a[l].date
      invariant forall l :: j < l <= i ==> a[j].date > a[l].date
      invariant multiset(a[..]) == old(multiset(a[..]))
    {
      SwapDown(a, j);
      j := j - 1;
    }
  }

  method SwapDown(a: array<Conversation>, j: nat)
    requires 0 < j < a.Length
    modifies a
    ensures a[..] == old(a[..])[j - 1 := old(a[j])][j := old(a[j - 1])]
    ensures multiset(a[..]) == old(multiset(a[..]))
  {
    a[j - 1], a[j] := a[j], a[j - 1];
  }

  /** The history list: the viewed contact's conversations, newest first. */
  method ContactHistory(conversations: seq<Conversation>, contact: Option<Contact>) returns (history: array<Conversation>)
    ensures fresh(history)
    ensures NewestFirst(history[..])
    ensures multiset(history[..]) == multiset(ContactConversations(conversations, contact))
    ensures forall c :: c in history[..] <==> c in conversations && c.contact.id == ViewedId(contact)
  {
    var filtered := ContactConversations(conversations, contact);
    history := new Conversation[|filtered|](i requires 0 <= i < |filtered| => filtered[i]);
    assert history[..] == filtered;
    SortNewestFirst(history);
    assert forall c :: c in history[..] <==> c in multiset(history[..]);
  }

  // ---------------------------------------------------------------------
  // Address

  /** `Object.keys(address)` order, taken as the order of the fields of
      the address type. */
  function AddressFields(a: Address): (r: seq<string>)
    ensures |r| == 5
  {
    [a.line1, a.line2, a.city, a.state, a.zip]
  }

  /** Each string preceded by one space, concatenated. */
  function Spaced(vs: seq<string>): (r: string)
    ensures r == "" <==> vs == []
  {
    if vs == [] then "" else " " + vs[0] + Spaced(vs[1..])
  }

  /** The reference reading of `addressAsSingleString`: the first field as
      it is (nothing when empty), then every later non-empty field preceded
      by one space. */
  function JoinedAddress(fields: seq<string>): string {
    if fields == [] then "" else fields[0] + Spaced(Filter(fields[1..], NonEmpty))
  }

  /** What the reduce appends for the field at `index`: nothing when it is
      empty, otherwise the field, after one space unless it is the first key. */
  function Piece(index: nat, line: string): string {
    if NonEmpty(line) then (if index != 0 then " " else "") + line else ""
  }

  /** The `reduce` over the fields, by index, into the accumulator. */
  method AddressAsSingleString(address: Address) returns (s: string)
    ensures s == JoinedAddress(AddressFields(address))
  {
    var fields := AddressFields(address);
    s := "";
    for index := 0 to |fields|
      invariant s == JoinedAddress(fields[..index])
    {
      var line := fields[index];
      JoinedAddressStep(fields, index);
      if NonEmpty(line) {
        s := s + ((if index != 0 then " " else "") + line);
      }
    }
    assert fields[..|fields|] == fields;
  }

  lemma {:induction false} SpacedAppend(vs: seq<string>, v: string)
    ensures Spaced(vs + [v]) == Spaced(vs) + " " + v
  {
    if vs != [] {
      assert (vs + [v])[1..] == vs[1..] + [v];
      SpacedAppend(vs[1..], v);
    } else {
      assert [v][1..] == [];
    }
  }

  lemma {:induction false} FilterAppend(vs: seq<string>, v: string, p: string -> bool)
    ensures Filter(vs + [v], p) == Filter(vs, p) + (if p(v) then [v] else [])
  {
    if vs == [] {
      assert [v][1..] == [];
    } else {
      assert (vs + [v])[1..] == vs[1..] + [v];
      FilterAppend(vs[1..], v, p);
    }
  }

  /** One iteration of the reduce extends the reference reading by one field. */
  lemma JoinedAddressStep(fields: seq<string>, index: nat)
    requires index < |fields|
    ensures JoinedAddress(fields[..index + 1]) == JoinedAddress(fields[..index]) + Piece(index, fields[index])
  {
    var v := fields[index];
    if index > 0 {
      var before := fields[..index][1..];
      assert fields[..index + 1][1..] == before + [v];
      assert fields[..index + 1][0] == fields[..index][0] == fields[0];
      FilterAppend(before, v, NonEmpty);
      if NonEmpty(v) {
        SpacedAppend(Filter(before, NonEmpty), v);
        calc {
          JoinedAddress(fields[..index + 1]);
          fields[0] + Spaced(Filter(before + [v], NonEmpty));
          fields[0] + Spaced(Filter(before, NonEmpty) + [v]);
          fields[0] + (Spaced(Filter(before, NonEmpty)) + " " + v);
          (fields[0] + Spaced(Filter(before, NonEmpty))) + (" " + v);
        }
      } else {
        assert Filter(before + [v], NonEmpty) == Filter(before, NonEmpty) + [] == Filter(before, NonEmpty);
        assert JoinedAddress(fields[..index]) == fields[0] + Spaced(Filter(before, NonEmpty));
        assert Piece(index, v) == "";
        assert JoinedAddress(fields[..index]) + "" == JoinedAddress(fields[..index]);
      }
    } else {
      assert fields[..1][1..] == [];
      assert fields[..1][0] == v;
    }
  }

  /** The single string is empty exactly when every field is empty. */
  lemma JoinedAddressEmpty(fields: seq<string>)
    ensures JoinedAddress(fields) == "" <==> forall v :: v in fields ==> v == ""
  {
    if fields != [] {
      var rest := Filter(fields[1..], NonEmpty);
      FilterMembership(fields[1..], NonEmpty);
      assert JoinedAddress(fields) == fields[0] + Spaced(rest);
      assert rest == [] <==> forall v :: v in fields[1..] ==> v == "" by {
        if rest != [] {
          assert rest[0] in rest;
        }
      }
      assert forall v :: v in fields ==> v == fields[0] || v in fields[1..];
      if JoinedAddress(fields) == "" {
        assert |fields[0]| + |Spaced(rest)| == 0;
        assert fields[0] == "" && rest == [];
      }
      if forall v :: v in fields ==> v == "" {
        assert fields[0] in fields;
        assert forall v :: v in fields[1..] ==> v in fields;
        assert fields[0] + Spaced(rest) == "" + "";
      }
    }
  }

  /** When the first key is empty and some later field is not, the single
      string starts with a space: the prefix depends on the key's index,
      not on whether anything was written before it. */
  lemma LeadingSpaceWhenFirstEmpty(fields: seq<string>, k: nat)
    requires 0 < k < |fields| && fields[0] == "" && fields[k] != ""
    ensures |JoinedAddress(fields)| > 0 && JoinedAddress(fields)[0] == ' '
  {
    assert fields[k] in fields[1..];
    FilterKeeps(fields[1..], NonEmpty, fields[k]);
  }

  /** `hasAddress`: an address exists and some field is non-empty. */
  function HasAddress(address: Option<Address>): (r: bool)
    ensures r <==> address.Some? && exists v :: v in AddressFields(address.value) && NonEmpty(v)
    ensures r <==> address.Some? && JoinedAddress(AddressFields(address.value)) != ""
  {
    if address.None? then false
    else
      JoinedAddressEmpty(AddressFields(address.value));
      exists v :: v in AddressFields(address.value) && NonEmpty(v)
  }

  /** The maps query built by `navigateTo`: all five parts, empty or not,
      as `line1 line2 city, state zip`. */
  function MapsQuery(a: Address): (q: string)
    ensures |q| == |a.line1| + |a.line2| + |a.city| + |a.state| + |a.zip| + 5
    ensures q[|a.line1|] == ' ' && q[|a.line1| + 1 + |a.line2|] == ' '
    ensures q[|a.line1| + 1 + |a.line2| + 1 + |a.city|..][..2] == ", "
    ensures q[..|a.line1|] == a.line1 && q[|q| - |a.zip|..] == a.zip
    ensures q[|a.line1| + 1..][..|a.line2|] == a.line2
    ensures q[|a.line1| + |a.line2| + 2..][..|a.city|] == a.city
    ensures q[|a.line1| + |a.line2| + |a.city| + 4..][..|a.state|] == a.state
    ensures q[|a.line1| + |a.line2| + |a.city| + 4 + |a.state|] == ' '
  {
    a.line1 + " " + a.line2 + " " + a.city + ", " + a.state + " " + a.zip
  }

  datatype Platform = IOS | Android | OtherPlatform

  /** The URL handed to `Linking.openURL`, or none on a platform that has
      no maps scheme (then nothing is opened). */
  function NavigateUrl(platform: Platform, a: Address): (url: Option<string>)
    ensures platform == OtherPlatform <==> url.None?
    ensures platform == IOS ==> url == Some("maps://0,0?q=" + MapsQuery(a))
    ensures platform == Android ==> url == Some("geo:0,0?q=" + MapsQuery(a))
  {
    match platform
    case IOS => Some("maps://0,0?q=" + MapsQuery(a))
    case Android => Some("geo:0,0?q=" + MapsQuery(a))
    case OtherPlatform => None
  }

  // ---------------------------------------------------------------------
  // Detail rows

  datatype DetailRows = DetailRows(address: bool, phone: bool, email: bool, noPersonalInformation: bool)

  /** The rows of the details card: address when `hasAddress`, phone and
      email when present and non-empty, and the "no personal information"
      notice exactly when none of the three shows. */
  function Rows(contact: Contact): (r: DetailRows)
    ensures r.address == HasAddress(contact.address)
    ensures r.phone == Truthy(contact.phone) && r.email == Truthy(contact.email)
    ensures r.noPersonalInformation <==> !r.address && !r.phone && !r.email
    ensures r.noPersonalInformation <==>
              (contact.address.None? || JoinedAddress(AddressFields(contact.address.value)) == "")
              && !Truthy(contact.phone) && !Truthy(contact.email)
  {
    var hasAddress := HasAddress(contact.address);
    DetailRows(hasAddress, Truthy(contact.phone), Truthy(contact.email),
               !hasAddress && !Truthy(contact.phone) && !Truthy(contact.email))
  }

  // ---------------------------------------------------------------------
  // Study status

  /** The conversation-library queries the screen calls; their definitions
      are not part of this model, so they are parameters. */
  datatype StudyQueries = StudyQueries(
    studiedForGivenMonth: (Contact, seq<Conversation>, Minutes) -> bool,
    hasAtLeastOneStudy: (seq<Conversation>, Contact) -> bool,
    mostRecentStudy: (seq<Conversation>, Contact) -> Option<Conversation>)

  datatype Engagement = Engagement(isActive: bool, hasStudiedPreviously: bool, mostRecentStudy: Option<Conversation>)

  /** The three memos: with no contact, not active, never studied, no
      recent study; otherwise whatever the queries answer for the contact
      and the current month. */
  function ContactEngagement(contact: Option<Contact>, conversations: seq<Conversation>, now: Minutes, q: StudyQueries): (e: Engagement)
    ensures contact.None? ==> e == Engagement(false, false, None)
    ensures contact.Some? ==>
              e.isActive == q.studiedForGivenMonth(contact.value, conversations, now)
              && e.hasStudiedPreviously == q.hasAtLeastOneStudy(conversations, contact.value)
              && e.mostRecentStudy == q.mostRecentStudy(conversations, contact.value)
  {
    match contact
    case None => Engagement(false, false, None)
    case Some(c) =>
      Engagement(q.studiedForGivenMonth(c, conversations, now),
                 q.hasAtLeastOneStudy(conversations, c),
                 q.mostRecentStudy(conversations, c))
  }

  datatype StatusLine = IsStudying | LastStudied(date: Minutes)

  datatype HeroView = HeroView(status: Option<StatusLine>, inactiveNotice: bool)

  /** The Hero: the status line only with a previous study and a most recent
      one, "is studying" when active and "last studied <date>" otherwise;
      the inactive notice exactly when not active and studied before. */
  function Hero(e: Engagement): (h: HeroView)
    ensures h.status.Some? <==> e.hasStudiedPreviously && e.mostRecentStudy.Some?
    ensures h.status.Some? ==>
              h.status.value == if e.isActive then IsStudying else LastStudied(e.mostRecentStudy.value.date)
    ensures h.inactiveNotice <==> !e.isActive && e.hasStudiedPreviously
  {
    HeroView(
      if e.hasStudiedPreviously && e.mostRecentStudy.Some? then
        Some(if e.isActive then IsStudying else LastStudied(e.mostRecentStudy.value.date))
      else None,
      !e.isActive && e.hasStudiedPreviously)
  }

  /** The inactive notice and "is studying" never show together, and when
      the notice shows beside a status line, that line is "last studied". */
  lemma InactiveNoticeMeansLastStudied(e: Engagement)
    ensures Hero(e).inactiveNotice ==> Hero(e).status != Some(IsStudying)
    ensures Hero(e).inactiveNotice && e.mostRecentStudy.Some? ==>
              Hero(e).status == Some(LastStudied(e.mostRecentStudy.value.date))
  {
  }

  // ---------------------------------------------------------------------
  // The screen

  datatype Screen =
    | NotFound(paramsId: string)
    | Details(name: string, hero: HeroView, rows: DetailRows)

  /** With no contact for the id, the screen shows only the not-found text
      with that id; otherwise the Hero and the detail rows of that contact. */
  function ContactDetailsScreen(paramsId: string, contacts: seq<Contact>, conversations: seq<Conversation>,
                                now: Minutes, q: StudyQueries): (s: Screen)
    ensures s.NotFound? <==> forall c :: c in contacts ==> c.id != paramsId
    ensures s.NotFound? ==> s.paramsId == paramsId
    ensures s.Details? ==>
              var c := FindContact(contacts, Some(paramsId)).value;
              s == Details(c.name, Hero(ContactEngagement(Some(c), conversations, now, q)), Rows(c))
  {
    var contact := FindContact(contacts, Some(paramsId));
    match contact
    case None => NotFound(paramsId)
    case Some(c) => Details(c.name, Hero(ContactEngagement(contact, conversations, now, q)), Rows(c))
  }
}
