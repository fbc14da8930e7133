/** The records the screens work on: conversations with their optional
    follow-up, contacts with their optional address, and service reports.
    A point in time is a whole number of minutes. */
module Types {

  datatype Option<T> = None | Some(value: T)

  /** A point in time, in minutes. */
  type Minutes = int

  /** A JavaScript string is truthy when it is not empty. */
  predicate NonEmpty(s: string) {
    s != ""
  }

  /** A string that may be `undefined` is truthy when it is present and
      not empty. */
  predicate Truthy(s: Option<string>) {
    s.Some? && NonEmpty(s.value)
  }

  /** One scheduled reminder: when it fires and the platform's handle. */
  datatype Notification = Notification(date: Minutes, id: string)

  datatype FollowUp = FollowUp(
    date: Minutes,
    topic: string,
    notifyMe: bool,
    notifications: Option<seq<Notification>>)

  /** `contact.id` may be absent: a conversation with no contact assigned. */
  datatype ContactRef = ContactRef(id: Option<string>)

  datatype Conversation = Conversation(
    id: string,
    contact: ContactRef,
    date: Minutes,
    note: string,
    followUp: Option<FollowUp>,
    isBibleStudy: bool)

  datatype Address = Address(line1: string, line2: string, city: string, state: string, zip: string)

  datatype Contact = Contact(
    id: string,
    name: string,
    address: Option<Address>,
    phone: Option<string>,
    email: Option<string>)

  /** `credit` absent reads as false; `tag` may be null or absent. */
  datatype ServiceReport = ServiceReport(
    id: string,
    date: Minutes,
    hours: int,
    minutes: int,
    ldc: bool,
    credit: bool,
    tag: Option<string>)

  /** `i` is the index of the first contact that carries `id`. */
  predicate FirstWithId(contacts: seq<Contact>, id: Option<string>, i: int) {
    0 <= i < |contacts| && Some(contacts[i].id) == id
    && forall j :: 0 <= j < i ==> Some(contacts[j].id) != id
  }

  /** `contacts.find((c) => c.id === id)`: the first contact carrying the id;
      an absent id matches no contact, since every contact has a string id. */
  function FindContact(contacts: seq<Contact>, id: Option<string>): (r: Option<Contact>)
    ensures r.Some? ==> r.value in contacts && Some(r.value.id) == id
    ensures r.None? <==> forall c :: c in contacts ==> Some(c.id) != id
    ensures forall i :: FirstWithId(contacts, id, i) ==> r == Some(contacts[i])
  {
    if contacts == [] then None
    else if Some(contacts[0].id) == id then Some(contacts[0])
    else
      var rest := FindContact(contacts[1..], id);
      assert forall c :: c in contacts ==> c == contacts[0] || c in contacts[1..];
      FirstWithIdShift(contacts, id);
      rest
  }

  /** When the head does not carry the id, the first match in the list is
      the first match in its tail, one place further on. */
  lemma FirstWithIdShift(contacts: seq<Contact>, id: Option<string>)
    requires contacts != [] && Some(contacts[0].id) != id
    ensures forall i :: FirstWithId(contacts, id, i) ==>
              0 < i && FirstWithId(contacts[1..], id, i - 1) && contacts[1..][i - 1] == contacts[i]
  {
    forall i | FirstWithId(contacts, id, i)
      ensures 0 < i && FirstWithId(contacts[1..], id, i - 1)
    {
      forall j | 0 <= j < i - 1 ensures Some(contacts[1..][j].id) != id {
        assert contacts[1..][j] == contacts[j + 1];
      }
    }
  }
}
