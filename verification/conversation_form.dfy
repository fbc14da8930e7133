/** The conversation form: the record it edits, its validation, the
    reminder scheduling it performs on submit, and the save. */
module ConversationForm {
  import opened Types

  /** `moment(d).subtract(1, "days")`, in minutes (no daylight-saving shift). */
  const OneDay: int := 1440
  /** `moment(d).subtract(15, "minutes")`. */
  const FifteenMinutes: int := 15

  // ---------------------------------------------------------------------
  // Form state and its setters

  /** `_selectedContactId ?? params.id`: `??` only replaces an absent id,
      so an unassigned contact (`""`) stays `""`. */
  function AssignedContactId(selectedContactId: Option<string>, paramsId: Option<string>): (r: Option<string>)
    ensures selectedContactId.Some? ==> r == selectedContactId
    ensures selectedContactId.None? ==> r == paramsId
  {
    if selectedContactId.Some? then selectedContactId else paramsId
  }

  /** The record a new form starts from, with the generated `id` and an
      empty note. Its contact id is the one assigned when the form is
      created; later assignments do not reach it. */
  function NewConversation(id: string, assignedContactId: Option<string>, now: Minutes): (c: Conversation)
    ensures c.id == id && c.note == ""
    ensures c.contact.id == assignedContactId && c.date == now && !c.isBibleStudy
    ensures c.followUp == Some(FollowUp(now, "", false, None))
  {
    Conversation(id, ContactRef(assignedContactId), now, "", Some(FollowUp(now, "", false, None)), false)
  }

  /** `setNotifyMe`: only `followUp.notifyMe` changes. The source asserts
      that the follow-up is present (`conversation.followUp!`). */
  function SetNotifyMe(c: Conversation, notifyMe: bool): (r: Conversation)
    requires c.followUp.Some?
    ensures r.followUp.Some? && r.followUp.value.notifyMe == notifyMe
    ensures r.followUp.value.(notifyMe := c.followUp.value.notifyMe) == c.followUp.value
    ensures r.(followUp := c.followUp) == c
  {
    c.(followUp := Some(c.followUp.value.(notifyMe := notifyMe)))
  }

  /** `handleDateChange`: a dismissed picker (no date) changes nothing;
      otherwise only the conversation date changes. */
  function HandleDateChange(c: Conversation, date: Option<Minutes>): (r: Conversation)
    ensures date.None? ==> r == c
    ensures date.Some? ==> r.date == date.value && r.(date := c.date) == c
  {
    match date
    case None => c
    case Some(d) => c.(date := d)
  }

  /** `handleFollowUpDateChange`: no date changes nothing; an absent
      follow-up stays absent (`conversation.followUp && {...}`); otherwise
      only the follow-up date changes. */
  function HandleFollowUpDateChange(c: Conversation, date: Option<Minutes>): (r: Conversation)
    ensures date.None? || c.followUp.None? ==> r == c
    ensures r.followUp.Some? <==> c.followUp.Some?
    ensures date.Some? && c.followUp.Some? ==>
              r.followUp.value.date == date.value
              && r.followUp.value.(date := c.followUp.value.date) == c.followUp.value
              && r.(followUp := c.followUp) == c
  {
    match date
    case None => c
    case Some(d) =>
      match c.followUp
      case None => c
      case Some(f) => c.(followUp := Some(f.(date := d)))
  }

  /** The topic input's `onChangeText`: only the follow-up topic changes,
      and an absent follow-up stays absent. */
  function SetTopic(c: Conversation, topic: string): (r: Conversation)
    ensures c.followUp.None? ==> r == c
    ensures c.followUp.Some? ==>
              r.followUp.Some? && r.followUp.value.topic == topic
              && r.followUp.value.(topic := c.followUp.value.topic) == c.followUp.value
              && r.(followUp := c.followUp) == c
  {
    match c.followUp
    case None => c
    case Some(f) => c.(followUp := Some(f.(topic := topic)))
  }

  /** A new form passes validation exactly when the contact id assigned at
      creation is present and non-empty, and, with `notifyMe` off, its
      submit would schedule nothing. */
  lemma NewFormValidation(id: string, assignedContactId: Option<string>, now: Minutes)
    ensures Validate(NewConversation(id, assignedContactId, now)).passed <==> Truthy(assignedContactId)
    ensures !NewConversation(id, assignedContactId, now).followUp.value.notifyMe
  {
  }

  /** A form starts with a follow-up and no setter removes it, so the
      `followUp!` assertions in `setNotifyMe` and `submit` hold for every
      record the form can reach. */
  lemma FollowUpStaysPresent(c: Conversation, notifyMe: bool, date: Option<Minutes>, topic: string)
    requires c.followUp.Some?
    ensures SetNotifyMe(c, notifyMe).followUp.Some?
    ensures HandleDateChange(c, date).followUp.Some?
    ensures HandleFollowUpDateChange(c, date).followUp.Some?
    ensures SetTopic(c, topic).followUp.Some?
  {
  }

  // ---------------------------------------------------------------------
  // Validation

  /** `errors.contact`: `""` or the translated "you must assign a contact" text. */
  datatype ContactError = NoError | MustAssignContact

  datatype Validation = Validation(passed: bool, contactError: ContactError)

  /** `validate`: fails exactly when the record's contact id is absent or
      empty, and then reports the contact error; otherwise clears it. */
  function Validate(c: Conversation): (v: Validation)
    ensures !v.passed <==> c.contact.id == None || c.contact.id == Some("")
    ensures v.contactError == (if v.passed then NoError else MustAssignContact)
  {
    if !Truthy(c.contact.id) then Validation(false, MustAssignContact)
    else Validation(true, NoError)
  }

  // ---------------------------------------------------------------------
  // Reminder scheduling

  datatype ReminderKind = DayBefore | FifteenMinutesBefore

  /** The instant a reminder of the given kind fires for a follow-up at `followUpDate`. */
  function Trigger(kind: ReminderKind, followUpDate: Minutes): Minutes {
    match kind
    case DayBefore => followUpDate - OneDay
    case FifteenMinutesBefore => followUpDate - FifteenMinutes
  }

  /** The candidates that are strictly after `now`, day-before first.
      Ten minutes out gives none, between fifteen minutes and a day out
      (a day included) only the fifteen-minute one, more than a day out both. */
  function DueReminders(followUpDate: Minutes, now: Minutes): (r: seq<ReminderKind>)
    ensures followUpDate - now <= FifteenMinutes ==> r == []
    ensures FifteenMinutes < followUpDate - now <= OneDay ==> r == [FifteenMinutesBefore]
    ensures OneDay < followUpDate - now ==> r == [DayBefore, FifteenMinutesBefore]
    ensures forall k :: k in r <==> Trigger(k, followUpDate) > now
  {
    (if Trigger(DayBefore, followUpDate) > now then [DayBefore] else [])
    + (if Trigger(FifteenMinutesBefore, followUpDate) > now then [FifteenMinutesBefore] else [])
  }

  /** What the notification body interpolates: the contact's name, the
      follow-up time (day-before reminder only) and the topic, which adds
      nothing when it is empty. The translated text itself is opaque. */
  datatype ReminderContent =
    | DayBeforeBody(contactName: string, followUpDate: Minutes, topic: string)
    | FifteenMinutesBody(contactName: string, topic: string)

  datatype ScheduleRequest = ScheduleRequest(content: ReminderContent, trigger: Minutes)

  function Content(kind: ReminderKind, contactName: string, f: FollowUp): ReminderContent {
    match kind
    case DayBefore => DayBeforeBody(contactName, f.date, f.topic)
    case FifteenMinutesBefore => FifteenMinutesBody(contactName, f.topic)
  }

  function RequestsFor(kinds: seq<ReminderKind>, contactName: string, f: FollowUp): (r: seq<ScheduleRequest>)
    ensures |r| == |kinds|
    ensures forall i :: 0 <= i < |kinds| ==>
              r[i] == ScheduleRequest(Content(kinds[i], contactName, f), Trigger(kinds[i], f.date))
  {
    if kinds == [] then []
    else [ScheduleRequest(Content(kinds[0], contactName, f), Trigger(kinds[0], f.date))]
         + RequestsFor(kinds[1..], contactName, f)
  }

  /** The requests `scheduleNotifications` sends, in order. Without a
      follow-up there are none. Without a selected contact, building the
      body (`selectedContact!.name`) throws inside the `try`, so each
      candidate is skipped before its request is made. */
  function ReminderRequests(c: Conversation, selectedContact: Option<Contact>, now: Minutes): (r: seq<ScheduleRequest>)
    ensures |r| <= 2
    ensures c.followUp.None? || selectedContact.None? ==> r == []
    ensures forall i :: 0 <= i < |r| ==> r[i].trigger > now
    ensures forall i, j :: 0 <= i < j < |r| ==> r[i].trigger < r[j].trigger
    ensures c.followUp.Some? && selectedContact.Some? ==>
              |r| == |DueReminders(c.followUp.value.date, now)|
              && forall i :: 0 <= i < |r| ==>
                   var kind := DueReminders(c.followUp.value.date, now)[i];
                   r[i] == ScheduleRequest(Content(kind, selectedContact.value.name, c.followUp.value),
                                           Trigger(kind, c.followUp.value.date))
  {
    if c.followUp.None? || selectedContact.None? then []
    else RequestsFor(DueReminders(c.followUp.value.date, now), selectedContact.value.name, c.followUp.value)
  }

  datatype ScheduleOutcome = Scheduled(id: string) | Failed

  /** The handle pushed for one request: one entry dated with its trigger
      when the service accepted it, none when the call failed. */
  function HandleOf(req: ScheduleRequest, outcome: ScheduleOutcome): (hs: seq<Notification>)
    ensures outcome.Scheduled? ==> hs == [Notification(req.trigger, outcome.id)]
    ensures outcome.Failed? ==> hs == []
  {
    match outcome
    case Scheduled(id) => [Notification(req.trigger, id)]
    case Failed => []
  }

  /** The handles collected from the service's answers: `respond(q, n)` is the
      answer to request `q` made as the service's `n`-th call. A failure is
      logged and skipped; it does not stop the requests after it. */
  function Collected(reqs: seq<ScheduleRequest>, respond: (ScheduleRequest, nat) -> ScheduleOutcome, first: nat): (hs: seq<Notification>)
    ensures |hs| <= |reqs|
  {
    if reqs == [] then []
    else HandleOf(reqs[0], respond(reqs[0], first)) + Collected(reqs[1..], respond, first + 1)
  }

  /** A request the service accepted contributes its handle, dated with its
      trigger, whatever happened to the other requests. */
  lemma {:induction false} AcceptedRequestIsCollected(reqs: seq<ScheduleRequest>, respond: (ScheduleRequest, nat) -> ScheduleOutcome,
                                                      first: nat, i: nat)
    requires i < |reqs| && respond(reqs[i], first + i).Scheduled?
    ensures Notification(reqs[i].trigger, respond(reqs[i], first + i).id) in Collected(reqs, respond, first)
  {
    if i > 0 {
      assert reqs[1..][i - 1] == reqs[i];
      AcceptedRequestIsCollected(reqs[1..], respond, first + 1, i - 1);
    }
  }

  /** Every collected handle comes from a request the service accepted, and
      carries that request's trigger and the service's handle id. */
  lemma {:induction false} CollectedComesFromAccepted(reqs: seq<ScheduleRequest>, respond: (ScheduleRequest, nat) -> ScheduleOutcome,
                                                      first: nat, h: Notification)
    requires h in Collected(reqs, respond, first)
    ensures exists i :: 0 <= i < |reqs| && respond(reqs[i], first + i) == Scheduled(h.id) && h.date == reqs[i].trigger
  {
    if h in HandleOf(reqs[0], respond(reqs[0], first)) {
      assert respond(reqs[0], first + 0) == Scheduled(h.id);
    } else {
      CollectedComesFromAccepted(reqs[1..], respond, first + 1, h);
      var k :| 0 <= k < |reqs[1..]| && respond(reqs[1..][k], first + 1 + k) == Scheduled(h.id) && h.date == reqs[1..][k].trigger;
      assert reqs[k + 1] == reqs[1..][k];
    }
  }

  predicate DatesIncreasing(hs: seq<Notification>) {
    forall i, j :: 0 <= i < j < |hs| ==> hs[i].date < hs[j].date
  }

  /** Handles keep the order of the requests: with increasing triggers,
      the handle dates increase. */
  lemma {:induction false} CollectedInOrder(reqs: seq<ScheduleRequest>, respond: (ScheduleRequest, nat) -> ScheduleOutcome, first: nat)
    requires forall i, j :: 0 <= i < j < |reqs| ==> reqs[i].trigger < reqs[j].trigger
    ensures DatesIncreasing(Collected(reqs, respond, first))
  {
    if reqs != [] {
      var head := HandleOf(reqs[0], respond(reqs[0], first));
      var tail := Collected(reqs[1..], respond, first + 1);
      CollectedInOrder(reqs[1..], respond, first + 1);
      forall h | h in tail ensures reqs[0].trigger < h.date {
        CollectedComesFromAccepted(reqs[1..], respond, first + 1, h);
      }
      var hs := head + tail;
      forall i, j | 0 <= i < j < |hs| ensures hs[i].date < hs[j].date {
        if |head| == 1 && i == 0 {
          assert hs[j] == tail[j - 1] && tail[j - 1] in tail;
          assert respond(reqs[0], first).Scheduled?;
          assert hs[i] == head[0] && head[0].date == reqs[0].trigger;
        } else {
          assert hs[i] == tail[i - |head|] && hs[j] == tail[j - |head|];
        }
      }
    }
  }

  /** When the service accepts every request, every request yields a handle. */
  lemma {:induction false} AllAcceptedAllCollected(reqs: seq<ScheduleRequest>, respond: (ScheduleRequest, nat) -> ScheduleOutcome, first: nat)
    requires forall i :: 0 <= i < |reqs| ==> respond(reqs[i], first + i).Scheduled?
    ensures |Collected(reqs, respond, first)| == |reqs|
  {
    if reqs != [] {
      assert respond(reqs[0], first + 0).Scheduled?;
      forall k | 0 <= k < |reqs[1..]| ensures respond(reqs[1..][k], first + 1 + k).Scheduled? {
        assert reqs[1..][k] == reqs[k + 1];
      }
      AllAcceptedAllCollected(reqs[1..], respond, first + 1);
    }
  }

  /** The handle list of a submit: at most two, all strictly after `now`,
      the day-before one before the fifteen-minute one, each dated with the
      trigger it was scheduled with. That every accepted request yields
      one is `AcceptedRequestIsCollected` and `AllAcceptedAllCollected`. */
  lemma HandlesOfSchedule(c: Conversation, selectedContact: Option<Contact>, now: Minutes,
                          respond: (ScheduleRequest, nat) -> ScheduleOutcome, first: nat)
    ensures var hs := Collected(ReminderRequests(c, selectedContact, now), respond, first);
            && |hs| <= 2
            && (c.followUp.None? ==> hs == [])
            && (forall i :: 0 <= i < |hs| ==> hs[i].date > now)
            && DatesIncreasing(hs)
            && (forall i :: 0 <= i < |hs| ==>
                  hs[i].date == c.followUp.value.date - OneDay || hs[i].date == c.followUp.value.date - FifteenMinutes)
  {
    var reqs := ReminderRequests(c, selectedContact, now);
    CollectedInOrder(reqs, respond, first);
    var hs := Collected(reqs, respond, first);
    forall i | 0 <= i < |hs|
      ensures hs[i].date > now
      ensures hs[i].date == c.followUp.value.date - OneDay || hs[i].date == c.followUp.value.date - FifteenMinutes
    {
      CollectedComesFromAccepted(reqs, respond, first, hs[i]);
    }
  }

  /** A follow-up three days out, with a contact and a service that accepts
      every request, yields two handles; ten minutes out yields none. */
  lemma ThreeDaysAndTenMinutesOut(c: Conversation, contact: Contact, now: Minutes,
                                  respond: (ScheduleRequest, nat) -> ScheduleOutcome, first: nat)
    requires c.followUp.Some?
    requires forall q, n :: respond(q, n).Scheduled?
    ensures c.followUp.value.date == now + 3 * OneDay ==>
              |Collected(ReminderRequests(c, Some(contact), now), respond, first)| == 2
    ensures c.followUp.value.date == now + 10 ==>
              Collected(ReminderRequests(c, Some(contact), now), respond, first) == []
  {
    AllAcceptedAllCollected(ReminderRequests(c, Some(contact), now), respond, first);
  }

  /** A failed day-before request does not stop the fifteen-minute one:
      with a follow-up more than a day out, a service that fails the first
      call and accepts the second leaves exactly the fifteen-minute handle. */
  lemma DayBeforeFailureKeepsFifteenMinutes(c: Conversation, contact: Contact, now: Minutes,
                                            respond: (ScheduleRequest, nat) -> ScheduleOutcome, first: nat)
    requires c.followUp.Some? && c.followUp.value.date - now > OneDay
    requires var reqs := ReminderRequests(c, Some(contact), now);
             respond(reqs[0], first).Failed? && respond(reqs[1], first + 1).Scheduled?
    ensures var reqs := ReminderRequests(c, Some(contact), now);
            Collected(reqs, respond, first)
              == [Notification(c.followUp.value.date - FifteenMinutes, respond(reqs[1], first + 1).id)]
  {
    var reqs := ReminderRequests(c, Some(contact), now);
    assert reqs[1..][0] == reqs[1] && reqs[1..][1..] == [];
  }

  /** The external notification platform (`scheduleNotificationAsync`). Its
      answer to each call is fixed in advance by `respond`, which may be any
      function: a handle or a failure, per call. `attempts` records every
      request the app has made, in order. */
  class NotificationService {
    const respond: (ScheduleRequest, nat) -> ScheduleOutcome
    var attempts: seq<ScheduleRequest>

    constructor (respond: (ScheduleRequest, nat) -> ScheduleOutcome)
      ensures this.respond == respond && attempts == []
    {
      this.respond := respond;
      attempts := [];
    }

    method ScheduleNotification(req: ScheduleRequest) returns (outcome: ScheduleOutcome)
      modifies this
      ensures attempts == old(attempts) + [req]
      ensures outcome == respond(req, |old(attempts)|)
    {
      outcome := respond(req, |attempts|);
      attempts := attempts + [req];
    }
  }

  /** The request one guarded step makes: none when the candidate is not
      after `now` or no contact is selected. */
  function DueRequest(kind: ReminderKind, f: FollowUp, selectedContact: Option<Contact>, now: Minutes): seq<ScheduleRequest> {
    if Trigger(kind, f.date) > now && selectedContact.Some?
    then RequestsFor([kind], selectedContact.value.name, f) else []
  }

  /** The requests of `scheduleNotifications` are those of its two guarded
      steps, day-before first. */
  lemma ReminderRequestsSplit(c: Conversation, selectedContact: Option<Contact>, now: Minutes)
    requires c.followUp.Some?
    ensures ReminderRequests(c, selectedContact, now)
            == DueRequest(DayBefore, c.followUp.value, selectedContact, now)
               + DueRequest(FifteenMinutesBefore, c.followUp.value, selectedContact, now)
  {
    var f := c.followUp.value;
    if selectedContact.Some? {
      var dayKinds := if Trigger(DayBefore, f.date) > now then [DayBefore] else [];
      var minuteKinds := if Trigger(FifteenMinutesBefore, f.date) > now then [FifteenMinutesBefore] else [];
      RequestsForAppend(dayKinds, minuteKinds, selectedContact.value.name, f);
      assert DueReminders(f.date, now) == dayKinds + minuteKinds;
    }
  }

  /** One guarded step of `scheduleNotifications`: if the candidate is due,
      ask the service and push the handle on success; a missing contact or
      a failed call is caught and skipped. */
  method ScheduleIfDue(kind: ReminderKind, f: FollowUp, selectedContact: Option<Contact>, now: Minutes,
                       svc: NotificationService, notifications: seq<Notification>)
    returns (after: seq<Notification>)
    modifies svc
    ensures svc.attempts == old(svc.attempts) + DueRequest(kind, f, selectedContact, now)
    ensures after == notifications + Collected(DueRequest(kind, f, selectedContact, now), svc.respond, |old(svc.attempts)|)
  {
    after := notifications;
    var trigger := Trigger(kind, f.date);
    if trigger > now {
      match selectedContact
      case None =>
        // `selectedContact!.name` throws a TypeError; the catch logs it.
      case Some(contact) =>
        var req := ScheduleRequest(Content(kind, contact.name, f), trigger);
        var outcome := svc.ScheduleNotification(req);
        match outcome
        case Scheduled(id) =>
          after := after + [Notification(trigger, id)];
        case Failed =>
          // logged with console.error
      assert RequestsFor([kind], contact.name, f) == [req];
    }
  }

  /** `scheduleNotifications`: the day-before then the fifteen-minute
      candidate, each requested only when strictly after `now`; the handles
      the service returns are collected in that order. */
  method ScheduleNotifications(c: Conversation, selectedContact: Option<Contact>, now: Minutes, svc: NotificationService)
    returns (notifications: seq<Notification>)
    modifies svc
    ensures svc.attempts == old(svc.attempts) + ReminderRequests(c, selectedContact, now)
    ensures notifications == Collected(ReminderRequests(c, selectedContact, now), svc.respond, |old(svc.attempts)|)
  {
    if c.followUp.None? {
      return [];
    }
    var f := c.followUp.value;
    ghost var start := |svc.attempts|;
    ghost var dayReqs := DueRequest(DayBefore, f, selectedContact, now);
    ghost var minuteReqs := DueRequest(FifteenMinutesBefore, f, selectedContact, now);
    notifications := [];
    notifications := ScheduleIfDue(DayBefore, f, selectedContact, now, svc, notifications);
    notifications := ScheduleIfDue(FifteenMinutesBefore, f, selectedContact, now, svc, notifications);
    assert svc.attempts == old(svc.attempts) + (dayReqs + minuteReqs);
    CollectedAppend(dayReqs, minuteReqs, svc.respond, start);
    assert notifications == Collected(dayReqs + minuteReqs, svc.respond, start);
    ReminderRequestsSplit(c, selectedContact, now);
  }

  lemma {:induction false} CollectedAppend(a: seq<ScheduleRequest>, b: seq<ScheduleRequest>,
                                           respond: (ScheduleRequest, nat) -> ScheduleOutcome, first: nat)
    ensures Collected(a + b, respond, first) == Collected(a, respond, first) + Collected(b, respond, first + |a|)
  {
    if a != [] {
      assert (a + b)[0] == a[0];
      assert (a + b)[1..] == a[1..] + b;
      CollectedAppend(a[1..], b, respond, first + 1);
      var head := HandleOf(a[0], respond(a[0], first));
      assert Collected(a, respond, first) == head + Collected(a[1..], respond, first + 1);
      calc {
        Collected(a + b, respond, first);
        head + Collected(a[1..] + b, respond, first + 1);
        head + (Collected(a[1..], respond, first + 1) + Collected(b, respond, first + 1 + |a[1..]|));
        (head + Collected(a[1..], respond, first + 1)) + Collected(b, respond, first + |a|);
      }
    } else {
      assert a + b == b;
    }
  }

  lemma RequestsForAppend(a: seq<ReminderKind>, b: seq<ReminderKind>, contactName: string, f: FollowUp)
    ensures RequestsFor(a + b, contactName, f) == RequestsFor(a, contactName, f) + RequestsFor(b, contactName, f)
  {
  }

  // ---------------------------------------------------------------------
  // Submit

  /** The record with the collected handles attached to its follow-up. */
  function WithNotifications(c: Conversation, notifications: seq<Notification>): (r: Conversation)
    requires c.followUp.Some?
    ensures r.followUp.Some? && r.followUp.value.notifications == Some(notifications)
    ensures r.followUp.value.(notifications := c.followUp.value.notifications) == c.followUp.value
    ensures r.(followUp := c.followUp) == c
  {
    c.(followUp := Some(c.followUp.value.(notifications := Some(notifications))))
  }

  /** What the conversation store was handed by `addConversation`; the
      store's own persistence is not part of this model. */
  class ConversationStore {
    var added: seq<Conversation>

    constructor ()
      ensures added == []
    {
      added := [];
    }

    method AddConversation(c: Conversation)
      modifies this
      ensures added == old(added) + [c]
    {
      added := added + [c];
    }
  }

  /** How `submit`'s promise resolves: `false`, or the conversation as edited. */
  datatype SubmitOutcome = Rejected | Resolved(conversation: Conversation)

  /** `submit`: validation first; a failure resolves `false` with nothing
      saved and nothing scheduled. With `followUp.notifyMe` set and
      permission granted, the reminders are scheduled and the record is
      saved with their handles; otherwise it is saved exactly as edited.
      Either way the promise resolves with the record as edited, without
      the handles. */
  method Submit(c: Conversation, selectedContact: Option<Contact>, notificationsAllowed: bool, now: Minutes,
                store: ConversationStore, svc: NotificationService)
    returns (outcome: SubmitOutcome, contactError: ContactError)
    modifies store, svc
    ensures contactError == Validate(c).contactError
    ensures !Validate(c).passed ==>
              outcome == Rejected && store.added == old(store.added) && svc.attempts == old(svc.attempts)
    ensures Validate(c).passed ==> outcome == Resolved(c)
    ensures Validate(c).passed && !(c.followUp.Some? && c.followUp.value.notifyMe && notificationsAllowed) ==>
              store.added == old(store.added) + [c] && svc.attempts == old(svc.attempts)
    ensures Validate(c).passed && c.followUp.Some? && c.followUp.value.notifyMe && notificationsAllowed ==>
              var reqs := ReminderRequests(c, selectedContact, now);
              && svc.attempts == old(svc.attempts) + reqs
              && store.added == old(store.added) + [WithNotifications(c, Collected(reqs, svc.respond, |old(svc.attempts)|))]
  {
    var validation := Validate(c);
    contactError := validation.contactError;
    if !validation.passed {
      return Rejected, contactError;
    }
    if c.followUp.Some? && c.followUp.value.notifyMe && notificationsAllowed {
      var notifications := ScheduleNotifications(c, selectedContact, now, svc);
      store.AddConversation(WithNotifications(c, notifications));
    } else {
      store.AddConversation(c);
    }
    outcome := Resolved(c);
  }
}
