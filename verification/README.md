# witness-work: conversation reminders, contact history and report rows

This project models the logic inside the screens of a field-ministry
companion app. A publisher logs conversations with contacts and records
monthly service time. The model covers:

- **Conversation form** (`conversation_form.dfy`). This is the main part:
  - the record the form edits and its setters;
  - `validate`, which blocks saving when the record has no contact id;
  - `scheduleNotifications`, which derives a day-before and a
    fifteen-minute-before reminder from the follow-up date. It asks the
    notification platform only for reminders strictly after "now", and
    collects the handles the platform returns, in order;
  - `submit`, which saves the record. It attaches the handles only when
    `notifyMe` is set and notification permission was granted.
- **Contact details** (`contact_details.dfy`):
  - the contact's conversation history, filtered by contact id and sorted
    newest first, in place;
  - the address as one line (the accumulator `reduce`) and as a maps query;
  - which detail rows show;
  - the Hero's study status;
  - the fallback when no contact matches the id.
- **Time report row** (`time_report_row.dfy`): the category line (LDC
  before tag, digging icon, credit badge) and the confirm-then-delete swipe.
- **Month calendar** (`month_time_reports_calendar.dfy`): the loop that
  builds the day-key to mark dictionary.
- **Dashboard** (`home.dfy`): the filter that keeps approaching
  conversations that notify or have a topic, and when the card shows.
- **Month summary** (`month_summary.dfy`): the 0/`null` pass-through when
  there are no reports.

Shared records and the `find` by id are in `types.dfy`. The generic
`filter` and its guarantees are in `sequences.dfy`.

Time is a whole number of minutes, and a day is 1440 minutes. "Now" is a
parameter. The notification platform is a class whose answer to each call
(a handle or a failure) is fixed by an arbitrary function `respond` of the
request and the call's position. It also keeps a log of every request made.
The stores record what `addConversation` and `deleteServiceReport` were
handed.

Library functions whose code is not part of this model are parameters with
no body:
- the month aggregations (`totalHoursForSpecificMonth` and the others);
- the three study queries (`contactHasAtLeastOneStudy`,
  `contactMostRecentStudy`, `contactStudiedForGivenMonth`);
- `upcomingFollowUpConversations`;
- the calendar's day-key formatting.

Some behaviour follows the code rather than the general design of the app:
- The form captures `conversation.contact.id` once, when the form is
  created. Assigning or unassigning a contact later changes
  `selectedContact` but not that id. `validate` checks the captured id.
- No code path cancels or reschedules reminders. Every submit saves a new
  record.
- `submit` resolves with the record as edited, without the handles, even
  when the saved record carries them.
- If `selectedContact` is missing, building the reminder text throws inside
  the `try`. That reminder is then skipped without any request, and the
  record is still saved.
- With no contact, the history filter compares with `undefined`. It then
  matches the conversations that have no contact assigned.
- The credit badge sits inside the category line. A credit report with
  neither LDC nor a tag shows no badge.

## Model

| member | source | states |
|---|---|---|
| `Types.FindContact` | src/screens/ContactDetails.tsx:552-555 | the result is the first contact of the list carrying the searched id; none exactly when no contact has that id (an absent id matches none) |
| `Sequences.Filter` | src/screens/Home.tsx:33-35 | the result is no longer than the input and holds only input elements that satisfy the predicate |
| `Sequences.FilterMembership` | src/screens/Home.tsx:33-35 | an element is kept if and only if it is in the input and satisfies the predicate |
| `Sequences.FilterIsSubsequence` | src/screens/Home.tsx:33-35 | the filter only deletes elements and keeps the relative order of the rest |
| `Sequences.FilterMultiset` | src/screens/ContactDetails.tsx:563-566 | each kept element appears as often as in the input; rejected ones do not appear |
| `ConversationForm.AssignedContactId` | src/screens/ConversationForm.tsx:119 | `??` falls back to the route id only when no id was selected; an unassigned `""` stays |
| `ConversationForm.NewConversation` | src/screens/ConversationForm.tsx:124-137 | a new record carries the generated id, an empty note, the contact id assigned at creation, the current date, no Bible study, and an empty follow-up at the same date with `notifyMe` off |
| `ConversationForm.NewFormValidation` | src/screens/ConversationForm.tsx:124-137 | a new form passes validation exactly when the id assigned at creation is present and non-empty; `notifyMe` starts off |
| `ConversationForm.SetNotifyMe` | src/screens/ConversationForm.tsx:138-146 | sets `followUp.notifyMe` and changes nothing else in the record |
| `ConversationForm.HandleDateChange` | src/screens/ConversationForm.tsx:161-169 | no date leaves the record unchanged; otherwise only `date` changes |
| `ConversationForm.HandleFollowUpDateChange` | src/screens/ConversationForm.tsx:171-185 | no date or no follow-up leaves the record unchanged; presence of the follow-up is kept; otherwise only `followUp.date` changes |
| `ConversationForm.SetTopic` | src/screens/ConversationForm.tsx:482-489 | only `followUp.topic` changes; an absent follow-up stays absent |
| `ConversationForm.FollowUpStaysPresent` | src/screens/ConversationForm.tsx:131-185 | no setter removes the follow-up, so the `followUp!` assertions hold for every record the form reaches |
| `ConversationForm.Validate` | src/screens/ConversationForm.tsx:187-196 | fails exactly when the contact id is absent or empty, then sets the contact error; otherwise clears it |
| `ConversationForm.DueReminders` | src/screens/ConversationForm.tsx:212-250 | a candidate is kept iff its trigger is strictly after now; ≤15 min out gives none, 15 min–1 day gives only the 15-minute one, over a day gives both, day-before first |
| `ConversationForm.ReminderRequests` | src/screens/ConversationForm.tsx:205-276 | with a follow-up and a selected contact, one request per due reminder, day-before first, with that reminder's trigger and body (contact name, follow-up, topic); none without either; at most two, all strictly after now and increasing |
| `ConversationForm.AcceptedRequestIsCollected` | src/screens/ConversationForm.tsx:216-276 | an accepted request yields its handle, dated with its trigger, whatever the other request's outcome |
| `ConversationForm.CollectedComesFromAccepted` | src/screens/ConversationForm.tsx:232-240 | every collected handle comes from an accepted request and carries its trigger and the returned id |
| `ConversationForm.CollectedInOrder` | src/screens/ConversationForm.tsx:237-269 | handles are pushed in request order, so their dates increase |
| `ConversationForm.AllAcceptedAllCollected` | src/screens/ConversationForm.tsx:210-278 | when the platform accepts every request, there is one handle per request |
| `ConversationForm.HandlesOfSchedule` | src/screens/ConversationForm.tsx:205-278 | the handle list has at most two entries, empty without a follow-up; each is strictly after now, dated D−1 day or D−15 min; day-before first |
| `ConversationForm.ThreeDaysAndTenMinutesOut` | src/screens/ConversationForm.tsx:212-250 | three days out gives two handles when the platform accepts; ten minutes out gives none |
| `ConversationForm.DayBeforeFailureKeepsFifteenMinutes` | src/screens/ConversationForm.tsx:241-275 | a failed day-before call is caught and the fifteen-minute reminder is still requested and kept |
| `ConversationForm.NotificationService.ScheduleNotification` | src/screens/ConversationForm.tsx:218-235 | each call is logged in order and answered by the platform's response for that call |
| `ConversationForm.ScheduleIfDue` | src/screens/ConversationForm.tsx:212-244 | one guarded step: a request only when the trigger is after now and a contact is selected; a handle pushed only on success |
| `ConversationForm.ScheduleNotifications` | src/screens/ConversationForm.tsx:205-279 | the platform receives exactly the due requests in order; the result is the handles collected from its answers |
| `ConversationForm.WithNotifications` | src/screens/ConversationForm.tsx:284-290 | the saved record differs from the edited one only in `followUp.notifications` |
| `ConversationForm.ConversationStore.AddConversation` | src/screens/ConversationForm.tsx:291 | the record handed to the store is appended to what it has received |
| `ConversationForm.Submit` | src/screens/ConversationForm.tsx:198-302 | failed validation: resolves false, nothing saved or requested; without `notifyMe` and permission: saves the record as edited, requests nothing; with both: requests the due reminders and saves the record with their handles; resolves with the edited record |
| `ContactDetails.ContactConversations` | src/screens/ContactDetails.tsx:563-566 | keeps exactly the conversations whose contact id equals the viewed contact's id, every copy of each, in order |
| `ContactDetails.Compare` | src/screens/ContactDetails.tsx:570-572 | answers 1 exactly when a is older than b, and −1 otherwise; never 0, even for equal dates |
| `ContactDetails.SortNewestFirst` | src/screens/ContactDetails.tsx:568-573 | after the in-place sort the array is a permutation of its old contents with non-increasing dates |
| `ContactDetails.InsertNewestFirst` | src/screens/ContactDetails.tsx:570-572 | inserting one element into a newest-first prefix extends the prefix by one and permutes the array |
| `ContactDetails.ContactHistory` | src/screens/ContactDetails.tsx:563-573 | the history is a fresh array, newest first, holding exactly the filtered conversations |
| `ContactDetails.AddressAsSingleString` | src/screens/ContactDetails.tsx:258-266 | the reduce gives the first field as is, then each later non-empty field after one space |
| `ContactDetails.JoinedAddressStep` | src/screens/ContactDetails.tsx:259-264 | one reduce step appends nothing for an empty field, otherwise the field with a space unless it is the first key |
| `ContactDetails.JoinedAddressEmpty` | src/screens/ContactDetails.tsx:258-266 | the single string is empty exactly when every field is empty |
| `ContactDetails.LeadingSpaceWhenFirstEmpty` | src/screens/ContactDetails.tsx:262 | with the first key empty and a later field set, the string starts with a space |
| `ContactDetails.HasAddress` | src/screens/ContactDetails.tsx:671 | true exactly when an address exists with a non-empty field, i.e. when its single string is non-empty |
| `ContactDetails.MapsQuery` | src/screens/ContactDetails.tsx:241-243 | all five parts appear in order at fixed offsets, empty or not, separated by space, space, comma-space, space |
| `ContactDetails.NavigateUrl` | src/screens/ContactDetails.tsx:236-252 | iOS uses the `maps://` scheme and Android `geo:`; any other platform opens nothing |
| `ContactDetails.Rows` | src/screens/ContactDetails.tsx:706-711 | address row iff `hasAddress`; phone and email rows iff present and non-empty; "no personal information" iff none of the three |
| `ContactDetails.ContactEngagement` | src/screens/ContactDetails.tsx:631-657 | with no contact: not active, not studied, no recent study; otherwise the queries' answers |
| `ContactDetails.Hero` | src/screens/ContactDetails.tsx:196-227 | status line iff studied before and a recent study exists: "is studying" when active, else "last studied" with its date; inactive notice iff not active and studied before |
| `ContactDetails.InactiveNoticeMeansLastStudied` | src/screens/ContactDetails.tsx:196-227 | the inactive notice never shows beside "is studying"; with a recent study it shows beside "last studied" and that study's date |
| `ContactDetails.ContactDetailsScreen` | src/screens/ContactDetails.tsx:552-667 | the not-found view, with the id, exactly when no contact has the id; otherwise the first such contact's name, its Hero from the study queries, and its rows |
| `TimeReportRow.Category` | src/components/TimeReportRow.tsx:129-147 | the line shows iff LDC or a non-empty tag; icon iff LDC; label LDC when LDC, else the tag; badge iff credit or LDC |
| `TimeReportRow.LdcWinsAndBadgeNeedsLine` | src/components/TimeReportRow.tsx:129-150 | LDC wins over a stray tag; the badge shows iff LDC, or credit with a non-empty tag |
| `TimeReportRow.HandleSwipeOpen` | src/components/TimeReportRow.tsx:31-64 | a left swipe does nothing; cancel only resets; confirm resets, toasts once and deletes exactly this report |
| `MonthTimeReportsCalendar.MarkedDates` | src/components/MonthTimeReportsCalendar.tsx:21-34 | a null list gives no marks; otherwise exactly the reports' day keys, each with `marked` and the accent dot |
| `MonthTimeReportsCalendar.MarksAreReportDays` | src/components/MonthTimeReportsCalendar.tsx:28-31 | every report's day is marked with the accent dot, and every marked day belongs to a report |
| `MonthTimeReportsCalendar.MarksIgnoreOrderAndRepeats` | src/components/MonthTimeReportsCalendar.tsx:28-31 | the marks do not depend on report order or on repeated days |
| `MonthTimeReportsCalendar.AtMostOneMarkPerReport` | src/components/MonthTimeReportsCalendar.tsx:26-33 | there are never more marked days than reports |
| `Home.ConversationsWithNotificationOrTopic` | src/screens/Home.tsx:33-35 | keeps a conversation iff its follow-up notifies or has a non-empty topic, every copy of it; drops those with no follow-up; keeps the order |
| `Home.ApproachingCard` | src/screens/Home.tsx:23-53 | the card renders iff some upcoming conversation passes the filter, and then shows the non-empty filtered list |
| `MonthSummary.MonthFigures` | src/components/MonthSummary.tsx:45-73 | with no reports: zero hours and no other categories; otherwise the aggregations' answers for the month |

## Left out

- Rendering, layout, navigation, the stacks, `CardWithTitle`, `SearchBar`, `ContactRow` and `app.config.ts` carry no logic to model.
- The aggregation functions, the study queries and `upcomingFollowUpConversations` are not part of this model. They are parameters, and no property of theirs is assumed.
- `Submit`: the `.catch` branch of the scheduling promise is not modelled. Every call that can throw inside `scheduleNotifications` sits in a `try`, so that promise cannot reject, and after a passed validation `submit` always resolves with the record. The `.catch` would also catch a throw from `addConversation`; the model assumes the store does not throw.
- Dates are whole minutes and a day is 1440 minutes. Local-time and daylight-saving arithmetic of moment is not modelled. The calendar's `YYYY-MM-DD` key is an injected function of the date.
- `AddressAsSingleString`: `Object.keys` order is taken to be `line1, line2, city, state, zip`. An address value that is `undefined` in memory is not modelled (the `?.length` check would skip it, and `hasAddress` can throw on it when no earlier field is non-empty).
- `SortNewestFirst`: on equal dates the comparator answers −1 both ways, so it is not consistent, and the language then leaves the whole sort order implementation-defined. The model proves non-increasing dates and the permutation, which is what the engines' sorts deliver for this comparator but not a guarantee of the language. It does not fix any order for ties.
- The text of notifications, alerts, toasts and the `i18n` messages is opaque. The model keeps only what the reminder body interpolates: the contact name, the follow-up time and the topic.
- Notification permission, `Crypto.randomUUID`, `Linking.openURL`, the phone row (`parsePhoneNumber`) and `console.error` logging are outside this model. Permission and the new record's id are parameters.
- The stores' persistence is not modelled. `addConversation` and `deleteServiceReport` are modelled by what they were handed.
- React state, memoisation and promise sequencing are modelled as sequential calls.
- `ScheduleNotifications`: the source reads the clock twice, once before each reminder, with an `await` in between. The model uses one `now` for both checks, so it does not capture a clock that moves between them.
- The other form inputs (note, Bible-study checkbox) are plain field replacements and are not modelled separately.
