/** The dashboard's approaching-conversations card. */
module Home {
  import opened Types
  import opened Sequences

  /** `c.followUp?.notifyMe || c.followUp?.topic`: a follow-up that asks
      for a reminder or has a non-empty topic; no follow-up, no keep. */
  predicate NotifiesOrHasTopic(c: Conversation) {
    c.followUp.Some? && (c.followUp.value.notifyMe || NonEmpty(c.followUp.value.topic))
  }

  /** `conversationsWithNotificationOrTopic`: the approaching conversations
      that notify or have a topic, in their original order. */
  function ConversationsWithNotificationOrTopic(approaching: seq<Conversation>): (r: seq<Conversation>)
    ensures forall c :: c in r <==> c in approaching && NotifiesOrHasTopic(c)
    ensures forall c :: c in approaching && c.followUp.None? ==> c !in r
    ensures IsSubsequence(r, approaching)
    ensures forall c :: multiset(r)[c] == if NotifiesOrHasTopic(c) then multiset(approaching)[c] else 0
  {
    FilterMultiset(approaching, NotifiesOrHasTopic);
    FilterMembership(approaching, NotifiesOrHasTopic);
    FilterIsSubsequence(approaching, NotifiesOrHasTopic);
    Filter(approaching, NotifiesOrHasTopic)
  }

  /** `upcomingFollowUpConversations`, which is not part of this model:
      the conversations whose follow-up falls within the next
      `withinNextDays` days of `currentTime`. */
  type UpcomingQuery = (Minutes, seq<Conversation>, int) -> seq<Conversation>

  /** The card renders exactly when the filtered list is non-empty, and
      then shows that list. */
  function ApproachingCard(conversations: seq<Conversation>, now: Minutes, upcoming: UpcomingQuery): (card: Option<seq<Conversation>>)
    ensures card.Some? <==> exists c :: c in upcoming(now, conversations, 1) && NotifiesOrHasTopic(c)
    ensures card.Some? ==> card.value == ConversationsWithNotificationOrTopic(upcoming(now, conversations, 1))
                           && card.value != []
  {
    var shown := ConversationsWithNotificationOrTopic(upcoming(now, conversations, 1));
    if |shown| != 0 then
      assert shown[0] in shown;
      Some(shown)
    else
      assert forall c :: c in upcoming(now, conversations, 1) ==> !NotifiesOrHasTopic(c);
      None
  }
}
