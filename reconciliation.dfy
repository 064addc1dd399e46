/**
  The per-user subscription reconciliation of a discussion move: the three
  subscription answers read for each potential subscriber, the decision taken
  from them, and the plan of per-discussion rows built from those decisions.
 */
module Reconciliation {
  import opened Wrappers
  import opened ForumRecords

  /**
    The three answers of the subscription lookup for one user, all read
    before anything is moved:
    forumSubscribed      - subscribed to the source forum;
    discussionSubscribed - subscribed to this discussion in the source forum;
    targetSubscribed     - subscribed to the destination forum.
   */
  datatype Signals = Signals(forumSubscribed: bool, discussionSubscribed: bool, targetSubscribed: bool)

  /** The subscription lookup: (user, forum, optional discussion) -> subscribed? */
  type SubscriptionLookup = (UserId, ForumId, Option<DiscussionId>) -> bool

  function SignalsFor(isSubscribed: SubscriptionLookup, user: UserId,
                      source: ForumId, discussion: DiscussionId, target: ForumId): Signals
  {
    Signals(isSubscribed(user, source, None),
            isSubscribed(user, source, Some(discussion)),
            isSubscribed(user, target, None))
  }

  /**
    The decision for one user. Exactly two of the eight combinations record a
    change: a user subscribed to both forums who opted out of this discussion
    keeps the opt-out, and a user subscribed to neither forum who opted in
    keeps the opt-in, stamped with the shared subscription time. Every other
    combination records nothing.
   */
  function Decide(s: Signals, subscriptionTime: int): (r: Option<Preference>)
    ensures r == Some(Unsubscribed) <==>
              s.forumSubscribed && !s.discussionSubscribed && s.targetSubscribed
    ensures r == Some(SubscribedAt(subscriptionTime)) <==>
              !s.forumSubscribed && s.discussionSubscribed && !s.targetSubscribed
    ensures r == None || r == Some(Unsubscribed) || r == Some(SubscribedAt(subscriptionTime))
  {
    if s.forumSubscribed && !s.discussionSubscribed && s.targetSubscribed then
      Some(Unsubscribed)
    else if !s.forumSubscribed && s.discussionSubscribed && !s.targetSubscribed then
      Some(SubscribedAt(subscriptionTime))
    else
      None
  }

  /**
    Whether the replay writes a planned preference: an opt-out always, an
    opt-in only for a user who may view discussions in the destination.
   */
  predicate IsReplayed(p: Preference, canView: bool) {
    p == Unsubscribed || canView
  }

  /** The per-discussion row the user holds after the replay, if any. */
  function RowAfterReplay(planned: Option<Preference>, canView: bool): Option<Preference> {
    if planned.Some? && IsReplayed(planned.value, canView) then planned else None
  }

  /**
    Whether the user receives the discussion in its new forum: an explicit
    per-discussion row decides, otherwise the destination forum's answer.
   */
  function StatusAfterMove(targetSubscribed: bool, row: Option<Preference>): bool {
    match row
    case Some(Unsubscribed) => false
    case Some(SubscribedAt(_)) => true
    case None => targetSubscribed
  }

  /**
    A per-discussion choice that differs from the user's forum-level answer
    survives the move: an opt-out is kept, and an opt-in is kept unless the
    destination forum would drop it and the user may not view discussions there.
   */
  lemma ExplicitChoiceSurvivesMove(s: Signals, subscriptionTime: int, canView: bool)
    requires s.forumSubscribed != s.discussionSubscribed
    ensures StatusAfterMove(s.targetSubscribed, RowAfterReplay(Decide(s, subscriptionTime), canView))
            == (s.discussionSubscribed && (s.targetSubscribed || canView))
  {
  }

  /** A user whose discussion answer is the forum answer follows the destination forum. */
  lemma InheritedChoiceFollowsTarget(s: Signals, subscriptionTime: int, canView: bool)
    requires s.forumSubscribed == s.discussionSubscribed
    ensures StatusAfterMove(s.targetSubscribed, RowAfterReplay(Decide(s, subscriptionTime), canView))
            == s.targetSubscribed
  {
  }

  /**
    The plan: each potential subscriber whose decision is a change, mapped to
    the planned preference.
   */
  function PlannedChanges(users: seq<UserId>, isSubscribed: SubscriptionLookup,
                          source: ForumId, discussion: DiscussionId, target: ForumId,
                          subscriptionTime: int): (plan: map<UserId, Preference>)
    ensures forall u :: u in plan <==>
              u in users && Decide(SignalsFor(isSubscribed, u, source, discussion, target), subscriptionTime).Some?
    ensures forall u :: u in plan ==>
              (plan[u] == Unsubscribed <==>
                 var s := SignalsFor(isSubscribed, u, source, discussion, target);
                 s.forumSubscribed && !s.discussionSubscribed && s.targetSubscribed)
    ensures forall u :: u in plan && plan[u].SubscribedAt? ==> plan[u].time == subscriptionTime
  {
    map u | u in users && Decide(SignalsFor(isSubscribed, u, source, discussion, target), subscriptionTime).Some?
      :: Decide(SignalsFor(isSubscribed, u, source, discussion, target), subscriptionTime).value
  }

  /**
    Builds the plan by visiting the potential subscribers in order, reading
    each user's three answers and recording the decision when it is a change.
   */
  method BuildPlan(users: seq<UserId>, isSubscribed: SubscriptionLookup,
                   source: ForumId, discussion: DiscussionId, target: ForumId,
                   subscriptionTime: int) returns (plan: map<UserId, Preference>)
    ensures plan == PlannedChanges(users, isSubscribed, source, discussion, target, subscriptionTime)
  {
    plan := map[];
    var i := 0;
    while i < |users|
      invariant 0 <= i <= |users|
      invariant plan == PlannedChanges(users[..i], isSubscribed, source, discussion, target, subscriptionTime)
    {
      var user := users[i];
      var targetSubscription := isSubscribed(user, target, None);
      var discussionSubscribed := isSubscribed(user, source, Some(discussion));
      var forumSubscribed := isSubscribed(user, source, None);
      var change := Decide(Signals(forumSubscribed, discussionSubscribed, targetSubscription), subscriptionTime);
      if change.Some? {
        plan := plan[user := change.value];
      }
      assert users[..i + 1] == users[..i] + [user];
      i := i + 1;
    }
    assert users[..i] == users;
  }
}
