/**
  Moving a discussion to another forum: the guards that must all pass before
  anything is written, the relocation of the discussion and its read-tracking
  rows, and the replacement of its per-discussion subscription rows by the
  reconciliation plan.
 */
module MoveDiscussion {
  import opened Wrappers
  import opened ForumRecords
  import opened Reconciliation

  datatype Capability = ViewDiscussion | MoveDiscussions | StartDiscussion

  /** The context of a course module, where capabilities are checked. */
  datatype Context = ModuleContext(cm: CmId)

  /** A forum's course module as the course lists it for the calling user. */
  datatype CourseModule = CourseModule(id: CmId, userVisible: bool)

  /**
    What the move reads from outside the record store:
    sourceCm         - the course module of the discussion's forum;
    courseForums     - the course's forum instances, by forum id;
    hasCapability    - the capability test (capability, context, user);
    subscribedUsers  - the potential subscribers of a forum within a group;
    isSubscribed     - the subscription lookup (user, forum, optional discussion);
    attachmentsMoved - whether relocating the attachment files succeeded;
    now              - the clock reading taken once before the plan is built.
   */
  datatype Env = Env(
    sourceCm: CmId,
    courseForums: map<ForumId, CourseModule>,
    hasCapability: (Capability, Context, UserId) -> bool,
    subscribedUsers: (ForumId, int) -> seq<UserId>,
    isSubscribed: SubscriptionLookup,
    attachmentsMoved: bool,
    now: int)

  /** The request parameters: discussion `d`, target forum `move`, the caller and the session key check. */
  datatype MoveRequest = MoveRequest(discussion: DiscussionId, move: ForumId, caller: UserId, sesskeyConfirmed: bool)

  datatype MoveError =
    | CannotMoveToNotExist
    | MissingCapability(capability: Capability)
    | CannotMoveFromSingleForum
    | CannotMoveToSingleForum
    | CannotMoveToNotFound
    | CannotMoveNotVisible

  datatype MoveOutcome =
    | NotRequested
    | Rejected(error: MoveError)
    | Moved(forum: ForumId, attachmentWarning: bool)

  /** The caller may move discussions out of the source forum's context. */
  predicate CanMove(env: Env, caller: UserId) {
    env.hasCapability(MoveDiscussions, ModuleContext(env.sourceCm), caller)
  }

  /** The guards up to the forum-type checks pass: the target exists, the caller may move, neither forum is `single`. */
  predicate PassesTypeGuards(forums: map<ForumId, Forum>, env: Env, caller: UserId, source: Forum, target: ForumId) {
    target in forums && CanMove(env, caller) && !IsSingle(source) && !IsSingle(forums[target])
  }

  /** Every condition the move demands of the target and the caller, all at once. */
  predicate MovePermitted(forums: map<ForumId, Forum>, env: Env, caller: UserId, source: Forum, target: ForumId) {
    && PassesTypeGuards(forums, env, caller, source, target)
    && target in env.courseForums
    && env.courseForums[target].userVisible
    && env.hasCapability(StartDiscussion, ModuleContext(env.courseForums[target].id), caller)
  }

  /**
    The guards, in the order the page checks them; the first that fails
    decides the error. On success the result is the target's course module.
   */
  function CheckMove(forums: map<ForumId, Forum>, env: Env, caller: UserId, source: Forum, target: ForumId)
    : (r: Result<CourseModule, MoveError>)
    ensures r.Ok? <==> MovePermitted(forums, env, caller, source, target)
    ensures r.Ok? ==> target in env.courseForums && r.value == env.courseForums[target]
    // Each guard decides the error exactly when every guard before it passed.
    ensures r == Err(CannotMoveToNotExist) <==> target !in forums
    ensures target in forums && !CanMove(env, caller) ==> r == Err(MissingCapability(MoveDiscussions))
    ensures target in forums && CanMove(env, caller) && IsSingle(source) ==> r == Err(CannotMoveFromSingleForum)
    ensures target in forums && CanMove(env, caller) && !IsSingle(source) && IsSingle(forums[target])
            ==> r == Err(CannotMoveToSingleForum)
    ensures r == Err(CannotMoveToNotFound) <==>
              PassesTypeGuards(forums, env, caller, source, target) && target !in env.courseForums
    ensures r == Err(CannotMoveNotVisible) <==>
              PassesTypeGuards(forums, env, caller, source, target) && target in env.courseForums
              && !env.courseForums[target].userVisible
    ensures PassesTypeGuards(forums, env, caller, source, target) && target in env.courseForums
            && env.courseForums[target].userVisible
            && !env.hasCapability(StartDiscussion, ModuleContext(env.courseForums[target].id), caller)
            ==> r == Err(MissingCapability(StartDiscussion))
  {
    if target !in forums then Err(CannotMoveToNotExist)
    else if !CanMove(env, caller) then Err(MissingCapability(MoveDiscussions))
    else if IsSingle(source) then Err(CannotMoveFromSingleForum)
    else if IsSingle(forums[target]) then Err(CannotMoveToSingleForum)
    else if target !in env.courseForums then Err(CannotMoveToNotFound)
    else if !env.courseForums[target].userVisible then Err(CannotMoveNotVisible)
    else if !env.hasCapability(StartDiscussion, ModuleContext(env.courseForums[target].id), caller) then
      Err(MissingCapability(StartDiscussion))
    else Ok(env.courseForums[target])
  }

  /**
    The group used to enumerate potential subscribers: the "all groups"
    sentinel -1 becomes 0, any other group passes through.
   */
  function SubscriberGroup(groupId: int): (g: int)
    ensures g != -1
    ensures groupId != -1 ==> g == groupId
    ensures g == 0 <==> groupId == -1 || groupId == 0
  {
    if groupId == -1 then 0 else groupId
  }

  /** Every read-tracking row of discussion `d` takes forum `target`; the other rows keep theirs. */
  function RelocatedReads(rows: map<ReadRowId, ReadRow>, d: DiscussionId, target: ForumId)
    : (r: map<ReadRowId, ReadRow>)
    ensures r.Keys == rows.Keys
    ensures forall id :: id in r && r[id].discussion == d ==> r[id].forum == target
    ensures forall id :: id in rows && rows[id].discussion != d ==> r[id] == rows[id]
    ensures forall id :: id in rows ==> r[id] == rows[id].(forum := r[id].forum)
  {
    map id | id in rows :: if rows[id].discussion == d then rows[id].(forum := target) else rows[id]
  }

  /** Read tracking agrees with the discussions: every row of a known discussion names its forum. */
  ghost predicate ReadsConsistent(discussions: map<DiscussionId, Discussion>, rows: map<ReadRowId, ReadRow>) {
    forall id :: id in rows && rows[id].discussion in discussions ==>
      rows[id].forum == discussions[rows[id].discussion].forum
  }

  /** Relocating a discussion together with its read rows keeps read tracking consistent. */
  lemma RelocationKeepsReadsConsistent(discussions: map<DiscussionId, Discussion>, rows: map<ReadRowId, ReadRow>,
                                       d: DiscussionId, target: ForumId)
    requires d in discussions
    requires ReadsConsistent(discussions, rows)
    ensures ReadsConsistent(discussions[d := discussions[d].(forum := target)], RelocatedReads(rows, d, target))
  {
  }

  /** All per-discussion subscription rows of the other discussions, none of `d`. */
  function WithoutDiscussion(subs: map<SubKey, SubRow>, d: DiscussionId): (r: map<SubKey, SubRow>)
    ensures forall k :: k in r <==> k in subs && k.discussion != d
    ensures forall k :: k in r ==> r[k] == subs[k]
  {
    map k | k in subs && k.discussion != d :: subs[k]
  }

  /** The rows of discussion `d` the replay of `plan` writes, all in forum `target`. */
  function ReplayedRows(d: DiscussionId, target: ForumId, plan: map<UserId, Preference>,
                       canView: UserId -> bool): map<SubKey, SubRow>
  {
    map u | u in plan && IsReplayed(plan[u], canView(u)) :: SubKey(d, u) := SubRow(target, plan[u])
  }

  /** Writing a row over a merge of two tables is writing it into the second. */
  lemma MergeUpdate<K, V>(base: map<K, V>, written: map<K, V>, k: K, v: V)
    ensures (base + written)[k := v] == base + written[k := v]
  {
  }

  /** The entries of `plan` for the users in `seen`. */
  function Visited(plan: map<UserId, Preference>, seen: seq<UserId>): map<UserId, Preference> {
    map u | u in plan && u in seen :: plan[u]
  }

  /** Once every planned user has been seen, the whole plan has been visited. */
  lemma VisitedAll(plan: map<UserId, Preference>, seen: seq<UserId>)
    requires forall u :: u in plan ==> u in seen
    ensures Visited(plan, seen) == plan
  {
    var v := Visited(plan, seen);
    forall u | u in plan ensures u in v && v[u] == plan[u] {
    }
    assert v.Keys == plan.Keys;
  }

  /** Visiting one more user adds at most that user's replayed row. */
  lemma ReplayStep(d: DiscussionId, target: ForumId, plan: map<UserId, Preference>,
                   canView: UserId -> bool, users: seq<UserId>, i: nat)
    requires i < |users|
    ensures var before := ReplayedRows(d, target, Visited(plan, users[..i]), canView);
            var u := users[i];
            ReplayedRows(d, target, Visited(plan, users[..i + 1]), canView) ==
              if u in plan && IsReplayed(plan[u], canView(u)) then before[SubKey(d, u) := SubRow(target, plan[u])]
              else before
  {
  }

  /**
    The subscription table after the move: the rows of `d` are exactly the
    replayed plan entries (every opt-out, and the opt-ins of users who may
    view the destination), all in the new forum; other discussions' rows are
    untouched.
   */
  function ReplacedSubscriptions(subs: map<SubKey, SubRow>, d: DiscussionId, target: ForumId,
                                 plan: map<UserId, Preference>, canView: UserId -> bool)
    : (r: map<SubKey, SubRow>)
    ensures forall u :: SubKey(d, u) in r <==> u in plan && IsReplayed(plan[u], canView(u))
    ensures forall u :: SubKey(d, u) in r ==> r[SubKey(d, u)] == SubRow(target, plan[u])
    ensures forall k: SubKey :: k.discussion != d ==> (k in r <==> k in subs)
    ensures forall k :: k in r && k.discussion != d ==> r[k] == subs[k]
  {
    WithoutDiscussion(subs, d) + ReplayedRows(d, target, plan, canView)
  }

  /** The preference of user `u`'s row for discussion `d`, if the table holds one. */
  function RowOf(subs: map<SubKey, SubRow>, d: DiscussionId, u: UserId): Option<Preference> {
    if SubKey(d, u) in subs then Some(subs[SubKey(d, u)].preference) else None
  }

  /**
    What the replaced subscription rows mean for each user once the
    discussion is in its new forum: a potential subscriber whose discussion
    answer differed from the source forum's keeps that choice (an opt-in only
    where the destination keeps it or the user may view there), every other
    potential subscriber follows the destination forum, and a user outside
    the enumeration has no row left for the discussion.
   */
  lemma ReplacedSubscriptionsKeepChoices(subs: map<SubKey, SubRow>, users: seq<UserId>,
                                         isSubscribed: SubscriptionLookup, source: ForumId,
                                         d: DiscussionId, target: ForumId, now: int,
                                         canView: UserId -> bool, u: UserId)
    ensures var s := SignalsFor(isSubscribed, u, source, d, target);
            var after := ReplacedSubscriptions(subs, d, target,
                                               PlannedChanges(users, isSubscribed, source, d, target, now), canView);
            u in users ==>
              StatusAfterMove(s.targetSubscribed, RowOf(after, d, u)) ==
                if s.forumSubscribed != s.discussionSubscribed then
                  s.discussionSubscribed && (s.targetSubscribed || canView(u))
                else
                  s.targetSubscribed
    ensures u !in users ==>
              RowOf(ReplacedSubscriptions(subs, d, target,
                                          PlannedChanges(users, isSubscribed, source, d, target, now), canView), d, u)
              == None
  {
  }

  /** The record store the move reads and rewrites. */
  class ForumStore {
    var forums: map<ForumId, Forum>
    var discussions: map<DiscussionId, Discussion>
    var readRows: map<ReadRowId, ReadRow>
    var discussionSubs: map<SubKey, SubRow>

    constructor (forums: map<ForumId, Forum>, discussions: map<DiscussionId, Discussion>,
                 readRows: map<ReadRowId, ReadRow>, discussionSubs: map<SubKey, SubRow>)
      ensures this.forums == forums && this.discussions == discussions
      ensures this.readRows == readRows && this.discussionSubs == discussionSubs
    {
      this.forums := forums;
      this.discussions := discussions;
      this.readRows := readRows;
      this.discussionSubs := discussionSubs;
    }

    ghost predicate Consistent()
      reads this
    {
      ReadsConsistent(discussions, readRows)
    }

    /**
      Handles a move request for discussion `req.discussion`. Nothing is
      written unless the request asks for a move, its session key is
      confirmed and every guard passes; then the discussion and its read rows
      move to the target forum and its subscription rows are replaced by the
      reconciliation plan. A failed attachment relocation only raises a warning.
     */
    method Move(req: MoveRequest, env: Env) returns (outcome: MoveOutcome)
      requires req.discussion in discussions
      requires discussions[req.discussion].forum in forums
      modifies this
      ensures forums == old(forums)
      ensures !(req.move > 0 && req.sesskeyConfirmed) ==> outcome == NotRequested && unchanged(this)
      ensures req.move > 0 && req.sesskeyConfirmed ==>
        var d := req.discussion;
        var discussion := old(discussions)[d];
        var check := CheckMove(old(forums), env, req.caller, old(forums)[discussion.forum], req.move);
        if check.Err? then
          outcome == Rejected(check.error) && unchanged(this)
        else
          var plan := PlannedChanges(env.subscribedUsers(discussion.forum, SubscriberGroup(discussion.groupId)),
                                     env.isSubscribed, discussion.forum, d, req.move, env.now);
          var canView := u => env.hasCapability(ViewDiscussion, ModuleContext(check.value.id), u);
          && outcome == Moved(req.move, !env.attachmentsMoved)
          && discussions == old(discussions)[d := discussion.(forum := req.move)]
          && readRows == RelocatedReads(old(readRows), d, req.move)
          && discussionSubs == ReplacedSubscriptions(old(discussionSubs), d, req.move, plan, canView)
      ensures old(Consistent()) ==> Consistent()
    {
      if !(req.move > 0 && req.sesskeyConfirmed) {
        return NotRequested;
      }
      var d := req.discussion;
      var discussion := discussions[d];
      var check := CheckMove(forums, env, req.caller, forums[discussion.forum], req.move);
      if check.Err? {
        return Rejected(check.error);
      }
      var destination := ModuleContext(check.value.id);
      var canView := u => env.hasCapability(ViewDiscussion, destination, u);

      var group := SubscriberGroup(discussion.groupId);
      var potentialSubscribers := env.subscribedUsers(discussion.forum, group);
      var changes := BuildPlan(potentialSubscribers, env.isSubscribed, discussion.forum, d, req.move, env.now);

      if Consistent() {
        RelocationKeepsReadsConsistent(discussions, readRows, d, req.move);
      }
      discussions := discussions[d := discussion.(forum := req.move)];
      readRows := RelocatedReads(readRows, d, req.move);

      discussionSubs := WithoutDiscussion(discussionSubs, d);
      ReplayChanges(d, req.move, changes, potentialSubscribers, canView);
      outcome := Moved(req.move, !env.attachmentsMoved);
    }

    /**
      The replay after the rows of `d` were deleted. The plan is visited in
      the order its entries were recorded, which is the order of `users`; for
      each planned user an opt-out row is written, and an opt-in row when the
      user may view discussions in the destination.
     */
    method ReplayChanges(d: DiscussionId, target: ForumId, changes: map<UserId, Preference>,
                         users: seq<UserId>, canView: UserId -> bool)
      requires forall u :: u in changes ==> u in users
      modifies this`discussionSubs
      ensures discussionSubs == old(discussionSubs) + ReplayedRows(d, target, changes, canView)
    {
      ghost var written := map[];
      for i := 0 to |users|
        invariant written == ReplayedRows(d, target, Visited(changes, users[..i]), canView)
        invariant discussionSubs == old(discussionSubs) + written
      {
        var user := users[i];
        ReplayStep(d, target, changes, canView, users, i);
        if user in changes {
          var preference := changes[user];
          if preference != Unsubscribed {
            if canView(user) {
              MergeUpdate(old(discussionSubs), written, SubKey(d, user), SubRow(target, preference));
              discussionSubs := discussionSubs[SubKey(d, user) := SubRow(target, preference)];
              written := written[SubKey(d, user) := SubRow(target, preference)];
            }
          } else {
            MergeUpdate(old(discussionSubs), written, SubKey(d, user), SubRow(target, Unsubscribed));
            discussionSubs := discussionSubs[SubKey(d, user) := SubRow(target, Unsubscribed)];
            written := written[SubKey(d, user) := SubRow(target, Unsubscribed)];
          }
        }
      }
      assert users[..|users|] == users;
      VisitedAll(changes, users);
    }
  }
}
