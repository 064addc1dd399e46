# Moving a forum discussion, with subscription reconciliation

This project models the discussion page of the `mod_forumx` forum plugin
(`discuss.php`). The page is mostly display glue. The part modelled in depth
is the **discussion move**: a user with the right capabilities moves a
discussion thread from its forum to another forum of the same course. The
move:

1. runs a fixed sequence of guards, and writes nothing if any of them fails;
2. reads three subscription answers for every potential subscriber of the
   source forum, and plans a per-discussion row only where the move would
   otherwise change what the user receives: it keeps an explicit opt-out or an
   explicit opt-in;
3. moves the discussion and all of its read-tracking rows to the target forum;
4. deletes every per-discussion subscription row of the discussion and writes
   back only the planned rows. An opt-in is written only for a user who may
   view discussions in the destination.

Three small request rules of the display half are modelled too: the reply
post taking priority over the open post, the nested-mode override when a
sub-thread is shown, and the "all groups" group sentinel used to enumerate
subscribers.

Files and modules:

- `wrappers.dfy` (`Wrappers`): `Option` and `Result`.
- `forum_records.dfy` (`ForumRecords`): the rows the move touches: forums,
  discussions, read-tracking rows and per-discussion subscription rows.
- `display_rules.dfy` (`DisplayRules`): the open-post and thread-view rules.
- `reconciliation.dfy` (`Reconciliation`): the per-user decision, what it
  means for the user's status after the move, and the plan-building loop.
- `move_discussion.dfy` (`MoveDiscussion`): the guards, the group sentinel,
  the relocation and replacement functions, and the `ForumStore` class. Its
  `Move` method runs the whole transaction on the store's tables, which are
  fields of type `map`.

The record store is the class `ForumStore`, with one map per table. Its `Move`
method states its whole new state in terms of the pure functions `CheckMove`,
`PlannedChanges`, `RelocatedReads` and `ReplacedSubscriptions`. The properties
are proved about those functions; `Move` itself uses `old` and `unchanged` in
its contract. Everything the page obtains from elsewhere is an input of the
`Env` datatype and has no semantics of its own. That covers the capability
test, the course's forum list with visibility, the subscriber enumeration, the
subscription lookup, the result of relocating attachment files and the clock.

## Model

| member | source | states |
|---|---|---|
| `DisplayRules.ActivePost` | discuss.php:39-41 | a non-zero reply post becomes the open post; with no reply post the requested open post stays |
| `DisplayRules.ResolveThreadView` | discuss.php:191-200 | with a parent set, that post is the root and flat-oldest, flat-newest and only-discussion become nested while other modes are kept; with no parent, the root is the discussion's first post and the mode is kept |
| `Reconciliation.Decide` | discuss.php:130-138 | the "unsubscribed" marker exactly when subscribed to the source forum, not to the discussion, and subscribed to the target; the shared subscription time exactly when not subscribed to the source forum, subscribed to the discussion, and not to the target; no entry for the other six combinations |
| `Reconciliation.ExplicitChoiceSurvivesMove` | discuss.php:130-157 | when the discussion answer differs from the source-forum answer, the user's status after the move is that discussion answer; an opt-in is lost only when the target forum does not subscribe the user and the user may not view discussions there |
| `Reconciliation.InheritedChoiceFollowsTarget` | discuss.php:130-157 | when the discussion answer equals the source-forum answer, the user's status after the move is the target forum's answer |
| `Reconciliation.PlannedChanges` | discuss.php:122-139 | the plan holds exactly the potential subscribers whose decision is a change; an entry is the "unsubscribed" marker exactly in the opt-out case; every subscribe entry carries the one subscription time |
| `Reconciliation.BuildPlan` | discuss.php:122-139 | the loop over the potential subscribers builds exactly `PlannedChanges` |
| `MoveDiscussion.CheckMove` | discuss.php:72-102 | succeeds exactly when the target exists, the caller may move discussions, neither forum has type `single`, the target is in the course's forum list and visible, and the caller may start discussions there; otherwise the error is that of the first failing guard in the page's order: target missing, no move capability, source `single`, target `single`, target not in the course list, target not visible, no start-discussion capability |
| `MoveDiscussion.SubscriberGroup` | discuss.php:108 | the group -1 ("all groups") becomes 0 and every other group is kept, so the result is never -1 |
| `MoveDiscussion.RelocatedReads` | discuss.php:142 | the same rows, where every row of the moved discussion has the target forum and all other rows are unchanged; no column but the forum changes |
| `MoveDiscussion.RelocationKeepsReadsConsistent` | discuss.php:141-142 | if every read-tracking row named its discussion's forum before, it still does after the discussion and its rows are moved together |
| `MoveDiscussion.WithoutDiscussion` | discuss.php:145 | the delete leaves exactly the rows of the other discussions, unchanged |
| `MoveDiscussion.ReplacedSubscriptions` | discuss.php:145-157 | the moved discussion's rows are exactly the planned opt-outs plus the planned opt-ins of users who may view the destination, each in the target forum with the planned preference; other discussions' rows are untouched |
| `MoveDiscussion.ReplacedSubscriptionsKeepChoices` | discuss.php:122-157 | for every potential subscriber, reading the replaced table gives the status of `ExplicitChoiceSurvivesMove` or `InheritedChoiceFollowsTarget`; a user outside the enumeration has no row left for the discussion |
| `MoveDiscussion.ForumStore.ReplayChanges` | discuss.php:148-157 | the replay loop adds exactly the replayed rows to the table |
| `MoveDiscussion.ForumStore.Move` | discuss.php:69-179 | nothing changes without a positive target id and a confirmed session key, or when a guard fails (the outcome names the error); otherwise the discussion alone gets the target forum, the read rows and subscription rows are those of `RelocatedReads` and `ReplacedSubscriptions` for the plan of the enumerated subscribers, the forums are untouched, read tracking stays consistent, and a failed attachment move only sets a warning |

## Left out

- Page rendering, navigation, headings, scripts and the portfolio button (discuss.php:221-359): output only.
- The RSS header and the deletion of feed files (discuss.php:61-66, 173-176), the move event (discuss.php:159-171) and the redirect (discuss.php:178): calls into code that is not part of this model, with no effect on the tables modelled.
- `confirm_sesskey` is a boolean of the request; `forumx_move_attachments` is a boolean of `Env` that only sets the outcome's warning and never aborts the move.
- The internals of the subscription lookup, the subscriber enumeration, the cache pre-seeding (discuss.php:117-121), the capability test and the course's module information are not part of this model. They are inputs that are read once, so the model cannot show a stale cache.
- `subscribe_user_to_discussion` and `unsubscribe_user_from_discussion` are not part of this model. Each is taken to write one row for the (discussion, user) pair, holding the target forum and the planned preference. Any extra checks they make are not captured, nor is the clock they may read themselves.
- The "unsubscribed" marker is a constant defined outside this file. It is a separate `Preference` constructor here, so it never clashes with a subscription time.
- Forum types other than `single` are kept as the type string. Only the comparison with `single` matters.
- The second lookup of the target forum (discuss.php:82) repeats the first (discuss.php:72), and nothing is written between them. The model has a single guard for both.
- Lines 48-50 abort the page when the discussion or its forum does not exist, and `require_course_login` (discuss.php:53) and the view-discussion capability check (discuss.php:59) abort it before the move is reached. `ForumStore.Move` requires the discussion and its forum to exist and does not model the two page-level checks.
- `ForumStore.ReplayChanges` walks the plan in recording order, which is the order of the enumerated subscribers. A user enumerated twice is replayed twice with the same row, which gives the same table.
- The read and unread marking, can-reply logic and unread/flag/recommend lookups (discuss.php:210-219, 279-289, 337-343): thin wrappers over calls outside this model.
- The layout-mode normalisation and the user preference for the mode (discuss.php:184-189): `forumx_normalize_layout_mode` and the preference store are not part of this model, so the mode is an input of `ResolveThreadView`.
- `Reconciliation.StatusAfterMove` fixes one reading of the subscription lookup once the discussion has moved: a per-discussion row decides, otherwise the destination forum's answer. This reading follows the comments at discuss.php:131-132 and 135-136. `ExplicitChoiceSurvivesMove`, `InheritedChoiceFollowsTarget` and `ReplacedSubscriptionsKeepChoices` rest on it.
- Moving A to B and back to A restores each user's status only under assumptions about the subscription lookup, whose rules are not part of this model. No lemma about that round trip is stated.
- No rollback: a failure after the first write is not modelled. Every write here is a total map update.
