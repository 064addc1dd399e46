/**
  The rows of the forum tables that the discussion page reads and the move
  rewrites: forumx (forums), forumx_discussions, forumx_read and
  forumx_discussion_subs. Only the columns the move touches are kept.
 */
module ForumRecords {

  type UserId = int
  type ForumId = int
  type DiscussionId = int
  type PostId = int
  type ReadRowId = int
  type CmId = int

  /** A forum instance; `kind` is the forum's type column ("single", "general", ...). */
  datatype Forum = Forum(kind: string)

  predicate IsSingle(f: Forum) {
    f.kind == "single"
  }

  /**
    A discussion row: the forum it lives in, its group (-1 stands for "all
    groups") and its first post.
   */
  datatype Discussion = Discussion(forum: ForumId, groupId: int, firstPost: PostId)

  /** A read-tracking row: which user read which post, in which discussion and forum. */
  datatype ReadRow = ReadRow(user: UserId, post: PostId, discussion: DiscussionId, forum: ForumId)

  /**
    The preference column of a per-discussion subscription row: either the
    "unsubscribed" marker (an explicit opt-out) or the time the user opted in.
   */
  datatype Preference = Unsubscribed | SubscribedAt(time: int)

  /** forumx_discussion_subs holds at most one row per (discussion, user). */
  datatype SubKey = SubKey(discussion: DiscussionId, user: UserId)

  datatype SubRow = SubRow(forum: ForumId, preference: Preference)
}
