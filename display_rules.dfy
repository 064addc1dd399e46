/**
  The small request-parameter rules of the discussion page that decide which
  post is open and how the thread is laid out.
 */
module DisplayRules {
  import opened ForumRecords

  /**
    The post to show open. A non-zero post to reply to (`r`) takes priority
    over the requested open post (`p`); a zero value means "not given".
   */
  function ActivePost(activePost: PostId, replyToPost: PostId): (p: PostId)
    ensures replyToPost != 0 ==> p == replyToPost
    ensures replyToPost == 0 ==> p == activePost
  {
    if replyToPost != 0 && replyToPost != activePost then replyToPost else activePost
  }

  /**
    The layout modes of a thread. The page names four of them; every other
    mode the forum offers (threaded, ...) is `OtherMode` with its code.
   */
  datatype DisplayMode = FlatOldest | FlatNewest | OnlyDiscussion | Nested | OtherMode(code: int)

  /** The modes that cannot show a sub-thread rooted at a given post. */
  predicate IsFlatLike(m: DisplayMode) {
    m == FlatOldest || m == FlatNewest || m == OnlyDiscussion
  }

  /** The post at the root of what is shown, and the layout used to show it. */
  datatype ThreadView = ThreadView(root: PostId, mode: DisplayMode)

  /**
    With a non-zero `parent` the page shows that post's sub-thread and a
    flat-like mode is overridden by the nested one for this request only;
    without it the page shows the whole discussion from its first post, in
    the user's mode.
   */
  function ResolveThreadView(parent: PostId, firstPost: PostId, mode: DisplayMode): (v: ThreadView)
    ensures parent != 0 ==> v.root == parent && !IsFlatLike(v.mode)
    ensures parent != 0 && IsFlatLike(mode) ==> v.mode == Nested
    ensures parent != 0 && !IsFlatLike(mode) ==> v.mode == mode
    ensures parent == 0 ==> v.root == firstPost && v.mode == mode
  {
    if parent != 0 then
      ThreadView(parent, if IsFlatLike(mode) then Nested else mode)
    else
      ThreadView(firstPost, mode)
  }
}
