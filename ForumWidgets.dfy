/**
 * The forum's interactive widgets: the like button
 * (src/components/forum/Likebutton.tsx), the new-post form
 * (src/components/forum/CreatePost.tsx) and the reply form, whose two
 * copies (src/components/forum/CreateComment.tsx and
 * vermi-backend/src/components/forum/CreateComment.tsx) share one model:
 * their handlers are identical and only their markup differs.
 */
module ForumWidgets {
  import opened Base
  import opened WebStorage
  import opened Forum
  import opened ForumHooks

  // ---------------------------------------------------------------------
  // LikeButton

  /** The row a like is about: `postId ? post_id : comment_id`. */
  datatype Target = PostTarget(postId: int) | CommentTarget(commentId: Option<int>)

  /** A falsy number: absent or 0. */
  predicate Falsy(n: Option<int>) {
    n.None? || n.value == 0
  }

  /** The column and value of `.eq(postId ? 'post_id' : 'comment_id', postId || commentId)`. */
  function TargetOf(postId: Option<int>, commentId: Option<int>): (t: Target)
    ensures t.PostTarget? <==> !Falsy(postId)
    ensures t.PostTarget? ==> t.postId == postId.value
    ensures t.CommentTarget? ==> t.commentId == commentId
  {
    if !Falsy(postId) then PostTarget(postId.value) else CommentTarget(commentId)
  }

  /** The requests the button makes to the `likes` table. */
  datatype LikeRequest =
    | CountLikes(userId: int, target: Target)
    | DeleteLike(userId: int, target: Target)
    | InsertLike(userId: int, target: Target)

  /** `(likes, isLiked)` after `handleLike` with a signed-in user; `ok` says the delete or insert succeeded. */
  function AfterToggle(likes: int, isLiked: bool, ok: bool): (r: (int, bool))
    ensures !ok ==> r == (likes, isLiked)
    ensures ok && isLiked ==> r == (likes - 1, false)
    ensures ok && !isLiked ==> r == (likes + 1, true)
  {
    if !ok then (likes, isLiked)
    else if isLiked then (likes - 1, false)
    else (likes + 1, true)
  }

  /** A successful like followed by a successful unlike (or the reverse) restores the state. */
  lemma ToggleTwiceRestores(likes: int, isLiked: bool)
    ensures var (l, b) := AfterToggle(likes, isLiked, true); AfterToggle(l, b, true) == (likes, isLiked)
  {
  }

  /** The likes of everyone else, `likes` without the user's own, never change through toggles. */
  lemma ToggleKeepsOthers(likes: int, isLiked: bool, ok: bool)
    ensures var (l, b) := AfterToggle(likes, isLiked, ok);
            l - (if b then 1 else 0) == likes - (if isLiked then 1 else 0)
  {
  }

  class LikeButton {
    const postId: Option<int>
    const commentId: Option<int>
    var likes: int
    var isLiked: bool
    var userId: Option<int>

    /** Initial state: the given count, not liked, no user yet. */
    constructor (postId: Option<int>, commentId: Option<int>, initialLikes: int)
      ensures this.postId == postId && this.commentId == commentId
      ensures likes == initialLikes && !isLiked && userId == None
    {
      this.postId, this.commentId := postId, commentId;
      likes, isLiked, userId := initialLikes, false, None;
    }

    /** The button is disabled while there is no user id. */
    predicate Disabled()
      reads this
    {
      Falsy(userId)
    }

    /** `fetchUser`: the `users` row of the signed-in account, if both are found, gives the user id. */
    method FetchUser(authUid: Option<string>, row: Option<int>) returns (lookup: Option<string>)
      modifies this`userId
      ensures lookup == authUid
      ensures authUid.Some? && row.Some? ==> userId == row
      ensures authUid.None? || row.None? ==> userId == old(userId)
    {
      lookup := authUid;
      if authUid.Some? && row.Some? {
        userId := row;
      }
    }

    /** `checkIfLiked`: skipped without a user id; otherwise liked iff the count is positive. */
    method CheckIfLiked(count: Option<nat>) returns (request: Option<LikeRequest>)
      modifies this`isLiked
      ensures Falsy(userId) ==> request == None && isLiked == old(isLiked)
      ensures !Falsy(userId) ==>
                request == Some(CountLikes(userId.value, TargetOf(postId, commentId))) && (isLiked <==> OrZero(count) > 0)
    {
      if Falsy(userId) {
        return None;
      }
      request := Some(CountLikes(userId.value, TargetOf(postId, commentId)));
      isLiked := OrZero(count) > 0;
    }

    /** `handleLike`: without a user id nothing happens; otherwise delete or insert, and count only if it worked. */
    method HandleLike(answer: Result<()>) returns (request: Option<LikeRequest>)
      modifies this`likes, this`isLiked
      ensures Falsy(userId) ==> request == None && likes == old(likes) && isLiked == old(isLiked)
      ensures !Falsy(userId) && old(isLiked) ==> request == Some(DeleteLike(userId.value, TargetOf(postId, commentId)))
      ensures !Falsy(userId) && !old(isLiked) ==> request == Some(InsertLike(userId.value, TargetOf(postId, commentId)))
      ensures !Falsy(userId) ==> (likes, isLiked) == AfterToggle(old(likes), old(isLiked), answer.Ok?)
    {
      if Falsy(userId) {
        return None;
      }
      var target := TargetOf(postId, commentId);
      if isLiked {
        request := Some(DeleteLike(userId.value, target));
        if answer.Ok? {
          likes, isLiked := likes - 1, false;
        }
      } else {
        request := Some(InsertLike(userId.value, target));
        if answer.Ok? {
          likes, isLiked := likes + 1, true;
        }
      }
    }
  }

  /** A click sends a request exactly when the button is enabled; a disabled button's click changes nothing. */
  method ClickLikeButton(button: LikeButton, answer: Result<()>) returns (request: Option<LikeRequest>)
    modifies button`likes, button`isLiked
    ensures request.None? <==> button.Disabled()
    ensures button.Disabled() ==> button.likes == old(button.likes) && button.isLiked == old(button.isLiked)
  {
    request := button.HandleLike(answer);
  }

  // ---------------------------------------------------------------------
  // CreatePost

  /** The presence check of the post form: plain emptiness, so whitespace passes. */
  function PostFormError(title: string, content: string, topic: string): (e: Option<string>)
    ensures e.None? <==> title != "" && content != "" && topic != ""
    ensures e.Some? ==> e.value == "Title, content, and topic are required"
  {
    if title == "" || content == "" || topic == "" then Some("Title, content, and topic are required") else None
  }

  class CreatePostForm {
    const userId: int
    const store: PostsStore
    const browser: Browser
    var title: string
    var content: string
    var topic: string
    var subTopic: string
    var isSubmitting: bool
    var error: string

    constructor (userId: int, store: PostsStore, browser: Browser)
      ensures this.userId == userId && this.store == store && this.browser == browser
      ensures title == "" && content == "" && topic == "" && subTopic == "" && !isSubmitting && error == ""
    {
      this.userId, this.store, this.browser := userId, store, browser;
      title, content, topic, subTopic, isSubmitting, error := "", "", "", "", false, "";
    }

    /**
     * `handleSubmit`: reject a missing field; otherwise submit the post
     * through the form's own `usePosts` store, then clear the fields and
     * go to the forum, or keep them and show the failure.
     */
    method HandleSubmit(answer: Result<Post>) returns (submitted: Option<NewPost>)
      modifies this, store, browser
      ensures browser.storage == old(browser.storage) && browser.alerts == old(browser.alerts)
      ensures store.loading == old(store.loading)
      ensures var e := PostFormError(old(title), old(content), old(topic));
              e.Some? ==> submitted == None && error == e.value && isSubmitting == old(isSubmitting)
                          && title == old(title) && content == old(content) && topic == old(topic) && subTopic == old(subTopic)
                          && store.posts == old(store.posts) && store.error == old(store.error)
                          && browser.history == old(browser.history)
      ensures PostFormError(old(title), old(content), old(topic)).None? ==>
                submitted == Some(NewPost(userId, old(title), old(content), old(topic), old(subTopic))) && !isSubmitting
      ensures PostFormError(old(title), old(content), old(topic)).None? && answer.Ok? ==>
                title == "" && content == "" && topic == "" && subTopic == "" && error == ""
                && store.posts == [Fresh(answer.value)] + old(store.posts) && store.error == old(store.error)
                && browser.history == old(browser.history) + ["/community"]
      ensures PostFormError(old(title), old(content), old(topic)).None? && answer.Err? ==>
                title == old(title) && content == old(content) && topic == old(topic) && subTopic == old(subTopic)
                && error == "Failed to create post. Please try again."
                && store.posts == old(store.posts)
                && store.error == Some(ErrorMessageOr(answer.thrown, "Failed to create post"))
                && browser.history == old(browser.history)
    {
      var e := PostFormError(title, content, topic);
      if e.Some? {
        error := e.value;
        return None;
      }
      isSubmitting := true;
      error := "";
      var post := NewPost(userId, title, content, topic, subTopic);
      submitted := Some(post);
      var outcome := store.CreatePost(post, answer);
      if outcome.Ok? {
        title, content, topic, subTopic := "", "", "", "";
        browser.Navigate("/community");
      } else {
        error := "Failed to create post. Please try again.";
      }
      isSubmitting := false;
    }
  }

  // ---------------------------------------------------------------------
  // CreateComment

  /** The reply form's check: content that trims to nothing is refused. */
  function CommentError(content: string): (e: Option<string>)
    ensures e.Some? <==> AllSpace(content)
    ensures e.Some? ==> e.value == "Comment cannot be empty"
  {
    if Trim(content) == "" then Some("Comment cannot be empty") else None
  }

  /** `disabled={isSubmitting || !content.trim()}` */
  function SubmitDisabled(content: string, isSubmitting: bool): (d: bool)
    ensures d <==> isSubmitting || AllSpace(content)
  {
    isSubmitting || Trim(content) == ""
  }

  /** An enabled button never submits content the handler refuses. */
  lemma EnabledSubmitPasses(content: string, isSubmitting: bool)
    requires !SubmitDisabled(content, isSubmitting)
    ensures CommentError(content).None?
  {
  }

  class CreateCommentForm {
    const postId: int
    const userId: int
    /** Whether an `onCommentAdded` callback was passed. */
    const hasCallback: bool
    var content: string
    var isSubmitting: bool
    var error: string
    /** How many times `onCommentAdded` has been called. */
    var callbacks: nat

    constructor (postId: int, userId: int, hasCallback: bool)
      ensures this.postId == postId && this.userId == userId && this.hasCallback == hasCallback
      ensures content == "" && !isSubmitting && error == "" && callbacks == 0
    {
      this.postId, this.userId, this.hasCallback := postId, userId, hasCallback;
      content, isSubmitting, error, callbacks := "", false, "", 0;
    }

    /** `disabled` of the submit button. */
    function Disabled(): bool
      reads this
    {
      SubmitDisabled(content, isSubmitting)
    }

    /**
     * `handleSubmit`: refuse blank content; otherwise insert the content
     * as typed (untrimmed), then clear it and call back, or keep it and
     * show the message.
     */
    method HandleSubmit(answer: Result<()>) returns (inserted: Option<NewComment>)
      modifies this
      ensures CommentError(old(content)).Some? ==>
                inserted == None && error == "Comment cannot be empty"
                && content == old(content) && isSubmitting == old(isSubmitting) && callbacks == old(callbacks)
      ensures CommentError(old(content)).None? ==>
                inserted == Some(NewComment(postId, userId, old(content))) && !isSubmitting
      ensures CommentError(old(content)).None? && answer.Ok? ==>
                content == "" && error == "" && callbacks == old(callbacks) + (if hasCallback then 1 else 0)
      ensures CommentError(old(content)).None? && answer.Err? ==>
                content == old(content) && error == ErrorMessageOr(answer.thrown, "Failed to post comment")
                && callbacks == old(callbacks)
    {
      var e := CommentError(content);
      if e.Some? {
        error := e.value;
        return None;
      }
      isSubmitting := true;
      error := "";
      inserted := Some(NewComment(postId, userId, content));
      if answer.Ok? {
        content := "";
        if hasCallback {
          callbacks := callbacks + 1;
        }
      } else {
        error := ErrorMessageOr(answer.thrown, "Failed to post comment");
      }
      isSubmitting := false;
    }
  }

  /** Pressing the enabled submit button always inserts the content as typed. */
  method SubmitEnabledComment(form: CreateCommentForm, answer: Result<()>) returns (inserted: Option<NewComment>)
    requires !form.Disabled()
    modifies form
    ensures inserted == Some(NewComment(form.postId, form.userId, old(form.content)))
  {
    EnabledSubmitPasses(form.content, form.isSubmitting);
    inserted := form.HandleSubmit(answer);
  }
}
