/**
 * The data hooks of the forum: `usePosts` (vermi-backend/src/hooks/usePosts.ts)
 * and `useComments` (src/hooks/useComments.ts).  Each hook's state
 * `{items, loading, error}` is a class; each awaited query is an oracle
 * whose answer is a parameter.  The per-row count queries answer with a
 * count or `null`; they are given as maps from the row id to the count,
 * an id that is absent standing for a `null` count.
 */
module ForumHooks {
  import opened Base
  import opened Forum

  /** `count || 0` for the count query of row `id`. */
  function CountFor(counts: map<int, nat>, id: int): nat {
    if id in counts then counts[id] else 0
  }

  // ---------------------------------------------------------------------
  // usePosts

  /** The `.eq(...)` filters the posts query carries; it is always ordered by `created_at` descending. */
  datatype PostsQuery = PostsQuery(topic: Option<string>, subTopic: Option<string>)

  /** The `{...post, likes_count, comments_count}` merge of `fetchPosts`. */
  function WithCounts(rows: seq<Post>, likes: map<int, nat>, comments: map<int, nat>): (r: seq<Post>)
    ensures |r| == |rows|
    ensures forall i :: 0 <= i < |r| ==>
              r[i].likesCount == Some(CountFor(likes, rows[i].postId))
              && r[i].commentsCount == Some(CountFor(comments, rows[i].postId))
  {
    seq(|rows|, i requires 0 <= i < |rows| =>
      rows[i].(likesCount := Some(CountFor(likes, rows[i].postId)), commentsCount := Some(CountFor(comments, rows[i].postId))))
  }

  /** A post with its counts forgotten. */
  function Uncounted(p: Post): Post {
    p.(likesCount := None, commentsCount := None)
  }

  /** The merge changes only the counts: the rows keep their order and every other field. */
  lemma WithCountsKeepsRows(rows: seq<Post>, likes: map<int, nat>, comments: map<int, nat>)
    ensures forall i :: 0 <= i < |rows| ==> Uncounted(WithCounts(rows, likes, comments)[i]) == Uncounted(rows[i])
  {
  }

  /** Merging counts again gives the same list. */
  lemma WithCountsIdempotent(rows: seq<Post>, likes: map<int, nat>, comments: map<int, nat>)
    ensures WithCounts(WithCounts(rows, likes, comments), likes, comments) == WithCounts(rows, likes, comments)
  {
    var once := WithCounts(rows, likes, comments);
    var twice := WithCounts(once, likes, comments);
    forall i | 0 <= i < |rows| ensures twice[i] == once[i] {
      assert once[i].postId == rows[i].postId;
    }
  }

  /** The post `createPost` puts in front: the inserted row with both counts 0. */
  function Fresh(row: Post): (p: Post)
    ensures p.likesCount == Some(0) && p.commentsCount == Some(0)
    ensures Uncounted(p) == Uncounted(row)
  {
    row.(likesCount := Some(0), commentsCount := Some(0))
  }

  /** The row `createPost` inserts: every post field but `post_id`, `created_at` and `user`. */
  datatype NewPost = NewPost(userId: int, title: string, content: string, topic: string, subTopic: string)

  class PostsStore {
    var posts: seq<Post>
    var loading: bool
    var error: Option<string>

    /** Initial state: no posts, loading, no error. */
    constructor ()
      ensures posts == [] && loading && error == None
    {
      posts, loading, error := [], true, None;
    }

    /**
     * `fetchPosts`: the topic and sub-topic filters are added only when
     * they are non-empty; a failure keeps the posts and records the
     * message; `loading` ends false either way.
     */
    method FetchPosts(topic: Option<string>, subTopic: Option<string>,
                      answer: Result<seq<Post>>, likes: map<int, nat>, comments: map<int, nat>)
      returns (query: PostsQuery)
      modifies this
      ensures query == PostsQuery(ParamOrAbsent(topic), ParamOrAbsent(subTopic))
      ensures !loading
      ensures answer.Ok? ==> posts == WithCounts(answer.value, likes, comments) && error == old(error)
      ensures answer.Err? ==> posts == old(posts) && error == Some(ErrorMessageOr(answer.thrown, "Unknown error"))
    {
      loading := true;
      query := PostsQuery(None, None);
      if topic.Some? && topic.value != "" {
        query := query.(topic := topic);
      }
      if subTopic.Some? && subTopic.value != "" {
        query := query.(subTopic := subTopic);
      }
      if answer.Err? {
        error := Some(ErrorMessageOr(answer.thrown, "Unknown error"));
      } else {
        posts := WithCounts(answer.value, likes, comments);
      }
      loading := false;
    }

    /**
     * `createPost(post)`: on success the new row goes in front with zero
     * counts and is returned; on failure the message is recorded and the
     * error is thrown again.
     */
    method CreatePost(post: NewPost, answer: Result<Post>) returns (outcome: Result<Post>)
      modifies this
      ensures outcome == answer
      ensures loading == old(loading)
      ensures answer.Ok? ==> posts == [Fresh(answer.value)] + old(posts) && error == old(error)
      ensures answer.Err? ==> posts == old(posts) && error == Some(ErrorMessageOr(answer.thrown, "Failed to create post"))
    {
      if answer.Err? {
        error := Some(ErrorMessageOr(answer.thrown, "Failed to create post"));
        return answer;
      }
      posts := [Fresh(answer.value)] + posts;
      outcome := answer;
    }
  }


  // ---------------------------------------------------------------------
  // useComments

  /** The comments query: the post's comments, ordered by `created_at` ascending. */
  datatype CommentsQuery = CommentsQuery(postId: int)

  /** The `{...comment, likes_count}` merge of `fetchComments`. */
  function WithLikes(rows: seq<Comment>, likes: map<int, nat>): (r: seq<Comment>)
    ensures |r| == |rows|
    ensures forall i :: 0 <= i < |r| ==> r[i].likesCount == Some(CountFor(likes, rows[i].commentId))
  {
    seq(|rows|, i requires 0 <= i < |rows| => rows[i].(likesCount := Some(CountFor(likes, rows[i].commentId))))
  }

  /** The merge changes only the like counts: the rows keep their order and every other field. */
  lemma WithLikesKeepsRows(rows: seq<Comment>, likes: map<int, nat>)
    ensures forall i :: 0 <= i < |rows| ==> WithLikes(rows, likes)[i].(likesCount := None) == rows[i].(likesCount := None)
  {
  }

  /** The row `createComment` inserts. */
  datatype NewComment = NewComment(postId: int, userId: int, content: string)

  class CommentsStore {
    const postId: int
    var comments: seq<Comment>
    var loading: bool
    var error: Option<string>

    constructor (postId: int)
      ensures this.postId == postId && comments == [] && loading && error == None
    {
      this.postId := postId;
      comments, loading, error := [], true, None;
    }

    /**
     * The fetch effect: nothing happens for a falsy `postId` (and
     * `loading` then stays as it was); otherwise the comments are replaced
     * on success, the message recorded on failure, and `loading` ends false.
     */
    method FetchComments(answer: Result<seq<Comment>>, likes: map<int, nat>) returns (query: Option<CommentsQuery>)
      modifies this
      ensures postId == 0 ==> query == None && comments == old(comments) && loading == old(loading) && error == old(error)
      ensures postId != 0 ==> query == Some(CommentsQuery(postId)) && !loading
      ensures postId != 0 && answer.Ok? ==> comments == WithLikes(answer.value, likes) && error == old(error)
      ensures postId != 0 && answer.Err? ==>
                comments == old(comments) && error == Some(ErrorMessageOr(answer.thrown, "Unknown error"))
    {
      if postId == 0 {
        return None;
      }
      loading := true;
      query := Some(CommentsQuery(postId));
      if answer.Err? {
        error := Some(ErrorMessageOr(answer.thrown, "Unknown error"));
      } else {
        comments := WithLikes(answer.value, likes);
      }
      loading := false;
    }

    /** `createComment(comment)`: append with zero likes on success, record and rethrow on failure. */
    method CreateComment(comment: NewComment, answer: Result<Comment>) returns (outcome: Result<Comment>)
      modifies this
      ensures outcome == answer
      ensures loading == old(loading)
      ensures answer.Ok? ==> comments == old(comments) + [answer.value.(likesCount := Some(0))] && error == old(error)
      ensures answer.Err? ==>
                comments == old(comments) && error == Some(ErrorMessageOr(answer.thrown, "Failed to create comment"))
    {
      if answer.Err? {
        error := Some(ErrorMessageOr(answer.thrown, "Failed to create comment"));
        return answer;
      }
      comments := comments + [answer.value.(likesCount := Some(0))];
      outcome := answer;
    }
  }

  // ---------------------------------------------------------------------
  // both hooks

  /** Neither hook ever puts `error` back to `null`: once set, it stays set through any operation. */
  method ErrorIsSticky(posts: PostsStore, topic: Option<string>, subTopic: Option<string>,
                       postsAnswer: Result<seq<Post>>, postLikes: map<int, nat>, commentCounts: map<int, nat>,
                       post: NewPost, createdPost: Result<Post>,
                       comments: CommentsStore, commentsAnswer: Result<seq<Comment>>, commentLikes: map<int, nat>,
                       comment: NewComment, createdComment: Result<Comment>)
    requires posts.error.Some? && comments.error.Some?
    modifies posts, comments
    ensures posts.error.Some? && comments.error.Some?
  {
    var _ := posts.FetchPosts(topic, subTopic, postsAnswer, postLikes, commentCounts);
    var _ := posts.CreatePost(post, createdPost);
    var _ := comments.FetchComments(commentsAnswer, commentLikes);
    var _ := comments.CreateComment(comment, createdComment);
  }
}
