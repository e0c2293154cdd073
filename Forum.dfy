/**
 * The forum's records (`Post`, `Comment` of src/types/variables.ts, with
 * the counts the hooks attach) and the page logic of
 * src/pages/CommunityForum.tsx: the search filter, the copy-and-sort of
 * `sortedPosts`, the tab URL and the search-parameter defaults.
 *
 * Optional text fields use `""` for absent (both are falsy);
 * `new Date(created_at).getTime()` is carried with each record as
 * `createdTime`.
 */
module Forum {
  import opened Base
  import opened Sorting

  /** The `user:users(...)` part a post is selected with. */
  datatype Author = Author(userId: int, username: string, locationName: Option<string>)

  datatype Post = Post(
    postId: int, title: string, content: string, createdAt: string, createdTime: int,
    author: Option<Author>, topic: string, subTopic: string,
    likesCount: Option<nat>, commentsCount: Option<nat>)

  datatype Comment = Comment(
    commentId: int, postId: int, userId: int, content: string, createdAt: string, createdTime: int,
    username: Option<string>, likesCount: Option<nat>)

  // ---------------------------------------------------------------------
  // search

  /** The search test: the lower-cased query occurs in the title, the sub-topic (when set) or the content. */
  predicate Matches(p: Post, query: string) {
    var q := Lower(query);
    Contains(Lower(p.title), q) || (p.subTopic != "" && Contains(Lower(p.subTopic), q)) || Contains(Lower(p.content), q)
  }

  /** `searchQuery ? posts.filter(...) : posts` */
  function Filtered(posts: seq<Post>, query: string): (r: seq<Post>)
    ensures |r| <= |posts|
  {
    if query == "" || posts == [] then posts
    else (if Matches(posts[0], query) then [posts[0]] else []) + Filtered(posts[1..], query)
  }

  /** The filter keeps exactly the matching posts, each as often as it occurs. */
  lemma {:induction false} FilteredCounts(posts: seq<Post>, query: string, x: Post)
    ensures multiset(Filtered(posts, query))[x] ==
              if query == "" || Matches(x, query) then multiset(posts)[x] else 0
  {
    if query != "" && posts != [] {
      FilteredCounts(posts[1..], query, x);
      assert posts == [posts[0]] + posts[1..];
    }
  }

  /** A post is kept iff it is one of the posts and the query is empty or matches it. */
  lemma FilteredMembership(posts: seq<Post>, query: string, x: Post)
    ensures x in Filtered(posts, query) <==> x in posts && (query == "" || Matches(x, query))
  {
    FilteredCounts(posts, query, x);
    assert x in Filtered(posts, query) <==> multiset(Filtered(posts, query))[x] > 0;
    assert x in posts <==> multiset(posts)[x] > 0;
  }

  /** `includes` ignores ASCII case on both sides: an upper-cased query finds the same posts. */
  lemma {:induction false} FilteredIgnoresCase(posts: seq<Post>, query: string)
    ensures Filtered(posts, Upper(query)) == Filtered(posts, query)
  {
    assert Lower(Upper(query)) == Lower(query) by {
      forall i | 0 <= i < |query| ensures Lower(Upper(query))[i] == Lower(query)[i] {
        CaseMappingAbsorbs(query[i]);
      }
    }
    if query != "" && posts != [] {
      FilteredIgnoresCase(posts[1..], query);
    }
  }

  // ---------------------------------------------------------------------
  // sort

  datatype SortBy = Recent | Popular

  /** What the comparator compares: `likes_count || 0` for popular, the creation time for recent. */
  function PostKey(order: SortBy): Post -> int {
    if order == Popular then (p: Post) => OrZero(p.likesCount) as int else (p: Post) => p.createdTime
  }

  /** `sortedPosts`: filter, then sort a copy by the chosen key, largest first. */
  function SortedPosts(posts: seq<Post>, query: string, order: SortBy): seq<Post> {
    SortDesc(Filtered(posts, query), PostKey(order))
  }

  /** No posts give no result. */
  lemma NoPostsNoResult(query: string, order: SortBy)
    ensures SortedPosts([], query, order) == []
  {
  }

  /**
   * The result is the filtered posts reordered: ordered by the key
   * descending (most likes first, or newest first), a permutation of the
   * filtered posts, and stable among posts of equal key.
   */
  lemma SortedPostsSpec(posts: seq<Post>, query: string, order: SortBy)
    ensures SortedDesc(SortedPosts(posts, query, order), PostKey(order))
    ensures multiset(SortedPosts(posts, query, order)) == multiset(Filtered(posts, query))
    ensures forall k :: WithKey(SortedPosts(posts, query, order), PostKey(order), k) == WithKey(Filtered(posts, query), PostKey(order), k)
  {
    SortDescSorted(Filtered(posts, query), PostKey(order));
    SortDescPermutes(Filtered(posts, query), PostKey(order));
    forall k ensures WithKey(SortedPosts(posts, query, order), PostKey(order), k) == WithKey(Filtered(posts, query), PostKey(order), k) {
      SortDescStable(Filtered(posts, query), PostKey(order), k);
    }
  }

  /** With popular, a post's likes (missing counted as 0) are at least those of every later post. */
  lemma PopularOrder(posts: seq<Post>, query: string, i: int, j: int)
    requires 0 <= i < j < |SortedPosts(posts, query, Popular)|
    ensures OrZero(SortedPosts(posts, query, Popular)[i].likesCount) >= OrZero(SortedPosts(posts, query, Popular)[j].likesCount)
  {
    SortDescSorted(Filtered(posts, query), PostKey(Popular));
  }

  /** With recent, a post is at least as new as every later post. */
  lemma RecentOrder(posts: seq<Post>, query: string, i: int, j: int)
    requires 0 <= i < j < |SortedPosts(posts, query, Recent)|
    ensures SortedPosts(posts, query, Recent)[i].createdTime >= SortedPosts(posts, query, Recent)[j].createdTime
  {
    SortDescSorted(Filtered(posts, query), PostKey(Recent));
  }

  /** An empty search shows every post, reordered only. */
  lemma EmptySearchKeepsAll(posts: seq<Post>, order: SortBy)
    ensures multiset(SortedPosts(posts, "", order)) == multiset(posts)
  {
    SortDescPermutes(posts, PostKey(order));
  }

  // ---------------------------------------------------------------------
  // navigation

  /** `searchParams.get(name) || undefined`: an empty parameter reads as absent. */
  function ParamOrAbsent(param: Option<string>): (r: Option<string>)
    ensures r.Some? <==> param.Some? && param.value != ""
    ensures r.Some? ==> r == param
  {
    if param.Some? && param.value != "" then param else None
  }

  /** `handleTabChange(tabId)`: the path navigated to; `encoded` is `encodeURIComponent(tabId)`. */
  function TabUrl(tabId: string, encoded: string): (url: string)
    ensures url == "/community" <==> tabId == "all"
    ensures tabId != "all" ==> |url| == 17 + |encoded| && url[..17] == "/community?topic=" && url[17..] == encoded
  {
    if tabId == "all" then "/community" else "/community?topic=" + encoded
  }
}
