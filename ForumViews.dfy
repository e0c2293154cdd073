/**
 * The display logic of the forum lists: the post list
 * (vermi-backend/src/components/forum/PostList.tsx) with its open/closed
 * toggles, refresh key, render precedence, comment-count label, topic
 * badges and date rule; the comment list
 * (vermi-backend/src/components/forum/CommentList.tsx); and the avatar
 * initials (vermi-backend/src/ui/userAvatar.tsx).  Times are milliseconds
 * since the epoch; the date texts themselves (`format`,
 * `formatDistanceToNow`) are not modelled, only which of the two is used.
 */
module ForumViews {
  import opened Base
  import opened Sorting
  import opened Forum

  // ---------------------------------------------------------------------
  // render precedence, shared by both lists

  /** What a list renders: a loading text, the error, an empty-list text, or its items. */
  datatype ListView<T> = LoadingText(text: string) | ErrorText(message: string) | EmptyText(text: string) | Items(items: seq<T>)

  /** `if (loading) …; if (error) …; if (!items.length) …; else the list` */
  function Precedence<T>(loading: bool, error: Option<string>, items: seq<T>, loadingText: string, emptyText: string)
    : (v: ListView<T>)
    ensures v.LoadingText? <==> loading
    ensures v.ErrorText? <==> !loading && error.Some? && error.value != ""
    ensures v.ErrorText? ==> v.message == error.value
    ensures v.EmptyText? <==> !loading && (error.None? || error.value == "") && items == []
    ensures v.Items? ==> v.items == items && items != []
  {
    if loading then LoadingText(loadingText)
    else if error.Some? && error.value != "" then ErrorText(error.value)
    else if items == [] then EmptyText(emptyText)
    else Items(items)
  }

  function PostListView(loading: bool, error: Option<string>, posts: seq<Post>): ListView<Post> {
    Precedence(loading, error, posts, "Loading posts...", "No posts found")
  }

  // ---------------------------------------------------------------------
  // post list state

  /** `prev === id ? null : id` */
  function Toggled(prev: Option<int>, id: int): (r: Option<int>)
    ensures r == None <==> prev == Some(id)
    ensures r.Some? ==> r == Some(id)
  {
    if prev == Some(id) then None else Some(id)
  }

  /** Toggling opens the given post and closes every other one, unless it was the open one. */
  lemma ToggledOpens(prev: Option<int>, id: int, other: int)
    ensures Toggled(prev, id) == Some(other) <==> other == id && prev != Some(id)
  {
  }

  /** Toggling the same post twice leaves it open only if it was open before. */
  lemma ToggledTwice(prev: Option<int>, id: int)
    ensures Toggled(Toggled(prev, id), id) == (if prev == Some(id) then Some(id) else None)
  {
  }

  class PostListState {
    /** The post whose comments are shown, if any: at most one. */
    var activeComments: Option<int>
    /** The post whose reply form is shown, if any: at most one. */
    var activeCommentForm: Option<int>
    /** The key that remounts the shown comment list. */
    var refreshKey: int

    constructor ()
      ensures activeComments == None && activeCommentForm == None && refreshKey == 0
    {
      activeComments, activeCommentForm, refreshKey := None, None, 0;
    }

    /** `triggerRefresh` */
    method TriggerRefresh()
      modifies this`refreshKey
      ensures refreshKey == old(refreshKey) + 1
    {
      refreshKey := refreshKey + 1;
    }

    /** `toggleComments(postId)`; the reply form is not touched. */
    method ToggleComments(postId: int)
      modifies this`activeComments
      ensures activeComments == Toggled(old(activeComments), postId)
    {
      activeComments := Toggled(activeComments, postId);
    }

    /** `toggleCommentForm(postId)`; the comment section is not touched. */
    method ToggleCommentForm(postId: int)
      modifies this`activeCommentForm
      ensures activeCommentForm == Toggled(old(activeCommentForm), postId)
    {
      activeCommentForm := Toggled(activeCommentForm, postId);
    }

    /**
     * The reply form of a post is rendered inside its open comment section,
     * when its form is active and the signed-in user has a (truthy) user id.
     */
    predicate ReplyFormShown(postId: int, userId: Option<int>)
      reads this
    {
      activeComments == Some(postId) && activeCommentForm == Some(postId) && userId.Some? && userId.value != 0
    }
  }

  /** A shown reply form sits in its post's open comment section, and no other post shows one. */
  lemma ReplyFormExclusive(s: PostListState, postId: int, other: int, userId: Option<int>)
    requires s.ReplyFormShown(postId, userId)
    ensures s.activeComments == Some(postId)
    ensures s.ReplyFormShown(other, userId) <==> other == postId
  {
  }

  /** Without a truthy user id no reply form is shown. */
  lemma NoReplyFormSignedOut(s: PostListState, postId: int)
    ensures !s.ReplyFormShown(postId, None) && !s.ReplyFormShown(postId, Some(0))
  {
  }

  // ---------------------------------------------------------------------
  // post card

  /** `{comments_count || 0} comment{comments_count !== 1 ? 's' : ''}` */
  function CommentLabel(count: Option<nat>): (text: string)
    ensures |text| > 0
    ensures text[|text| - 1] == 's' <==> count != Some(1)
  {
    var n := NatToString(OrZero(count));
    var suffix := if count != Some(1) then " comments" else " comment";
    n + suffix
  }

  /** The label starts with the count, a missing count shown as 0. */
  lemma CommentLabelCount(count: Option<nat>)
    ensures CommentLabel(count)[..|NatToString(OrZero(count))|] == NatToString(OrZero(count))
    ensures count == None ==> CommentLabel(count) == "0 comments"
  {
    if count == None {
      assert NatToString(0) == "0";
    }
  }

  const TopicIcons: map<string, string> :=
    map["Composting" := "♻️", "Plants" := "🪴", "Tank Maintenance" := "🛠️", "Community" := "👥"]

  const TopicStyles: map<string, string> :=
    map["Composting" := "bg-amber-100 text-amber-800", "Plants" := "bg-emerald-100 text-emerald-800",
        "Tank Maintenance" := "bg-gray-200 text-gray-800", "Community" := "bg-pink-100 text-pink-800"]

  const FallbackStyle := "bg-slate-100 text-slate-800"

  /** A topic or sub-topic badge: its style class and icon. */
  datatype Badge = Badge(text: string, style: string, icon: string)

  /** The badge of a topic; none for an empty one; unknown topics get the slate style and no icon. */
  function TopicBadge(topic: string): (b: Option<Badge>)
    ensures b.None? <==> topic == ""
    ensures b.Some? ==> b.value.text == topic
    ensures b.Some? && topic !in TopicStyles ==> b.value.style == FallbackStyle && b.value.icon == ""
    ensures b.Some? && topic in TopicStyles ==> b.value.style == TopicStyles[topic] && b.value.icon == TopicIcons[topic]
  {
    if topic == "" then None
    else
      var style := if topic in TopicStyles && TopicStyles[topic] != "" then TopicStyles[topic] else FallbackStyle;
      var icon := if topic in TopicIcons && TopicIcons[topic] != "" then TopicIcons[topic] else "";
      Some(Badge(topic, style, icon))
  }

  /** Both tables name the same four topics. */
  lemma TopicTablesAgree()
    ensures TopicIcons.Keys == TopicStyles.Keys == {"Composting", "Plants", "Tank Maintenance", "Community"}
  {
  }

  /** The author line: name and `location_name || 'Unknown Location'`, shown only with an author. */
  function AuthorLine(author: Option<Author>): (line: Option<(string, string)>)
    ensures line.Some? <==> author.Some?
    ensures line.Some? ==> line.value.0 == author.value.username
    ensures line.Some? && (author.value.locationName.None? || author.value.locationName.value == "") ==>
              line.value.1 == "Unknown Location"
    ensures line.Some? && author.value.locationName.Some? && author.value.locationName.value != "" ==>
              line.value.1 == author.value.locationName.value
  {
    if author.None? then None
    else
      var loc := author.value.locationName;
      Some((author.value.username, if loc.Some? && loc.value != "" then loc.value else "Unknown Location"))
  }

  // ---------------------------------------------------------------------
  // the date rule, shared by both lists

  const DayMillis := 86400000

  datatype DateStyle = Absolute | Relative

  /** `isBefore(date, subDays(now, 1)) ? format(...) : formatDistanceToNow(...)` */
  function DateStyleAt(created: int, now: int): (d: DateStyle)
    ensures d == Absolute <==> created < now - DayMillis
  {
    if created < now - DayMillis then Absolute else Relative
  }

  /** Once a date is shown absolute it stays so as time passes. */
  lemma AbsoluteStaysAbsolute(created: int, now: int, later: int)
    requires now <= later && DateStyleAt(created, now) == Absolute
    ensures DateStyleAt(created, later) == Absolute
  {
  }

  // ---------------------------------------------------------------------
  // comment list

  /** The comparator as written, `(b, a) => time(a) - time(b)`: newest first. */
  function CommentsAsWritten(comments: seq<Comment>): seq<Comment> {
    SortDesc(comments, (c: Comment) => c.createdTime)
  }

  /** `s` back to front. */
  function Reversed<T>(s: seq<T>): (r: seq<T>)
    ensures |r| == |s|
    ensures forall i :: 0 <= i < |s| ==> r[i] == s[|s| - 1 - i]
  {
    if s == [] then [] else [s[|s| - 1]] + Reversed(s[..|s| - 1])
  }

  /** Newest first, and a permutation of the comments. */
  lemma CommentsAsWrittenSpec(comments: seq<Comment>)
    ensures forall i, j :: 0 <= i < j < |CommentsAsWritten(comments)| ==>
              CommentsAsWritten(comments)[i].createdTime >= CommentsAsWritten(comments)[j].createdTime
    ensures multiset(CommentsAsWritten(comments)) == multiset(comments)
  {
    var key := (c: Comment) => c.createdTime;
    SortDescSorted(comments, key);
    SortDescPermutes(comments, key);
  }

  /**
   * Comments fetched oldest first, with distinct times, come out of the
   * written comparator in exactly the reverse order.
   */
  lemma {:induction false} CommentsAsWrittenReverses(comments: seq<Comment>)
    requires forall i, j :: 0 <= i < j < |comments| ==> comments[i].createdTime < comments[j].createdTime
    ensures CommentsAsWritten(comments) == Reversed(comments)
  {
    if comments != [] {
      var n := |comments|;
      var init := comments[..n - 1];
      CommentsAsWrittenReverses(init);
      if n > 1 {
        assert Reversed(init)[0] == comments[n - 2];
      }
    }
  }

  /** The order the source's remark asks for: oldest first, equal times kept in fetch order. */
  function CommentsOldestFirst(comments: seq<Comment>): seq<Comment> {
    SortDesc(comments, (c: Comment) => -c.createdTime)
  }

  /** Oldest first, and a permutation of the comments. */
  lemma CommentsOldestFirstSpec(comments: seq<Comment>)
    ensures forall i, j :: 0 <= i < j < |CommentsOldestFirst(comments)| ==>
              CommentsOldestFirst(comments)[i].createdTime <= CommentsOldestFirst(comments)[j].createdTime
    ensures multiset(CommentsOldestFirst(comments)) == multiset(comments)
  {
    var key := (c: Comment) => -c.createdTime;
    SortDescSorted(comments, key);
    SortDescPermutes(comments, key);
  }

  /** The hook already fetches oldest first; the oldest-first sort then leaves the list as it is. */
  lemma OldestFirstKeepsFetchOrder(comments: seq<Comment>)
    requires forall i, j :: 0 <= i < j < |comments| ==> comments[i].createdTime <= comments[j].createdTime
    ensures CommentsOldestFirst(comments) == comments
  {
    var key := (c: Comment) => -c.createdTime;
    assert SortedDesc(comments, key);
    StableSortIsUnique(comments, comments, key);
  }

  /** What the comment list renders as written: the comments newest first. */
  function CommentListViewAsWritten(loading: bool, error: Option<string>, comments: seq<Comment>): (v: ListView<Comment>)
    ensures v.LoadingText? <==> loading
    ensures v.ErrorText? <==> !loading && error.Some? && error.value != ""
    ensures v.EmptyText? <==> !loading && (error.None? || error.value == "") && comments == []
    ensures v.Items? ==> multiset(v.items) == multiset(comments)
    ensures v.Items? ==> forall i, j :: 0 <= i < j < |v.items| ==> v.items[i].createdTime >= v.items[j].createdTime
  {
    CommentsAsWrittenSpec(comments);
    Precedence(loading, error, CommentsAsWritten(comments), "Loading comments...", "No comments yet")
  }

  /** The corrected comment list: the same precedence, the comments oldest first. */
  function CommentListViewIntended(loading: bool, error: Option<string>, comments: seq<Comment>): (v: ListView<Comment>)
    ensures v.LoadingText? <==> loading
    ensures v.ErrorText? <==> !loading && error.Some? && error.value != ""
    ensures v.EmptyText? <==> !loading && (error.None? || error.value == "") && comments == []
    ensures v.Items? ==> multiset(v.items) == multiset(comments)
    ensures v.Items? ==> forall i, j :: 0 <= i < j < |v.items| ==> v.items[i].createdTime <= v.items[j].createdTime
  {
    CommentsOldestFirstSpec(comments);
    Precedence(loading, error, CommentsOldestFirst(comments), "Loading comments...", "No comments yet")
  }

  /**
   * Loaded comments as the hook fetches them, oldest first with distinct
   * times: the page as written shows them back to front, the corrected one
   * in fetch order.
   */
  lemma LoadedCommentsOrder(comments: seq<Comment>)
    requires comments != []
    requires forall i, j :: 0 <= i < j < |comments| ==> comments[i].createdTime < comments[j].createdTime
    ensures CommentListViewAsWritten(false, None, comments) == Items(Reversed(comments))
    ensures CommentListViewIntended(false, None, comments) == Items(comments)
  {
    CommentsAsWrittenReverses(comments);
    OldestFirstKeepsFetchOrder(comments);
  }

  // ---------------------------------------------------------------------
  // avatar

  /** The first character of each non-empty piece (`n[0]` of an empty piece joins as nothing). */
  function Firsts(parts: seq<string>): (r: string)
    ensures |r| <= |parts|
  {
    if parts == [] then ""
    else (if parts[0] != "" then [parts[0][0]] else "") + Firsts(parts[1..])
  }

  /** `username ? username.split(' ').map(n => n[0]).join('').toUpperCase() : '?'` */
  function Initials(username: string): string {
    if username == "" then "?" else Upper(Firsts(Split(username, ' ')))
  }

  /** One initial per word for words joined by single spaces. */
  lemma InitialsOfWords(words: seq<string>)
    requires words != [] && forall k :: 0 <= k < |words| ==> words[k] != "" && ' ' !in words[k]
    ensures Initials(Join(words, ' ')) == Upper(seq(|words|, k requires 0 <= k < |words| => words[k][0]))
  {
    SplitJoin(words, ' ');
    assert Join(words, ' ') != "" by {
      JoinStartsWithFirst(words);
    }
    FirstsOfWords(words);
  }

  lemma {:induction false} FirstsOfWords(words: seq<string>)
    requires forall k :: 0 <= k < |words| ==> words[k] != ""
    ensures Firsts(words) == seq(|words|, k requires 0 <= k < |words| => words[k][0])
  {
    if words != [] {
      FirstsOfWords(words[1..]);
    }
  }

  lemma JoinStartsWithFirst(words: seq<string>)
    requires words != [] && words[0] != ""
    ensures |Join(words, ' ')| >= |words[0]|
  {
  }

  /** A leading space adds an empty piece, which contributes nothing. */
  lemma LeadingSpaceIgnored(username: string)
    requires username != ""
    ensures Initials(" " + username) == Initials(username)
  {
    SplitAfterPiece("", username, ' ');
    assert "" + [' '] + username == " " + username;
  }

  /** At most one initial per space-separated piece. */
  lemma InitialsBound(username: string)
    requires username != ""
    ensures |Initials(username)| <= Count(username, ' ') + 1
  {
    SplitCount(username, ' ');
  }

  /** Worked example: `"jane  doe"` (two spaces) gives `"JD"`; the empty word between the spaces adds nothing. */
  lemma InitialsExample(name: string)
    requires name == "jane  doe"
    ensures Initials(name) == "JD"
  {
    var parts := ["jane", "", "doe"];
    SplitExample(name);
    assert parts[1..] == ["", "doe"] && parts[1..][1..] == ["doe"] && ["doe"][1..] == [];
    assert Firsts(parts) == "jd";
    assert Upper("jd") == "JD";
  }

  lemma SplitExample(name: string)
    requires name == "jane  doe"
    ensures Split(name, ' ') == ["jane", "", "doe"]
  {
    assert name == "jane" + [' '] + (" doe");
    SplitNoSeparator("jane", ' ');
    SplitAfterPiece("jane", " doe", ' ');
    assert "" + [' '] + "doe" == " doe";
    SplitAfterPiece("", "doe", ' ');
    SplitNoSeparator("doe", ' ');
  }
}
