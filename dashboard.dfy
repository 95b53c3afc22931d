/**
 * The farmer dashboard: bullet lists rendered from AI text, the post list
 * after a delete, the load sequence with its no-token branch, and the
 * defaults for missing AI advice and news.
 */
module Dashboard {
  import opened Basics
  import opened Text

  // ------------------------------------------------------------ renderList

  /** One rendered list entry: the empty string (nothing rendered) for a blank segment, else an item with the trimmed text. */
  datatype ListEntry = Blank | Item(text: string)

  function Entry(segment: string): ListEntry {
    var t := Strip(segment, JavaScript);
    if t == "" then Blank else Item(t)
  }

  /** renderList: `None` (null) for absent or empty text, else one entry per '*'-separated segment. */
  function RenderList(text: Option<string>): (r: Option<seq<ListEntry>>)
    ensures r.None? <==> text.None? || text.value == ""
    ensures r.Some? ==> |r.value| == |Split(text.value, '*')| == Occurrences(text.value, '*') + 1
    ensures r.Some? ==> forall i :: 0 <= i < |r.value| ==> r.value[i] == Entry(Split(text.value, '*')[i])
  {
    if text.None? || text.value == "" then None
    else
      SplitShape(text.value, '*');
      var segments := Split(text.value, '*');
      Some(seq(|segments|, i requires 0 <= i < |segments| => Entry(segments[i])))
  }

  /**
   * A segment renders blank exactly when it is all whitespace; otherwise its
   * item is non-empty, has no '*' and no whitespace at either end, and takes
   * its characters from the segment.
   */
  lemma EntrySpec(text: string, i: int)
    requires 0 <= i < |Split(text, '*')|
    ensures var segment := Split(text, '*')[i];
      && (Entry(segment) == Blank <==> forall k :: 0 <= k < |segment| ==> IsSpace(segment[k], JavaScript))
      && (Entry(segment).Item? ==>
            && Entry(segment).text != ""
            && '*' !in Entry(segment).text
            && !IsSpace(Entry(segment).text[0], JavaScript)
            && !IsSpace(Entry(segment).text[|Entry(segment).text| - 1], JavaScript)
            && forall ch :: ch in Entry(segment).text ==> ch in segment)
  {
    SplitShape(text, '*');
    var segment := Split(text, '*')[i];
    EntryOfSegment(segment);
    assert '*' !in segment;
  }

  /** The rendered entry of any segment: blank exactly when it is all whitespace, else its trimmed, non-empty text. */
  lemma EntryOfSegment(segment: string)
    ensures Entry(segment) == Blank <==> forall k :: 0 <= k < |segment| ==> IsSpace(segment[k], JavaScript)
    ensures Entry(segment).Item? ==>
      && Entry(segment).text == Strip(segment, JavaScript) != ""
      && !IsSpace(Entry(segment).text[0], JavaScript)
      && !IsSpace(Entry(segment).text[|Entry(segment).text| - 1], JavaScript)
      && forall ch :: ch in Entry(segment).text ==> ch in segment
  {
  }

  /** JavaScript's `trim` keeps a leading U+001C. */
  lemma TrimKeepsSeparatorControl()
    ensures Strip([28 as char] + "A", JavaScript) == [28 as char] + "A"
  {
    var s := [28 as char] + "A";
    assert !IsSpace(s[0], JavaScript) && !IsSpace(s[1], JavaScript);
  }

  /** The segments the entries come from join back, with '*', into the whole text. */
  lemma SegmentsCoverText(text: string)
    ensures Join(Split(text, '*'), '*') == text
  {
    JoinSplit(text, '*');
  }

  // -------------------------------------------------------------- the posts

  datatype Post = Post(id: int, title: string)

  /** `prev.filter((p) => p.id !== postId)`: each other post as often as before, in order, and no post with that id. */
  function WithoutPost(posts: seq<Post>, postId: int): (r: seq<Post>)
    ensures forall p :: multiset(r)[p] == if p.id != postId then multiset(posts)[p] else 0
    ensures Subsequence(r, posts)
  {
    if posts == [] then []
    else
      var rest := WithoutPost(posts[1..], postId);
      FilterConsCount(posts, (p: Post) => p.id != postId, rest);
      if posts[0].id != postId then [posts[0]] + rest else rest
  }

  /** What the counts say element by element: no kept post has the id, and every other post is kept. */
  lemma WithoutPostMembers(posts: seq<Post>, postId: int)
    ensures forall i :: 0 <= i < |WithoutPost(posts, postId)| ==> WithoutPost(posts, postId)[i].id != postId
    ensures forall p :: p in posts && p.id != postId ==> p in WithoutPost(posts, postId)
  {
    var r := WithoutPost(posts, postId);
    forall i | 0 <= i < |r| ensures r[i].id != postId {
      assert multiset(r)[r[i]] > 0;
    }
  }

  /** Deleting an id no post has leaves the list as it was. */
  lemma {:induction false} WithoutPostNoMatch(posts: seq<Post>, postId: int)
    requires forall i :: 0 <= i < |posts| ==> posts[i].id != postId
    ensures WithoutPost(posts, postId) == posts
  {
    if posts != [] {
      var tail := posts[1..];
      assert forall i :: 0 <= i < |tail| ==> tail[i] == posts[i + 1];
      WithoutPostNoMatch(tail, postId);
      assert posts == [posts[0]] + tail;
    }
  }

  // ------------------------------------------------------- the page's state

  const NotLoggedIn: string := "You are not logged in."
  const DashboardUnavailable: string := "Could not load dashboard data."
  const NoAdvice: string := "No advice available."
  const NoNews: string := "No news available."
  const LoginPath: string := "/login"

  /** The /dashboard-data reply; `error` is the reply's own error field. */
  datatype DashboardData = DashboardData(hasUser: bool, error: Option<string>)

  /** The /dashboard-ai-content reply, fields absent or present. */
  datatype AiReply = AiReply(advice: Option<string>, news: Option<string>)

  /** `value || fallback` for an optional string. */
  function OrDefault(value: Option<string>, fallback: string): (r: string)
    ensures value.Some? && value.value != "" ==> r == value.value
    ensures value.None? || value.value == "" ==> r == fallback
  {
    if value.Some? && value.value != "" then value.value else fallback
  }

  /** What the page renders. */
  datatype Screen = Loader | ErrorBox(message: string) | Page

  class DashboardPage {
    var dashboardData: Option<DashboardData>
    var advice: string
    var news: string
    var posts: seq<Post>
    var isLoading: bool
    var aiLoading: bool
    var error: Option<string>
    /** The route passed to `navigate`, if any. */
    var navigatedTo: Option<string>

    constructor()
      ensures dashboardData.None? && advice == "" && news == "" && posts == []
      ensures isLoading && aiLoading && error.None? && navigatedTo.None?
    {
      dashboardData, advice, news, posts := None, "", "", [];
      isLoading, aiLoading, error, navigatedTo := true, true, None, None;
    }

    /**
     * loadAllData. Without a token: the fixed error, loading ends, the page
     * navigates to the login route and nothing is fetched. With one: the
     * dashboard reply (`None` when the request fails) and the posts reply
     * (`None` when it fails) are applied, then loading ends.
     */
    method LoadAllData(token: Option<string>, data: Option<DashboardData>, myPosts: Option<seq<Post>>)
      returns (fetched: bool)
      modifies this
      ensures fetched <==> token.Some? && token.value != ""
      ensures !isLoading
      ensures advice == old(advice) && news == old(news) && aiLoading == old(aiLoading)
      ensures !fetched ==>
        && error == Some(NotLoggedIn) && navigatedTo == Some(LoginPath)
        && dashboardData == old(dashboardData) && posts == old(posts)
      ensures fetched ==>
        && navigatedTo == old(navigatedTo)
        && dashboardData == (if data.Some? then data else old(dashboardData))
        && error == (if data.None? then Some(DashboardUnavailable)
                     else if data.value.error.Some? && data.value.error.value != "" then data.value.error
                     else None)
        && posts == (if myPosts.Some? then myPosts.value else old(posts))
    {
      isLoading := true;
      if token.None? || token.value == "" {
        error := Some(NotLoggedIn);
        isLoading := false;
        navigatedTo := Some(LoginPath);
        return false;
      }
      fetched := true;
      if data.Some? {
        dashboardData := data;
        error := if data.value.error.Some? && data.value.error.value != "" then data.value.error else None;
      } else {
        error := Some(DashboardUnavailable);
      }
      if myPosts.Some? {
        posts := myPosts.value;
      }
      isLoading := false;
    }

    /**
     * fetchAIContent, run only with a token; a missing or empty field is
     * replaced by its fixed text, and a failed request (`None`) keeps the old
     * content.
     */
    method FetchAiContent(token: Option<string>, reply: Option<AiReply>)
      modifies this
      ensures dashboardData == old(dashboardData) && posts == old(posts) && isLoading == old(isLoading)
      ensures error == old(error) && navigatedTo == old(navigatedTo)
      ensures token.None? || token.value == "" ==>
        advice == old(advice) && news == old(news) && aiLoading == old(aiLoading)
      ensures token.Some? && token.value != "" ==>
        && !aiLoading
        && advice == (if reply.Some? then OrDefault(reply.value.advice, NoAdvice) else old(advice))
        && news == (if reply.Some? then OrDefault(reply.value.news, NoNews) else old(news))
    {
      if token.Some? && token.value != "" {
        aiLoading := true;
        if reply.Some? {
          advice := OrDefault(reply.value.advice, NoAdvice);
          news := OrDefault(reply.value.news, NoNews);
        }
        aiLoading := false;
      }
    }

    /** handleDelete: a successful delete drops every post with that id; a failed one changes nothing. */
    method Delete(postId: int, succeeded: bool)
      modifies this
      ensures posts == (if succeeded then WithoutPost(old(posts), postId) else old(posts))
      ensures dashboardData == old(dashboardData) && advice == old(advice) && news == old(news)
      ensures isLoading == old(isLoading) && aiLoading == old(aiLoading)
      ensures error == old(error) && navigatedTo == old(navigatedTo)
    {
      if succeeded {
        posts := WithoutPost(posts, postId);
      }
    }

    /** The early returns of the render: loader, then an error without a user, then missing data. */
    function View(): (s: Screen)
      reads this
      ensures s == Loader <==> isLoading
      ensures s.ErrorBox? && error.Some? && error.value != "" && !(dashboardData.Some? && dashboardData.value.hasUser)
        ==> s.message == error.value
      ensures s == Page <==>
        !isLoading && dashboardData.Some? && (dashboardData.value.hasUser || error.None? || error.value == "")
      ensures !isLoading && dashboardData.None? && (error.None? || error.value == "") ==> s == ErrorBox(DashboardUnavailable)
    {
      if isLoading then Loader
      else if error.Some? && error.value != "" && !(dashboardData.Some? && dashboardData.value.hasUser) then
        ErrorBox(error.value)
      else if dashboardData.None? then ErrorBox(DashboardUnavailable)
      else Page
    }
  }

  /** Without a token the page ends on the not-logged-in error box. */
  lemma NoTokenShowsLoginError(page: DashboardPage)
    requires !page.isLoading && page.error == Some(NotLoggedIn)
    requires page.dashboardData.None?
    ensures page.View() == ErrorBox(NotLoggedIn)
  {
  }
}
