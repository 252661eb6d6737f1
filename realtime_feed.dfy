/**
 * The live feed (src/pages/RealtimeFeed.tsx): every post of the users in scope
 * gets a synthetic timestamp derived from its id, the posts are sorted newest
 * first and then enriched with their comments and owner, as on the trending page.
 *
 * One refresh cycle, `fetchAllPosts`, iterates the `users` mapping that is in
 * scope when the cycle starts, not the one it may fetch: the fetched mapping only
 * becomes page state for later cycles. A cycle that starts with an empty mapping
 * therefore produces an empty feed.
 */
module RealtimeFeed {
  import opened Types
  import opened Pipeline
  import opened StableSort

  /** How far apart the synthetic timestamps of consecutive `id % 1000` values are, in ms. */
  const MinuteMs: int := 60000

  const LoadError: string := "Failed to load feed posts. Please try again later."

  /** `{...post, timestamp: currentTime - (post.id % 1000) * 60000}`. */
  function Stamp(post: Post, currentTime: int): (r: Post)
    ensures r.timestamp == Some(currentTime - (post.id % 1000) * MinuteMs)
    ensures r.id == post.id && r.userid == post.userid
    ensures r.content == post.content && r.imageUrl == post.imageUrl
  {
    post.(timestamp := Some(currentTime - (post.id % 1000) * MinuteMs))
  }

  /** `allPosts.map(...)`: every post stamped, in the same order. */
  function WithTimestamps(posts: seq<Post>, currentTime: int): (r: seq<Post>)
    ensures |r| == |posts|
    ensures forall i :: 0 <= i < |posts| ==> r[i] == Stamp(posts[i], currentTime)
  {
    seq(|posts|, i requires 0 <= i < |posts| => Stamp(posts[i], currentTime))
  }

  /** The sort key of the comparator `(b.timestamp || 0) - (a.timestamp || 0)`. */
  function TimestampKey(post: Post): int {
    match post.timestamp
    case Some(t) => t
    case None => 0
  }

  /** `postsWithTime.sort(...)`: newest synthetic timestamp first, stable. */
  function SortedByTime(allPosts: seq<Post>, currentTime: int): (r: seq<Post>)
    ensures |r| == |allPosts|
  {
    SortDesc(WithTimestamps(allPosts, currentTime), TimestampKey)
  }

  /** The feed one cycle computes from the mapping in scope. */
  function Feed(users: seq<UserEntry>, currentTime: int, postsOf: PostsFetch, commentsOf: CommentsFetch)
    : (r: seq<PostWithComments>)
    ensures |r| == |AllPosts(users, postsOf)|
  {
    EnrichAll(SortedByTime(AllPosts(users, postsOf), currentTime), users, commentsOf)
  }

  /**
   * The sorted posts are the stamped posts rearranged (a permutation), with
   * non-increasing timestamps, that is with non-decreasing `id % 1000`.
   */
  lemma SortedByTimeOrder(allPosts: seq<Post>, currentTime: int)
    ensures multiset(SortedByTime(allPosts, currentTime)) == multiset(WithTimestamps(allPosts, currentTime))
    ensures forall i, j :: 0 <= i < j < |allPosts| ==>
              TimestampKey(SortedByTime(allPosts, currentTime)[i]) >= TimestampKey(SortedByTime(allPosts, currentTime)[j])
    ensures forall i, j :: 0 <= i < j < |allPosts| ==>
              SortedByTime(allPosts, currentTime)[i].id % 1000 <= SortedByTime(allPosts, currentTime)[j].id % 1000
  {
    var stamped := WithTimestamps(allPosts, currentTime);
    var sorted := SortedByTime(allPosts, currentTime);
    SortDescSorted(stamped, TimestampKey);
    forall i | 0 <= i < |sorted|
      ensures TimestampKey(sorted[i]) == currentTime - (sorted[i].id % 1000) * MinuteMs
    {
      assert sorted[i] in multiset(stamped);
      var k :| 0 <= k < |stamped| && stamped[k] == sorted[i];
    }
  }

  /**
   * Posts with the same `id % 1000` share a timestamp, and the sort keeps them in
   * the order they were collected in.
   */
  lemma SortedByTimeStable(allPosts: seq<Post>, currentTime: int, r: nat)
    requires r < 1000
    ensures var t := currentTime - r * MinuteMs;
            KeyFilter(SortedByTime(allPosts, currentTime), TimestampKey, t) ==
            KeyFilter(WithTimestamps(allPosts, currentTime), TimestampKey, t)
    ensures forall p :: p in WithTimestamps(allPosts, currentTime) ==>
              (TimestampKey(p) == currentTime - r * MinuteMs <==> p.id % 1000 == r)
  {
    SortDescStable(WithTimestamps(allPosts, currentTime), TimestampKey, currentTime - r * MinuteMs);
  }

  /** The feed follows the sorted order one-to-one; a failed comment fetch keeps the post. */
  lemma FeedFollowsSortedOrder(users: seq<UserEntry>, currentTime: int, postsOf: PostsFetch, commentsOf: CommentsFetch)
    ensures var sorted := SortedByTime(AllPosts(users, postsOf), currentTime);
            BasePosts(Feed(users, currentTime, postsOf, commentsOf)) == sorted &&
            forall i :: 0 <= i < |sorted| && commentsOf(sorted[i].id).None? ==>
              Feed(users, currentTime, postsOf, commentsOf)[i].comments == [] &&
              Feed(users, currentTime, postsOf, commentsOf)[i].commentCount == 0
  {
    EnrichAllRoundTrip(SortedByTime(AllPosts(users, postsOf), currentTime), users, commentsOf);
  }

  /** A cycle whose mapping in scope is empty produces an empty feed. */
  lemma EmptyMappingEmptyFeed(currentTime: int, postsOf: PostsFetch, commentsOf: CommentsFetch)
    ensures Feed([], currentTime, postsOf, commentsOf) == []
  {
  }

  /** What the page renders. */
  datatype Screen = LoadingScreen | ErrorAlert(message: string)
                  | FeedView(refreshing: bool, lastRefresh: int, posts: seq<PostWithComments>)

  class RealtimeFeedPage {
    var feedPosts: seq<PostWithComments>
    var users: seq<UserEntry>
    var loading: bool
    var error: Option<string>
    var lastRefresh: int

    /** The initial state; `now` stands for `Date.now()` at mount. */
    constructor (now: int)
      ensures feedPosts == [] && users == [] && loading && error == None && lastRefresh == now
    {
      feedPosts := [];
      users := [];
      loading := true;
      error := None;
      lastRefresh := now;
    }

    /**
     * One cycle of `fetchAllPosts`. `scopeUsers` is the mapping the cycle's closure
     * sees; `currentTime` stands for `Date.now()`; `usersResult` is what
     * `api.getUsers()` yields, asked only when the mapping in scope is empty,
     * `None` for any failure outside a per-item `try` before the feed is set.
     */
    method FetchAllPosts(scopeUsers: seq<UserEntry>, currentTime: int, usersResult: Option<seq<UserEntry>>,
                         postsOf: PostsFetch, commentsOf: CommentsFetch)
      modifies this
      ensures !loading
      ensures scopeUsers == [] && usersResult.None? ==>
                error == Some(LoadError) &&
                feedPosts == old(feedPosts) && users == old(users) && lastRefresh == old(lastRefresh)
      ensures scopeUsers != [] || usersResult.Some? ==>
                error == None &&
                feedPosts == Feed(scopeUsers, currentTime, postsOf, commentsOf) &&
                lastRefresh == currentTime &&
                users == (if scopeUsers == [] then usersResult.value else old(users))
    {
      error := None;
      var failed := false;
      if |scopeUsers| == 0 {
        match usersResult {
          case Some(fetched) =>
            users := fetched;
          case None =>
            failed := true;
        }
      }
      if failed {
        error := Some(LoadError);
      } else {
        var allPosts := CollectPosts(scopeUsers, postsOf);
        var sortedPosts := SortDesc(WithTimestamps(allPosts, currentTime), TimestampKey);
        var postsWithComments := EnrichPosts(sortedPosts, scopeUsers, commentsOf);
        feedPosts := postsWithComments;
        lastRefresh := currentTime;
      }
      loading := false;
    }

    /** The first cycle, started on mount: its closure sees the initial, empty mapping. */
    method InitialLoad(currentTime: int, usersResult: Option<seq<UserEntry>>,
                       postsOf: PostsFetch, commentsOf: CommentsFetch)
      modifies this
      ensures !loading
      ensures usersResult.Some? ==>
                error == None && feedPosts == [] && users == usersResult.value && lastRefresh == currentTime
      ensures usersResult.None? ==>
                error == Some(LoadError) &&
                feedPosts == old(feedPosts) && users == old(users) && lastRefresh == old(lastRefresh)
    {
      loading := true;
      FetchAllPosts([], currentTime, usersResult, postsOf, commentsOf);
      EmptyMappingEmptyFeed(currentTime, postsOf, commentsOf);
    }

    /** `handleRefresh`: a cycle over the mapping currently in state. */
    method Refresh(currentTime: int, usersResult: Option<seq<UserEntry>>,
                   postsOf: PostsFetch, commentsOf: CommentsFetch)
      modifies this
      ensures !loading
      ensures old(users) != [] ==>
                error == None && users == old(users) && lastRefresh == currentTime &&
                feedPosts == Feed(old(users), currentTime, postsOf, commentsOf)
      ensures old(users) == [] && usersResult.Some? ==>
                error == None && users == usersResult.value && feedPosts == [] && lastRefresh == currentTime
      ensures old(users) == [] && usersResult.None? ==>
                error == Some(LoadError) &&
                feedPosts == old(feedPosts) && users == old(users) && lastRefresh == old(lastRefresh)
    {
      loading := true;
      FetchAllPosts(users, currentTime, usersResult, postsOf, commentsOf);
      EmptyMappingEmptyFeed(currentTime, postsOf, commentsOf);
    }

    /** The spinner and the error alert take the page only while there are no posts to show. */
    function View(): (s: Screen)
      reads this
      ensures s == LoadingScreen <==> loading && feedPosts == []
      ensures s.ErrorAlert? <==> !loading && error.Some? && feedPosts == []
      ensures s.ErrorAlert? ==> s == ErrorAlert(error.value)
      ensures s.FeedView? ==> s == FeedView(loading, lastRefresh, feedPosts)
    {
      if loading && |feedPosts| == 0 then LoadingScreen
      else if error.Some? && |feedPosts| == 0 then ErrorAlert(error.value)
      else FeedView(loading, lastRefresh, feedPosts)
    }
  }

  /**
   * Mount, the first load, then one timer tick. The timer's callback is the one
   * created at mount, so its mapping in scope is the initial empty one: the feed
   * stays empty even though the first load stored the fetched users.
   */
  method MountThenTimerTick(mountTime: int, tickTime: int, fetched: seq<UserEntry>,
                            postsOf: PostsFetch, commentsOf: CommentsFetch)
    returns (feed: seq<PostWithComments>, storedUsers: seq<UserEntry>)
    ensures feed == [] && storedUsers == fetched
  {
    var page := new RealtimeFeedPage(mountTime);
    page.InitialLoad(mountTime, Some(fetched), postsOf, commentsOf);
    page.FetchAllPosts([], tickTime, Some(fetched), postsOf, commentsOf);
    EmptyMappingEmptyFeed(tickTime, postsOf, commentsOf);
    feed, storedUsers := page.feedPosts, page.users;
  }
}
