/**
 * The trending-posts page (src/pages/TrendingPosts.tsx): every user's posts are
 * collected, each is enriched with its comments, and the page keeps exactly the
 * posts whose comment count is the largest one.
 */
module TrendingPosts {
  import opened Types
  import opened Pipeline

  const LoadError: string := "Failed to load trending posts. Please try again later."

  /**
   * `Math.max(...posts.map(post => post.commentCount))`. Over an empty list JavaScript
   * yields `-Infinity`, a value no count equals; it is `None` here.
   */
  function MaxCommentCount(posts: seq<PostWithComments>): (m: Option<nat>)
    ensures m.None? <==> posts == []
    ensures m.Some? ==> forall i :: 0 <= i < |posts| ==> posts[i].commentCount <= m.value
    ensures m.Some? ==> exists i :: 0 <= i < |posts| && posts[i].commentCount == m.value
    decreases |posts|
  {
    if posts == [] then None
    else
      var first := posts[0].commentCount;
      match MaxCommentCount(posts[1..])
      case None => Some(first)
      case Some(rest) =>
        assert forall i :: 1 <= i < |posts| ==> posts[i] == posts[1..][i - 1];
        Some(if first >= rest then first else rest)
  }

  /** `post.commentCount === maxCommentCount`. */
  predicate AtMax(post: PostWithComments, max: Option<nat>) {
    max == Some(post.commentCount)
  }

  /** `.filter(post => post.commentCount === maxCommentCount)`. */
  function KeepAtMax(posts: seq<PostWithComments>, max: Option<nat>): (r: seq<PostWithComments>)
    ensures forall p :: p in r ==> AtMax(p, max)
    ensures forall p :: multiset(r)[p] == if AtMax(p, max) then multiset(posts)[p] else 0
    decreases |posts|
  {
    if posts == [] then []
    else
      assert posts == [posts[0]] + posts[1..];
      (if AtMax(posts[0], max) then [posts[0]] else []) + KeepAtMax(posts[1..], max)
  }

  /** Steps 4 and 5: the posts that reach the maximum comment count. */
  function Trending(postsWithComments: seq<PostWithComments>): seq<PostWithComments>
  {
    KeepAtMax(postsWithComments, MaxCommentCount(postsWithComments))
  }

  /** `a` is `b` with some elements left out, the rest in their order. */
  predicate IsSubsequence<T(==)>(a: seq<T>, b: seq<T>)
    decreases |b|
  {
    if a == [] then true
    else if b == [] then false
    else if a[0] == b[0] then IsSubsequence(a[1..], b[1..])
    else IsSubsequence(a, b[1..])
  }

  lemma {:induction false} SubsequenceDropHead<T>(a: seq<T>, b: seq<T>)
    requires a != [] && IsSubsequence(a, b)
    ensures IsSubsequence(a[1..], b)
    decreases |b|, 0
  {
    assert b == [b[0]] + b[1..];
    if a[0] != b[0] {
      SubsequenceDropHead(a, b[1..]);
    }
    SubsequenceCons(b[0], a[1..], b[1..]);
  }

  lemma {:induction false} SubsequenceCons<T>(x: T, a: seq<T>, b: seq<T>)
    requires IsSubsequence(a, b)
    ensures IsSubsequence(a, [x] + b)
    decreases |b|, 1
  {
    assert ([x] + b)[1..] == b;
    if a != [] && a[0] == x {
      SubsequenceDropHead(a, b);
    }
  }

  /** Filtering keeps the survivors in their order. */
  lemma {:induction false} KeepAtMaxIsSubsequence(posts: seq<PostWithComments>, max: Option<nat>)
    ensures IsSubsequence(KeepAtMax(posts, max), posts)
    decreases |posts|
  {
    if posts != [] {
      var rest := KeepAtMax(posts[1..], max);
      KeepAtMaxIsSubsequence(posts[1..], max);
      if AtMax(posts[0], max) {
        assert KeepAtMax(posts, max) == [posts[0]] + rest;
        assert ([posts[0]] + rest)[1..] == rest;
      } else {
        assert KeepAtMax(posts, max) == rest;
        if rest != [] {
          assert rest[0] in rest;
          assert rest[0] != posts[0];
        }
      }
    }
  }

  /**
   * Every trending post has the maximum comment count, every post that has it is
   * trending, and the trending posts keep their order: an order-preserving
   * subsequence that misses no post at the maximum. An empty enriched list gives
   * an empty trending list, and only it does.
   */
  lemma TrendingProperties(postsWithComments: seq<PostWithComments>)
    ensures forall p :: p in Trending(postsWithComments) ==>
              forall q :: q in postsWithComments ==> q.commentCount <= p.commentCount
    ensures forall p :: p in postsWithComments && MaxCommentCount(postsWithComments) == Some(p.commentCount) ==>
              p in Trending(postsWithComments)
    ensures IsSubsequence(Trending(postsWithComments), postsWithComments)
    ensures Trending(postsWithComments) == [] <==> postsWithComments == []
  {
    var max := MaxCommentCount(postsWithComments);
    var trending := Trending(postsWithComments);
    KeepAtMaxIsSubsequence(postsWithComments, max);
    forall p | p in postsWithComments && max == Some(p.commentCount)
      ensures p in trending
    {
      assert multiset(trending)[p] == multiset(postsWithComments)[p];
    }
    if postsWithComments != [] {
      var i :| 0 <= i < |postsWithComments| && postsWithComments[i].commentCount == max.value;
      assert postsWithComments[i] in trending;
    }
  }

  /** The subtitle's count: the first trending post's `commentCount`, or 0. */
  function SubtitleCount(trending: seq<PostWithComments>): nat
  {
    if |trending| > 0 then trending[0].commentCount else 0
  }

  /** The subtitle reports the maximum comment count, and 0 when there are no posts. */
  lemma SubtitleIsMax(postsWithComments: seq<PostWithComments>)
    ensures MaxCommentCount(postsWithComments).Some? ==>
              SubtitleCount(Trending(postsWithComments)) == MaxCommentCount(postsWithComments).value
    ensures postsWithComments == [] ==> SubtitleCount(Trending(postsWithComments)) == 0
  {
    TrendingProperties(postsWithComments);
    var trending := Trending(postsWithComments);
    if trending != [] {
      assert trending[0] in trending;
    }
  }

  /** Two posts that tie at five comments and one with two: exactly the two are trending. */
  lemma TieExample(a: PostWithComments, b: PostWithComments, c: PostWithComments)
    requires a.commentCount == 5 && b.commentCount == 5 && c.commentCount == 2
    ensures Trending([a, b, c]) == [a, b]
  {
    assert MaxCommentCount([c]) == Some(2);
    assert [a, b, c][1..] == [b, c] && [b, c][1..] == [c];
    assert MaxCommentCount([b, c]) == Some(5);
    assert MaxCommentCount([a, b, c]) == Some(5);
    assert [c][1..] == [];
    assert KeepAtMax([c], Some(5)) == [];
    assert KeepAtMax([b, c], Some(5)) == [b];
    assert KeepAtMax([a, b, c], Some(5)) == [a, b];
  }

  /** `fetchTrendingPosts` from the collected mapping to the trending list. */
  method AggregateTrendingPosts(users: seq<UserEntry>, postsOf: PostsFetch, commentsOf: CommentsFetch)
    returns (trending: seq<PostWithComments>)
    ensures trending == Trending(EnrichAll(AllPosts(users, postsOf), users, commentsOf))
    ensures forall p :: p in trending ==>
              forall q :: q in EnrichAll(AllPosts(users, postsOf), users, commentsOf) ==>
                q.commentCount <= p.commentCount
    ensures trending == [] <==> AllPosts(users, postsOf) == []
  {
    var allPosts := CollectPosts(users, postsOf);
    var postsWithComments := EnrichPosts(allPosts, users, commentsOf);
    var maxCommentCount := MaxCommentCount(postsWithComments);
    trending := KeepAtMax(postsWithComments, maxCommentCount);
    TrendingProperties(postsWithComments);
  }

  /** What the page renders: spinner, error, or the subtitle and the (possibly empty) list. */
  datatype Screen = LoadingScreen | ErrorAlert(message: string)
                  | Listing(subtitleCount: nat, posts: seq<PostWithComments>)

  class TrendingPostsPage {
    var trendingPosts: seq<PostWithComments>
    var loading: bool
    var error: Option<string>

    constructor ()
      ensures trendingPosts == [] && loading && error == None
    {
      trendingPosts := [];
      loading := true;
      error := None;
    }

    /**
     * One run of `fetchTrendingPosts`. `usersResult` is what `api.getUsers()`
     * yields, `None` for any failure outside a per-item `try`; it sets the error
     * and keeps the list.
     */
    method FetchTrendingPosts(usersResult: Option<seq<UserEntry>>, postsOf: PostsFetch, commentsOf: CommentsFetch)
      modifies this
      ensures !loading
      ensures usersResult.Some? ==>
                error == None &&
                trendingPosts == Trending(EnrichAll(AllPosts(usersResult.value, postsOf), usersResult.value, commentsOf))
      ensures usersResult.None? ==> error == Some(LoadError) && trendingPosts == old(trendingPosts)
    {
      loading := true;
      error := None;
      match usersResult {
        case Some(users) =>
          var trending := AggregateTrendingPosts(users, postsOf, commentsOf);
          trendingPosts := trending;
        case None =>
          error := Some(LoadError);
      }
      loading := false;
    }

    function View(): (s: Screen)
      reads this
      ensures loading <==> s == LoadingScreen
      ensures !loading && error.Some? ==> s == ErrorAlert(error.value)
      ensures !loading && error.None? ==> s == Listing(SubtitleCount(trendingPosts), trendingPosts)
    {
      if loading then LoadingScreen
      else if error.Some? then ErrorAlert(error.value)
      else Listing(SubtitleCount(trendingPosts), trendingPosts)
    }
  }
}
