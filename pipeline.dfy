/**
 * The two steps the trending page (src/pages/TrendingPosts.tsx) and the live feed
 * (src/pages/RealtimeFeed.tsx) share, written there twice: collecting every
 * user's posts into one list, and enriching each post with its comments, their
 * number and a summary of its owner.
 */
module Pipeline {
  import opened Types
  import opened Decimal

  const UnknownUser: string := "Unknown User"

  /** What one user adds to the post list: its posts, or nothing when the fetch throws. */
  function Contribution(postsOf: PostsFetch, userId: nat): (r: seq<Post>)
    ensures postsOf(userId).None? ==> r == []
    ensures postsOf(userId).Some? ==> r == postsOf(userId).value
  {
    match postsOf(userId)
    case Some(posts) => posts
    case None => []
  }

  /** `allPosts` once every user of the mapping has been visited, in mapping order. */
  function AllPosts(users: seq<UserEntry>, postsOf: PostsFetch): seq<Post>
    decreases |users|
  {
    if users == [] then []
    else AllPosts(users[..|users| - 1], postsOf) + Contribution(postsOf, users[|users| - 1].id)
  }

  /** The posts of a mapping split in two are the posts of each part, first part first. */
  lemma {:induction false} AllPostsAppend(a: seq<UserEntry>, b: seq<UserEntry>, postsOf: PostsFetch)
    ensures AllPosts(a + b, postsOf) == AllPosts(a, postsOf) + AllPosts(b, postsOf)
    decreases |b|
  {
    if b == [] {
      assert a + b == a;
    } else {
      var b' := b[..|b| - 1];
      assert (a + b)[..|a + b| - 1] == a + b';
      AllPostsAppend(a, b', postsOf);
    }
  }

  /**
   * A post is collected exactly when some user's fetch returned it; a user whose
   * fetch throws contributes nothing.
   */
  lemma {:induction false} AllPostsMember(users: seq<UserEntry>, postsOf: PostsFetch, p: Post)
    ensures p in AllPosts(users, postsOf) <==>
            exists i :: 0 <= i < |users| && p in Contribution(postsOf, users[i].id)
    decreases |users|
  {
    if users != [] {
      var init := users[..|users| - 1];
      AllPostsMember(init, postsOf, p);
      if p in AllPosts(init, postsOf) {
        var i :| 0 <= i < |init| && p in Contribution(postsOf, init[i].id);
        assert users[i] == init[i];
      }
      if exists i :: 0 <= i < |users| && p in Contribution(postsOf, users[i].id) {
        var i :| 0 <= i < |users| && p in Contribution(postsOf, users[i].id);
        if i < |init| {
          assert init[i] == users[i];
        }
      }
    }
  }

  /** The post-collection loop: `allPosts = [...allPosts, ...postsResponse.posts]` per user. */
  method CollectPosts(users: seq<UserEntry>, postsOf: PostsFetch) returns (allPosts: seq<Post>)
    ensures allPosts == AllPosts(users, postsOf)
  {
    allPosts := [];
    var i := 0;
    while i < |users|
      invariant 0 <= i <= |users|
      invariant allPosts == AllPosts(users[..i], postsOf)
    {
      assert users[..i + 1][..i] == users[..i];
      match postsOf(users[i].id) {
        case Some(posts) =>
          allPosts := allPosts + posts;
        case None =>
          // The user is skipped and the loop goes on.
      }
      i := i + 1;
    }
    assert users[..|users|] == users;
  }

  /** `users[key]`: the name stored under the string key, if any. */
  function LookupKey(users: seq<UserEntry>, key: string): (r: Option<string>)
    ensures r.Some? ==> exists i :: 0 <= i < |users| && NatToString(users[i].id) == key && users[i].name == r.value
  {
    if users == [] then None
    else if NatToString(users[0].id) == key then Some(users[0].name)
    else LookupKey(users[1..], key)
  }

  /**
   * Looking up `userid.toString()` finds the first entry whose id is `userid`:
   * the printed key identifies the number.
   */
  lemma {:induction false} LookupKeyOfId(users: seq<UserEntry>, userid: nat)
    ensures LookupKey(users, NatToString(userid)).Some? <==>
            exists i :: 0 <= i < |users| && users[i].id == userid
    ensures forall i :: 0 <= i < |users| && users[i].id == userid &&
                        (forall j :: 0 <= j < i ==> users[j].id != userid) ==>
                        LookupKey(users, NatToString(userid)) == Some(users[i].name)
    decreases |users|
  {
    if users != [] {
      NatToStringInjective(users[0].id, userid);
      LookupKeyOfId(users[1..], userid);
      if users[0].id != userid {
        forall i | 0 <= i < |users| && users[i].id == userid
          ensures i > 0 && users[1..][i - 1] == users[i]
        {
        }
        if exists i :: 1 <= i < |users| && users[i].id == userid {
          var i :| 1 <= i < |users| && users[i].id == userid;
          assert users[1..][i - 1] == users[i];
        }
      }
    }
  }

  /** `name || 'Unknown User'`: a missing or empty name gives the fallback label. */
  function NameOrUnknown(name: Option<string>): (r: string)
    ensures r != ""
    ensures name.Some? && name.value != "" ==> r == name.value
    ensures name.None? || name.value == "" ==> r == UnknownUser
  {
    match name
    case Some(n) => if n != "" then n else UnknownUser
    case None => UnknownUser
  }

  /** The owner summary attached to a post. */
  function UserSummary(users: seq<UserEntry>, userid: nat): (u: User)
    ensures u.id == NatToString(userid)
    ensures ParseDecimal(u.id) == userid
    ensures u.name == NameOrUnknown(LookupKey(users, NatToString(userid)))
  {
    ParseNatToString(userid);
    User(NatToString(userid), NameOrUnknown(LookupKey(users, NatToString(userid))))
  }

  /** One post with its comments, or with none when the comment fetch throws. */
  function EnrichPost(post: Post, users: seq<UserEntry>, commentsOf: CommentsFetch): (r: PostWithComments)
    ensures r.post == post
    ensures r.commentCount == |r.comments|
    ensures commentsOf(post.id).None? ==> r.comments == [] && r.commentCount == 0
    ensures commentsOf(post.id).Some? ==> r.comments == commentsOf(post.id).value
    ensures r.user == UserSummary(users, post.userid)
  {
    match commentsOf(post.id)
    case Some(comments) => PostWithComments(post, comments, |comments|, UserSummary(users, post.userid))
    case None => PostWithComments(post, [], 0, UserSummary(users, post.userid))
  }

  /** Every post enriched, one record per post, in the same order. */
  function EnrichAll(posts: seq<Post>, users: seq<UserEntry>, commentsOf: CommentsFetch): (r: seq<PostWithComments>)
    ensures |r| == |posts|
  {
    seq(|posts|, i requires 0 <= i < |posts| => EnrichPost(posts[i], users, commentsOf))
  }

  /** The base posts of a list of enriched posts. */
  function BasePosts(enriched: seq<PostWithComments>): seq<Post>
  {
    seq(|enriched|, i requires 0 <= i < |enriched| => enriched[i].post)
  }

  /**
   * Enrichment is one-to-one and order-preserving: stripping the added fields
   * gives back exactly the input posts, and each record's count is its list's length.
   */
  lemma EnrichAllRoundTrip(posts: seq<Post>, users: seq<UserEntry>, commentsOf: CommentsFetch)
    ensures BasePosts(EnrichAll(posts, users, commentsOf)) == posts
    ensures forall i :: 0 <= i < |posts| ==>
              EnrichAll(posts, users, commentsOf)[i].commentCount ==
              |EnrichAll(posts, users, commentsOf)[i].comments|
  {
  }

  /** Enriching one more post appends its record. */
  lemma EnrichAllSnoc(posts: seq<Post>, post: Post, users: seq<UserEntry>, commentsOf: CommentsFetch)
    ensures EnrichAll(posts + [post], users, commentsOf) ==
            EnrichAll(posts, users, commentsOf) + [EnrichPost(post, users, commentsOf)]
  {
    var l, r := EnrichAll(posts + [post], users, commentsOf),
                EnrichAll(posts, users, commentsOf) + [EnrichPost(post, users, commentsOf)];
    forall k | 0 <= k < |l| ensures l[k] == r[k] {
      if k < |posts| {
        assert (posts + [post])[k] == posts[k];
      }
    }
  }

  /** The comment-fetching loop: one `push` per post, with the `catch` branch keeping the post. */
  method EnrichPosts(posts: seq<Post>, users: seq<UserEntry>, commentsOf: CommentsFetch)
    returns (postsWithComments: seq<PostWithComments>)
    ensures postsWithComments == EnrichAll(posts, users, commentsOf)
  {
    postsWithComments := [];
    var i := 0;
    while i < |posts|
      invariant 0 <= i <= |posts|
      invariant postsWithComments == EnrichAll(posts[..i], users, commentsOf)
    {
      var post := posts[i];
      var user := UserSummary(users, post.userid);
      match commentsOf(post.id) {
        case Some(comments) =>
          postsWithComments := postsWithComments + [PostWithComments(post, comments, |comments|, user)];
        case None =>
          postsWithComments := postsWithComments + [PostWithComments(post, [], 0, user)];
      }
      assert posts[..i + 1] == posts[..i] + [post];
      EnrichAllSnoc(posts[..i], post, users, commentsOf);
      i := i + 1;
    }
    assert posts[..|posts|] == posts;
  }
}
