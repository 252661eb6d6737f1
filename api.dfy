/**
 * The fetch adapter (src/api/api.ts). Each getter asks the remote evaluation
 * service and, when the request fails, substitutes deterministic synthetic data
 * instead of propagating the error. The request itself is I/O: its outcome is a
 * parameter, `None` for a transport failure (network error, non-2xx, timeout).
 */
module Api {
  import opened Types
  import opened Decimal

  /** The fixed mapping of seven users that stands in for a failed user-list call. */
  function FallbackUsers(): (r: seq<UserEntry>)
    ensures |r| == 7
    ensures forall i :: 0 <= i < |r| ==> r[i].id == i + 1
  {
    [ UserEntry(1, "John Doe"),
      UserEntry(2, "Jane Smith"),
      UserEntry(3, "Alex Johnson"),
      UserEntry(4, "Emily Davis"),
      UserEntry(5, "Michael Wilson"),
      UserEntry(6, "Sarah Brown"),
      UserEntry(7, "David Miller") ]
  }

  /** `(userId % 5) + 2` synthetic posts for a user whose post list could not be fetched. */
  function FallbackPosts(userId: nat): (r: seq<Post>)
    ensures |r| == userId % 5 + 2
    ensures 2 <= |r| <= 6
    ensures forall i :: 0 <= i < |r| ==> r[i].userid == userId && r[i].id == 100 + 10 * userId + i
  {
    seq(userId % 5 + 2, i requires 0 <= i =>
      Post(i + 100 + userId * 10, userId,
           "Sample post " + NatToString(i + 1) + " from user " + NatToString(userId),
           None, None))
  }

  /** `(postId % 8) + 1` synthetic comments for a post whose comments could not be fetched. */
  function FallbackComments(postId: nat): (r: seq<Comment>)
    ensures |r| == postId % 8 + 1
    ensures 1 <= |r| <= 8
    ensures forall i :: 0 <= i < |r| ==> r[i].postid == postId && r[i].id == 200 + 3 * postId + i
  {
    seq(postId % 8 + 1, i requires 0 <= i =>
      Comment(i + 200 + postId * 3, postId,
              "Sample comment " + NatToString(i + 1) + " on post " + NatToString(postId)))
  }

  /** `getUsers`: the service's mapping, or the fixed fallback when the request fails. */
  function GetUsers(remote: Option<seq<UserEntry>>): (r: seq<UserEntry>)
    ensures remote.None? ==> r == FallbackUsers() && |r| == 7
    ensures remote.Some? ==> r == remote.value
  {
    match remote
    case Some(users) => users
    case None => FallbackUsers()
  }

  /** `getUserPosts`: the service's posts, or the synthetic ones when the request fails. */
  function GetUserPosts(remote: Option<seq<Post>>, userId: nat): (r: seq<Post>)
    ensures remote.None? ==> r == FallbackPosts(userId) && |r| == userId % 5 + 2
    ensures remote.None? ==> 2 <= |r| <= 6 && forall p :: p in r ==> p.userid == userId
    ensures remote.Some? ==> r == remote.value
  {
    match remote
    case Some(posts) => posts
    case None => FallbackPosts(userId)
  }

  /** `getPostComments`: the service's comments, or the synthetic ones when the request fails. */
  function GetPostComments(remote: Option<seq<Comment>>, postId: nat): (r: seq<Comment>)
    ensures remote.None? ==> r == FallbackComments(postId) && |r| == postId % 8 + 1
    ensures remote.None? ==> 1 <= |r| <= 8 && forall c :: c in r ==> c.postid == postId
    ensures remote.Some? ==> r == remote.value
  {
    match remote
    case Some(comments) => comments
    case None => FallbackComments(postId)
  }

  /**
   * The posts getter as a page sees it when the remote outcome of every request
   * is `remote(id)`: it never throws, so a page's per-user `catch` never runs.
   */
  function PostsViaAdapter(remote: nat -> Option<seq<Post>>): (fetch: PostsFetch)
    ensures forall id: nat :: fetch(id).Some?
    ensures forall id: nat :: remote(id).Some? ==> fetch(id) == Some(remote(id).value)
    ensures forall id: nat :: remote(id).None? ==> fetch(id) == Some(FallbackPosts(id))
    ensures forall id: nat :: remote(id).None? ==> |fetch(id).value| == id % 5 + 2
  {
    (id: nat) => Some(GetUserPosts(remote(id), id))
  }

  /** The comments getter as a page sees it: it never throws either. */
  function CommentsViaAdapter(remote: nat -> Option<seq<Comment>>): (fetch: CommentsFetch)
    ensures forall id: nat :: fetch(id).Some?
    ensures forall id: nat :: remote(id).Some? ==> fetch(id) == Some(remote(id).value)
    ensures forall id: nat :: remote(id).None? ==> fetch(id) == Some(FallbackComments(id))
    ensures forall id: nat :: remote(id).None? ==> |fetch(id).value| == id % 8 + 1
  {
    (id: nat) => Some(GetPostComments(remote(id), id))
  }

  /** The fallback mapping has seven distinct keys, "1" to "7". */
  lemma FallbackUserKeys()
    ensures forall i, j :: 0 <= i < j < 7 ==> FallbackUsers()[i].id != FallbackUsers()[j].id
    ensures forall i :: 0 <= i < 7 ==> NatToString(FallbackUsers()[i].id) == [DigitChar(i + 1)]
  {
  }

  /** Fallback post ids are consecutive and increasing within one user's list. */
  lemma FallbackPostIdsConsecutive(userId: nat, i: nat)
    requires i + 1 < |FallbackPosts(userId)|
    ensures FallbackPosts(userId)[i + 1].id == FallbackPosts(userId)[i].id + 1
  {
  }

  /**
   * A fallback post id determines its user: `(id - 100) / 10` recovers `userId`,
   * so the fallback lists of two different users never share a post id.
   */
  lemma {:induction false} FallbackPostOwner(userId: nat, p: Post)
    requires p in FallbackPosts(userId)
    ensures p.id >= 100 && (p.id - 100) / 10 == userId
  {
    var posts := FallbackPosts(userId);
    var i :| 0 <= i < |posts| && posts[i] == p;
    assert p.id - 100 == 10 * userId + i && i < 10;
  }

  lemma FallbackPostsDisjoint(u: nat, v: nat, p: Post, q: Post)
    requires u != v && p in FallbackPosts(u) && q in FallbackPosts(v)
    ensures p.id != q.id
  {
    FallbackPostOwner(u, p);
    FallbackPostOwner(v, q);
  }
}
