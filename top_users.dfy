/**
 * The top-users page (src/pages/TopUsers.tsx): every user of the mapping is
 * enriched with the number of posts fetched for it, the list is sorted by that
 * number (highest first, stable) and the first five are shown, ranked 1 to 5.
 */
module TopUsers {
  import opened Types
  import opened Decimal
  import opened StableSort
  import Api

  /** How many users the page shows (`.slice(0, 5)`). */
  const TopCount: nat := 5

  const LoadError: string := "Failed to load top users. Please try again later."

  function Min(a: nat, b: nat): nat {
    if a <= b then a else b
  }

  /** The sort key of the comparator `(a, b) => b.postCount - a.postCount`. */
  function PostCountKey(u: UserWithPostCount): int {
    u.postCount
  }

  /** The record pushed for one user: its id and name, and its post count or 0. */
  function EnrichUser(e: UserEntry, postsOf: PostsFetch): (r: UserWithPostCount)
    ensures r.id == NatToString(e.id) && r.name == e.name
    ensures postsOf(e.id).Some? ==> r.postCount == |postsOf(e.id).value|
    ensures postsOf(e.id).None? ==> r.postCount == 0
  {
    match postsOf(e.id)
    case Some(posts) => UserWithPostCount(NatToString(e.id), e.name, |posts|)
    case None => UserWithPostCount(NatToString(e.id), e.name, 0)
  }

  /** `usersWithPosts` after the loop: one record per user, in mapping order. */
  function EnrichedUsers(users: seq<UserEntry>, postsOf: PostsFetch): (r: seq<UserWithPostCount>)
    ensures |r| == |users|
  {
    seq(|users|, i requires 0 <= i < |users| => EnrichUser(users[i], postsOf))
  }

  /** Sort descending by post count, then keep the first five. */
  function TopFive(enriched: seq<UserWithPostCount>): (r: seq<UserWithPostCount>)
    ensures |r| == Min(TopCount, |enriched|)
  {
    var sorted := SortDesc(enriched, PostCountKey);
    sorted[..Min(TopCount, |sorted|)]
  }

  /** The enrichment loop (`for (const user of users)` with its `try`/`catch`). */
  method EnrichUsers(users: seq<UserEntry>, postsOf: PostsFetch) returns (usersWithPosts: seq<UserWithPostCount>)
    ensures |usersWithPosts| == |users|
    ensures forall i :: 0 <= i < |users| ==>
              usersWithPosts[i].id == NatToString(users[i].id) && usersWithPosts[i].name == users[i].name
    ensures forall i :: 0 <= i < |users| ==>
              usersWithPosts[i].postCount == if postsOf(users[i].id).Some? then |postsOf(users[i].id).value| else 0
    ensures usersWithPosts == EnrichedUsers(users, postsOf)
  {
    usersWithPosts := [];
    var i := 0;
    while i < |users|
      invariant 0 <= i <= |users|
      invariant usersWithPosts == EnrichedUsers(users[..i], postsOf)
    {
      var user := users[i];
      match postsOf(user.id) {
        case Some(posts) =>
          usersWithPosts := usersWithPosts + [UserWithPostCount(NatToString(user.id), user.name, |posts|)];
        case None =>
          usersWithPosts := usersWithPosts + [UserWithPostCount(NatToString(user.id), user.name, 0)];
      }
      assert users[..i + 1][..i] == users[..i];
      i := i + 1;
    }
    assert users[..|users|] == users;
  }

  /** Steps 2 and 3 of `fetchTopUsers`: enrich, sort in place, slice. */
  method AggregateTopUsers(users: seq<UserEntry>, postsOf: PostsFetch) returns (topUsers: seq<UserWithPostCount>)
    ensures topUsers == TopFive(EnrichedUsers(users, postsOf))
    ensures |topUsers| == Min(TopCount, |users|)
    ensures forall i, j :: 0 <= i < j < |topUsers| ==> topUsers[i].postCount >= topUsers[j].postCount
  {
    var usersWithPosts := EnrichUsers(users, postsOf);
    usersWithPosts := SortDesc(usersWithPosts, PostCountKey);
    topUsers := usersWithPosts[..Min(TopCount, |usersWithPosts|)];
    TopFiveSorted(EnrichedUsers(users, postsOf));
  }

  /** The shown users are in non-increasing order of post count. */
  lemma TopFiveSorted(enriched: seq<UserWithPostCount>)
    ensures |TopFive(enriched)| == Min(TopCount, |enriched|)
    ensures forall i, j :: 0 <= i < j < |TopFive(enriched)| ==>
              TopFive(enriched)[i].postCount >= TopFive(enriched)[j].postCount
  {
    SortDescSorted(enriched, PostCountKey);
  }

  /**
   * The shown users are the first entries of a rearrangement of the enriched list,
   * and every user left out has at most the post count of the last one shown.
   */
  lemma TopFiveIsBestPrefix(enriched: seq<UserWithPostCount>)
    ensures var top := TopFive(enriched);
            var sorted := SortDesc(enriched, PostCountKey);
            multiset(sorted) == multiset(enriched) && top == sorted[..|top|]
    ensures multiset(TopFive(enriched)) <= multiset(enriched)
    ensures forall u :: u in multiset(enriched) - multiset(TopFive(enriched)) ==>
              u.postCount <= TopFive(enriched)[|TopFive(enriched)| - 1].postCount
  {
    var sorted := SortDesc(enriched, PostCountKey);
    var top := TopFive(enriched);
    var k := |top|;
    SortDescSorted(enriched, PostCountKey);
    assert sorted == top + sorted[k..];
    assert multiset(sorted) == multiset(top) + multiset(sorted[k..]);
    forall u | u in multiset(enriched) - multiset(top)
      ensures u.postCount <= top[k - 1].postCount
    {
      assert u in multiset(sorted[k..]);
      var j :| 0 <= j < |sorted[k..]| && sorted[k..][j] == u;
      assert sorted[k + j] == u;
    }
  }

  /** Among users with equal post counts, the shown ones come first and keep the mapping's order. */
  lemma TopFiveStable(enriched: seq<UserWithPostCount>, v: int)
    ensures KeyFilter(TopFive(enriched), PostCountKey, v) <= KeyFilter(enriched, PostCountKey, v)
  {
    var sorted := SortDesc(enriched, PostCountKey);
    var top := TopFive(enriched);
    assert sorted == top + sorted[|top|..];
    KeyFilterAppend(top, sorted[|top|..], PostCountKey, v);
    SortDescStable(enriched, PostCountKey, v);
  }

  /**
   * Over the fetch adapter the per-user `catch` never runs: a user's count is the
   * length of the service's list, or of the synthetic one, which holds 2 to 6 posts.
   */
  lemma AdapterPostCounts(users: seq<UserEntry>, remote: nat -> Option<seq<Post>>, i: nat)
    requires i < |users|
    ensures EnrichedUsers(users, Api.PostsViaAdapter(remote))[i].postCount ==
            |Api.GetUserPosts(remote(users[i].id), users[i].id)|
    ensures remote(users[i].id).None? ==>
              2 <= EnrichedUsers(users, Api.PostsViaAdapter(remote))[i].postCount <= 6
  {
  }

  /** Users "1" with three posts and "2" with one: both are shown, "1" first. */
  lemma TwoUsersExample(postsOf: PostsFetch)
    requires postsOf(1).Some? && |postsOf(1).value| == 3
    requires postsOf(2).Some? && |postsOf(2).value| == 1
    ensures TopFive(EnrichedUsers([UserEntry(1, "A"), UserEntry(2, "B")], postsOf)) ==
            [UserWithPostCount("1", "A", 3), UserWithPostCount("2", "B", 1)]
  {
    var u1 := UserWithPostCount("1", "A", 3);
    var u2 := UserWithPostCount("2", "B", 1);
    assert NatToString(1) == "1" && NatToString(2) == "2";
    assert EnrichedUsers([UserEntry(1, "A"), UserEntry(2, "B")], postsOf) == [u1, u2];
    assert [u1, u2][1..] == [u2] && [u2][1..] == [];
    assert SortDesc([u2], PostCountKey) == [u2];
    assert SortDesc([u1, u2], PostCountKey) == [u1, u2];
  }

  /** A card on the page: the 1-based position and the user. */
  datatype RankedCard = RankedCard(rank: nat, user: UserWithPostCount)

  /** `topUsers.map((user, index) => <UserCard rank={index + 1} />)`. */
  function RankCards(top: seq<UserWithPostCount>): (cards: seq<RankedCard>)
    ensures |cards| == |top|
    ensures forall i :: 0 <= i < |cards| ==> cards[i].rank == i + 1 && cards[i].user == top[i]
  {
    seq(|top|, i requires 0 <= i < |top| => RankedCard(i + 1, top[i]))
  }

  /** Rank 1 goes to a user with the most posts of all enriched users. */
  lemma RankOneHasMostPosts(enriched: seq<UserWithPostCount>, u: UserWithPostCount)
    requires u in enriched
    ensures |RankCards(TopFive(enriched))| > 0
    ensures RankCards(TopFive(enriched))[0].user.postCount >= u.postCount
  {
    var sorted := SortDesc(enriched, PostCountKey);
    SortDescSorted(enriched, PostCountKey);
    assert u in multiset(sorted);
    var j :| 0 <= j < |sorted| && sorted[j] == u;
    assert TopFive(enriched)[0] == sorted[0];
  }

  /** What the page renders. */
  datatype Screen = LoadingScreen | ErrorAlert(message: string) | NoUsers | Ranking(cards: seq<RankedCard>)

  /** The page's state: the `useState` hooks of the component. */
  class TopUsersPage {
    var topUsers: seq<UserWithPostCount>
    var loading: bool
    var error: Option<string>

    constructor ()
      ensures topUsers == [] && loading && error == None
    {
      topUsers := [];
      loading := true;
      error := None;
    }

    /**
     * One run of `fetchTopUsers`. `usersResult` is what `api.getUsers()` yields,
     * `None` for any failure outside a per-user `try` (`getUsers` throwing, or
     * `Object.entries`); it sets the error and leaves the previous list in place.
     */
    method FetchTopUsers(usersResult: Option<seq<UserEntry>>, postsOf: PostsFetch)
      modifies this
      ensures !loading
      ensures usersResult.Some? ==>
                error == None && topUsers == TopFive(EnrichedUsers(usersResult.value, postsOf))
      ensures usersResult.None? ==> error == Some(LoadError) && topUsers == old(topUsers)
    {
      loading := true;
      error := None;
      match usersResult {
        case Some(users) =>
          var sortedUsers := AggregateTopUsers(users, postsOf);
          topUsers := sortedUsers;
        case None =>
          error := Some(LoadError);
      }
      loading := false;
    }

    /** The spinner while loading, then the error, then the ranking or the empty notice. */
    function View(): (s: Screen)
      reads this
      ensures loading <==> s == LoadingScreen
      ensures !loading && error.Some? ==> s == ErrorAlert(error.value)
      ensures !loading && error.None? && topUsers == [] ==> s == NoUsers
      ensures !loading && error.None? && topUsers != [] ==> s == Ranking(RankCards(topUsers))
    {
      if loading then LoadingScreen
      else if error.Some? then ErrorAlert(error.value)
      else if topUsers == [] then NoUsers
      else Ranking(RankCards(topUsers))
    }
  }
}
