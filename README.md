# Social-media analytics dashboard: the aggregation pipeline in Dafny

The dashboard has three pages. Each one pulls users, then posts per user, then
comments per post, and combines them client-side. This project models that
aggregation and the fetch adapter's synthetic fallbacks, and proves what the
pages promise:

- **Top users** (`TopUsers`). Each user of the mapping gets the number of posts
  fetched for it, or 0 when that fetch throws. The list is sorted by that count,
  highest first and stable, and the first five are shown with rank = position + 1.
- **Trending posts** (`TrendingPosts`). All posts are concatenated in mapping
  order. Each is enriched with its comments, their count and its owner. The
  posts whose count equals the maximum are kept.
- **Live feed** (`RealtimeFeed`). The posts of the mapping in scope get the
  synthetic timestamp `currentTime - (id % 1000) * 60000`. They are sorted
  newest first (stable) and enriched the same way. The page state (`feedPosts`,
  `users`, `loading`, `error`, `lastRefresh`) is updated on success and on error.
- **Fetch adapter** (`Api`). `getUsers`, `getUserPosts` and `getPostComments`
  never fail: a failed request gives the fixed 7-user mapping, `(userId % 5) + 2`
  posts, or `(postId % 8) + 1` comments, with ids computed from the user or post id.
- **Image URLs** (`ImageUtils`). The avatar URL is built by concatenation. The
  post image uses one of three services, chosen by `postId % 3`.

Shared pieces:

- `StableSort` is the ordering `Array.prototype.sort` gives with a descending
  comparator. It is proved sorted, a permutation and stable. It is also proved
  to be the *only* sorted, stable arrangement (`SortDescCharacterized`), so the
  model does not depend on the JavaScript engine's sorting algorithm.
- `Pipeline` holds the post-collection loop and the enrichment loop. The
  trending page and the feed each contain their own copy of these.
- `Decimal` prints naturals the way JavaScript's `toString` and `${n}` print
  integers below 10^21 (larger ones JavaScript prints in exponent form). It is
  proved to round-trip with parsing, so a printed key identifies its number.

How I/O is modelled:

- A page's view of "fetch the posts of user `id`" is a total function
  `nat -> Option<seq<Post>>`. `None` means the page's own `catch` runs. The
  same holds for comments.
- The adapter is modelled on the outcome of the remote request: `None` is a
  transport failure. `Api.PostsViaAdapter` and `Api.CommentsViaAdapter` show that
  the composed fetch is never `None`.
- `Date.now()` becomes the parameter `currentTime` (or `now`).
- What `api.getUsers()` yields to a page is the parameter `usersResult`. `None`
  stands for any failure of the whole flow before the page sets its result.
  That includes `api.getUsers()` throwing. It also includes the steps outside
  a per-item `try` that could throw in principle:
  - `Object.entries` at src/pages/TopUsers.tsx:21;
  - `Object.keys` at src/pages/RealtimeFeed.tsx:25;
  - spreading a very large array into `Math.max` at src/pages/TrendingPosts.tsx:72.
  Each of these leads to the same error branch.
- The user mapping (a `Record<string, string>`) is a sequence of
  `UserEntry(id, name)` in iteration order. The string key is
  `Decimal.NatToString(id)`.

Behaviour reproduced from the code:

- The feed cycle iterates the `users` mapping that is in scope when the cycle
  starts (src/pages/RealtimeFeed.tsx:33). It does not iterate the mapping it
  fetches at :26-27. The fetched mapping only becomes page state. So the first
  cycle (`InitialLoad`) always yields an empty feed, and only a later
  `Refresh` sees posts.
- The interval timer's callback is the closure created at mount. It therefore
  always sees the initial empty mapping, and each timer cycle behaves like
  `FetchAllPosts` with `scopeUsers == []`.
- The owner name is `users[key] || 'Unknown User'`, so a user whose name is the
  empty string is also shown as "Unknown User".
- `Math.max()` over no posts is `-Infinity`. `MaxCommentCount` returns `None`
  for it, and no post equals it, so an empty post list gives an empty trending list.

## Model

| member | source | states |
|---|---|---|
| `Api.FallbackUsers` | src/api/api.ts:25-35 | the fallback mapping has exactly 7 users, with ids 1 to 7 in order |
| `Api.FallbackUserKeys` | src/api/api.ts:26-34 | the 7 fallback ids are distinct and their keys print as "1" to "7" |
| `Api.FallbackPosts` | src/api/api.ts:47-53 | `(userId % 5) + 2` posts, so 2 to 6; post `i` has `userid == userId` and `id == 100 + 10*userId + i` |
| `Api.FallbackPostIdsConsecutive` | src/api/api.ts:48-49 | consecutive fallback posts have consecutive, increasing ids |
| `Api.FallbackPostOwner` | src/api/api.ts:48-50 | a fallback post's id determines its user: `(id - 100) / 10 == userId` |
| `Api.FallbackPostsDisjoint` | src/api/api.ts:48-50 | the fallback posts of two different users never share an id |
| `Api.FallbackComments` | src/api/api.ts:65-70 | `(postId % 8) + 1` comments, so 1 to 8; comment `i` has `postid == postId` and `id == 200 + 3*postId + i` |
| `Api.GetUsers` | src/api/api.ts:18-36 | the service's mapping is returned as is; a failure yields exactly `FallbackUsers`, never an error |
| `Api.GetUserPosts` | src/api/api.ts:40-54 | the service's posts are returned as is; a failure yields exactly `FallbackPosts(userId)`: `(userId % 5) + 2` posts, all owned by the requested user |
| `Api.GetPostComments` | src/api/api.ts:58-72 | the service's comments are returned as is; a failure yields exactly `FallbackComments(postId)`: `(postId % 8) + 1` comments, all on the requested post |
| `Api.PostsViaAdapter` | src/api/api.ts:40-54 | seen from a page, the posts getter never throws: a successful request shows the service's posts unchanged, and a failed one gives `FallbackPosts(id)`, `(id % 5) + 2` posts |
| `Api.CommentsViaAdapter` | src/api/api.ts:58-72 | seen from a page, the comments getter never throws: a successful request shows the service's comments unchanged, and a failed one gives `FallbackComments(id)`, `(id % 8) + 1` comments |
| `Decimal.NatToString` | src/pages/TrendingPosts.tsx:44 | `toString` of a natural is a non-empty string of decimal digits, a single digit exactly below 10 |
| `Decimal.ParseDecimal` | src/api/api.ts:48-50 | `Number(userId)` on a string of decimal digits; `ParseNatToString` proves it undoes `NatToString` |
| `Decimal.ParseNatToString` | src/api/api.ts:48-50 | `Number` of a printed id gives back the id |
| `Decimal.NatToStringInjective` | src/pages/TrendingPosts.tsx:44 | distinct ids print as distinct keys |
| `Decimal.NoLeadingZero` | src/pages/TrendingPosts.tsx:44 | the printed form is canonical: it starts with '0' only for 0 |
| `ImageUtils.RandomUserAvatar` | src/utils/imageUtils.ts:2-4 | the avatar URL is the pravatar prefix followed by exactly the user id |
| `ImageUtils.AvatarInjective` | src/utils/imageUtils.ts:2-4 | two ids give the same avatar URL if and only if they are equal |
| `ImageUtils.ImageServices` | src/utils/imageUtils.ts:9-13 | there are exactly three candidate services |
| `ImageUtils.RandomPostImage` | src/utils/imageUtils.ts:7-17 | `postId % 3` is inside the 3-element list; 0 picks picsum seeded with the id, 1 unsplash, 2 loremflickr |
| `ImageUtils.ImageEmbedsId` | src/utils/imageUtils.ts:9-17 | the post image URL is the chosen service's prefix, then the printed id, then its suffix |
| `ImageUtils.PostImageInjective` | src/utils/imageUtils.ts:15-17 | the URL depends only on the post id, and different posts get different URLs |
| `StableSort.SortDesc` | src/pages/TopUsers.tsx:47-48 | the sorted list is a permutation of the input, of the same length |
| `StableSort.Insert` | src/pages/TopUsers.tsx:47-48 | inserting adds exactly one occurrence of the element |
| `StableSort.KeyFilter` | src/pages/RealtimeFeed.tsx:50-52 | the in-order filter of the elements whose key is `v`: no longer than the input, and holding only input elements with that key |
| `StableSort.KeyFilterAppend` | src/pages/RealtimeFeed.tsx:50-52 | taking the elements with one key commutes with concatenation |
| `StableSort.InsertSorted` | src/pages/TopUsers.tsx:47-48 | inserting into a descending list keeps it descending |
| `StableSort.InsertStable` | src/pages/TopUsers.tsx:47-48 | inserting at the front of its key group keeps the order within each key |
| `StableSort.SortDescSorted` | src/pages/TopUsers.tsx:47-48 | the comparator `b - a` orders keys from largest to smallest |
| `StableSort.SortDescStable` | src/pages/RealtimeFeed.tsx:50-52 | elements with equal keys keep their input order, as a stable sort keeps them |
| `StableSort.KeyFilterMember` | src/pages/RealtimeFeed.tsx:50-52 | every element is in the sub-list for its own key |
| `StableSort.SameHead` | src/pages/TopUsers.tsx:47-48 | two descending lists with the same sub-list per key start with the same element |
| `StableSort.SameTailFilters` | src/pages/TopUsers.tsx:47-48 | removing a common first element keeps the sub-lists per key equal |
| `StableSort.SortedStableUnique` | src/pages/TopUsers.tsx:47-48 | two descending lists with the same sub-list per key are equal |
| `StableSort.SortDescCharacterized` | src/pages/RealtimeFeed.tsx:50-52 | any descending arrangement that is stable with respect to the input is exactly `SortDesc` of it, whatever algorithm the engine uses |
| `Pipeline.AllPosts` | src/pages/TrendingPosts.tsx:24-34 | the collected posts in mapping order; `AllPostsAppend` splits them at any user boundary, `AllPostsMember` gives membership both ways, `CollectPosts` is the loop that computes them |
| `Pipeline.Contribution` | src/pages/TrendingPosts.tsx:26-33 | a user adds its fetched posts, or nothing when the fetch throws |
| `Pipeline.AllPostsAppend` | src/pages/TrendingPosts.tsx:24-34 | the collected posts are the posts of the first users followed by those of the rest, in mapping order |
| `Pipeline.AllPostsMember` | src/pages/TrendingPosts.tsx:24-34 | a post is collected if and only if some user's fetch returned it |
| `Pipeline.CollectPosts` | src/pages/TrendingPosts.tsx:24-34 | the loop's `allPosts` is the in-order concatenation `AllPosts` of every user's contribution |
| `Pipeline.LookupKeyOfId` | src/pages/TrendingPosts.tsx:44 | looking up `userid.toString()` finds a name if and only if some entry has that id, and then it is the first such entry's name |
| `Pipeline.LookupKey` | src/pages/TrendingPosts.tsx:44 | a name found under a key is the name of an entry whose printed id is that key; `LookupKeyOfId` adds that for `userid.toString()` the lookup succeeds exactly when the id is present, with the first such entry's name |
| `Pipeline.NameOrUnknown` | src/pages/TrendingPosts.tsx:52 | a present, non-empty name is kept; a missing or empty one becomes "Unknown User" |
| `Pipeline.UserSummary` | src/pages/TrendingPosts.tsx:50-53 | the owner summary's id is `userid` printed (and parses back to it); its name is the looked-up name or "Unknown User" |
| `Pipeline.EnrichPost` | src/pages/TrendingPosts.tsx:39-69 | the post is kept unchanged, `commentCount == |comments|`; a failed comment fetch gives `[]` and 0 |
| `Pipeline.EnrichAll` | src/pages/TrendingPosts.tsx:37-69 | one enriched record per post; `EnrichAllRoundTrip` shows that stripping it gives back the posts in order, and `EnrichPosts` is the loop that computes it |
| `Pipeline.EnrichAllRoundTrip` | src/pages/TrendingPosts.tsx:37-69 | enrichment is one-to-one and order-preserving: stripping it gives back exactly the input posts |
| `Pipeline.EnrichPosts` | src/pages/TrendingPosts.tsx:37-69 | the push loop produces `EnrichAll` of the posts, one record per post in order |
| `TopUsers.EnrichUser` | src/pages/TopUsers.tsx:29-44 | id and name are copied from the mapping; `postCount` is the number of fetched posts or 0 when the fetch throws |
| `TopUsers.EnrichedUsers` | src/pages/TopUsers.tsx:27-44 | one record per user of the mapping; `EnrichUsers` is the loop that computes it and gives its contents per index |
| `TopUsers.PostCountKey` | src/pages/TopUsers.tsx:48 | the key of the comparator `b.postCount - a.postCount`; `TopFiveSorted` and `RankOneHasMostPosts` state the order it induces |
| `TopUsers.TopFive` | src/pages/TopUsers.tsx:47-49 | the result has `min(5, n)` entries; `TopFiveSorted`, `TopFiveIsBestPrefix` and `TopFiveStable` state its order, that it takes the best users, and that it is stable |
| `TopUsers.EnrichUsers` | src/pages/TopUsers.tsx:27-44 | exactly one record per user, in mapping order, with the copied id and name and the post count or 0 |
| `TopUsers.AggregateTopUsers` | src/pages/TopUsers.tsx:26-49 | the result is the top five of the enriched list, of length `min(5, users)`, sorted by `postCount` non-increasing |
| `TopUsers.TopFiveSorted` | src/pages/TopUsers.tsx:47-49 | the top list has length `min(5, n)` and non-increasing post counts |
| `TopUsers.TopFiveIsBestPrefix` | src/pages/TopUsers.tsx:47-49 | the top list is a prefix of a permutation of the enriched list; every user left out has at most the last shown user's count |
| `TopUsers.TopFiveStable` | src/pages/TopUsers.tsx:47-48 | users with equal counts keep their mapping order: per count, the shown users are a prefix of the enriched ones |
| `TopUsers.AdapterPostCounts` | src/pages/TopUsers.tsx:31-35 | over the adapter the per-user catch never runs; a user whose request fails counts 2 to 6 posts |
| `TopUsers.TwoUsersExample` | src/pages/TopUsers.tsx:29-49 | users "1" with 3 posts and "2" with 1 give `[{"1", 3}, {"2", 1}]` |
| `TopUsers.RankCards` | src/pages/TopUsers.tsx:80-81 | one card per user, with `rank == index + 1` |
| `TopUsers.RankOneHasMostPosts` | src/pages/TopUsers.tsx:47-49 | the rank-1 user has at least as many posts as every enriched user |
| `TopUsers.TopUsersPage.constructor` | src/pages/TopUsers.tsx:9-11 | the initial state: no users, loading, no error |
| `TopUsers.TopUsersPage.FetchTopUsers` | src/pages/TopUsers.tsx:14-58 | on success the list is replaced by the top five and the error cleared; if `getUsers` throws only the error is set; `loading` ends false |
| `TopUsers.TopUsersPage.View` | src/pages/TopUsers.tsx:63-83 | spinner exactly while loading, then the error, then "no users" or the ranked cards |
| `TrendingPosts.MaxCommentCount` | src/pages/TrendingPosts.tsx:72 | `None` (JavaScript's `-Infinity`) exactly for no posts; otherwise a bound on every count that some post attains |
| `TrendingPosts.AtMax` | src/pages/TrendingPosts.tsx:75 | `post.commentCount === maxCommentCount`, false for every post when the maximum is `-Infinity` (`None`); `KeepAtMax` and `TrendingProperties` state what filtering by it keeps |
| `TrendingPosts.KeepAtMax` | src/pages/TrendingPosts.tsx:75 | every kept post is at the maximum, and each post at the maximum is kept as often as it occurs |
| `TrendingPosts.Trending` | src/pages/TrendingPosts.tsx:72-75 | the maximum followed by the filter; `TrendingProperties` states that exactly the posts at the maximum are kept, in order, and that the result is empty only for no posts |
| `TrendingPosts.KeepAtMaxIsSubsequence` | src/pages/TrendingPosts.tsx:75 | the filter keeps the survivors in their original order |
| `TrendingPosts.TrendingProperties` | src/pages/TrendingPosts.tsx:72-75 | every trending post has the maximum count, every post that has it is trending, in order; empty exactly for no posts |
| `TrendingPosts.SubtitleCount` | src/pages/TrendingPosts.tsx:104 | the first trending post's count, or 0; `SubtitleIsMax` proves it is the maximum comment count |
| `TrendingPosts.SubtitleIsMax` | src/pages/TrendingPosts.tsx:104 | the subtitle's count is the maximum comment count, and 0 when there are no posts |
| `TrendingPosts.TieExample` | src/pages/TrendingPosts.tsx:72-75 | two posts tied at 5 comments and one with 2 give exactly the two |
| `TrendingPosts.AggregateTrendingPosts` | src/pages/TrendingPosts.tsx:20-75 | collect, enrich, filter: every result has the maximum count over all enriched posts; empty exactly when no posts were collected |
| `TrendingPosts.TrendingPostsPage.constructor` | src/pages/TrendingPosts.tsx:9-11 | the initial state: no posts, loading, no error |
| `TrendingPosts.TrendingPostsPage.FetchTrendingPosts` | src/pages/TrendingPosts.tsx:14-84 | on success the list is replaced and the error cleared; if `getUsers` throws only the error is set; `loading` ends false |
| `TrendingPosts.TrendingPostsPage.View` | src/pages/TrendingPosts.tsx:89-118 | spinner exactly while loading, then the error, then the subtitle count and the list |
| `RealtimeFeed.Stamp` | src/pages/RealtimeFeed.tsx:44-47 | the timestamp is `currentTime - (id % 1000) * 60000`; every other field is unchanged |
| `RealtimeFeed.WithTimestamps` | src/pages/RealtimeFeed.tsx:44-47 | one stamped post per post, in order |
| `RealtimeFeed.TimestampKey` | src/pages/RealtimeFeed.tsx:50-52 | `timestamp \|\| 0` as the comparator's key; `SortedByTimeOrder` states the order it induces |
| `RealtimeFeed.SortedByTime` | src/pages/RealtimeFeed.tsx:44-52 | the stamped and sorted posts, as many as were collected; `SortedByTimeOrder` and `SortedByTimeStable` state permutation, order and stability |
| `RealtimeFeed.Feed` | src/pages/RealtimeFeed.tsx:31-84 | one cycle's feed, one record per collected post; `FeedFollowsSortedOrder` and `EmptyMappingEmptyFeed` state its order and the empty-mapping case |
| `RealtimeFeed.SortedByTimeOrder` | src/pages/RealtimeFeed.tsx:50-52 | the sorted posts are a permutation of the stamped ones, with non-increasing timestamps, that is non-decreasing `id % 1000` |
| `RealtimeFeed.SortedByTimeStable` | src/pages/RealtimeFeed.tsx:50-52 | posts with equal `id % 1000` share a timestamp and keep their collection order |
| `RealtimeFeed.FeedFollowsSortedOrder` | src/pages/RealtimeFeed.tsx:55-84 | the feed follows the sorted order one-to-one; a failed comment fetch keeps the post with `[]` and 0 |
| `RealtimeFeed.EmptyMappingEmptyFeed` | src/pages/RealtimeFeed.tsx:31-41 | a cycle whose mapping in scope is empty yields an empty feed |
| `RealtimeFeed.RealtimeFeedPage.constructor` | src/pages/RealtimeFeed.tsx:12-16 | the initial state: no posts, the empty mapping `{}`, loading, no error, `lastRefresh` the mount time; the empty mapping is what the mount and timer cycles see |
| `RealtimeFeed.RealtimeFeedPage.FetchAllPosts` | src/pages/RealtimeFeed.tsx:19-94 | users are fetched only for an empty mapping in scope, and the loop iterates that mapping; on success the feed, `lastRefresh` and (after a fetch) `users` are replaced; on error only `error` is set; `loading` ends false |
| `RealtimeFeed.RealtimeFeedPage.InitialLoad` | src/pages/RealtimeFeed.tsx:97-99 | the first cycle stores the fetched mapping, clears the error and stamps `lastRefresh`, but leaves the feed empty; if `getUsers` fails only the error is set, and the feed, mapping and `lastRefresh` are kept; `loading` ends false |
| `RealtimeFeed.RealtimeFeedPage.Refresh` | src/pages/RealtimeFeed.tsx:111-114 | a manual refresh runs a cycle over the mapping in state. With a non-empty mapping the feed is recomputed from it. With an empty one the fetched mapping is stored and the feed comes out empty, or, on failure, only the error is set. `loading` ends false |
| `RealtimeFeed.RealtimeFeedPage.View` | src/pages/RealtimeFeed.tsx:116-155 | the spinner only while loading with no posts, the error alert only with an error and no posts, otherwise the feed |
| `RealtimeFeed.MountThenTimerTick` | src/pages/RealtimeFeed.tsx:97-108 | after mount, the first load and a timer tick, the fetched users are stored but the feed is still empty, because the timer's callback sees the mount-time empty mapping |

## Left out

- HTTP transport (axios client, proxy URL, headers, 10 s timeout): I/O. Request outcomes are parameters.
- `console.error` logging: it has no effect on behaviour.
- React hooks, `async`/`await` suspension, the 30 s `setInterval` timer, its clean-up and overlapping refresh cycles: these are framework runtime and concurrency. One cycle is a sequential method. The effect of the timer's stale closure is described above, but it is not modelled as a method.
- `Date.now()`: it is passed in as a parameter.
- JavaScript's key order for `Object.entries` and `for...in`. Array-index keys, integers below 2^32 − 1, come first in ascending order. Larger integer keys follow in creation order. The model takes the mapping in any given order, so it covers each of these, and no property proved here depends on the order.
- Non-numeric user ids (`Number(userId)` is `NaN`) and negative ids (negative `%` remainders, `imageServices[-1]`): ids are naturals.
- `Array.prototype.sort` works in place on the array. Here it is reassignment of the sorted value. The engine's algorithm is replaced by `StableSort.SortDesc`, which is proved to be the unique stable result.
- The conversion `Object.entries(...).map(([id, name]) => ({id, name}))` at src/pages/TopUsers.tsx:21-24 is folded into `TopUsers.EnrichUser`, which reads the mapping entry directly.
- Duplicate ids: a mapping parsed from JSON has distinct keys, and the last duplicate in the text wins. The sequence type `seq<UserEntry>` also admits repeated ids, and `Pipeline.LookupKey` then takes the first one. For the distinct ids of any real mapping the two agree, because there is only one entry per key (`Pipeline.LookupKeyOfId`).
- JavaScript numbers are doubles. Ids, timestamps and counts are unbounded integers here. This is exact while ids and the ids computed from them stay below 2^53, and while timestamps are what a clock produces. The computed ids are the fallback ids `i + 100 + userId * 10` and `i + 200 + postId * 3` (src/api/api.ts:49, src/api/api.ts:67), which pass 2^53 for user ids above about 9·10^14 or post ids above about 3·10^15. Beyond that bound JavaScript has already rounded the value before `%` is applied to it, and `toString` switches to exponent form from 10^21. The model does not reproduce either.
- Presentation: PostCard, UserCard, Layout, Loading, ParticlesBackground, App (theming, routing, animation), including the cosmetic `likeCount` and `engagementRate`.
