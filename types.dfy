/**
 * The records the dashboard works on (src/types/index.ts). Optional TypeScript
 * properties become `Option` fields; numbers that are ids are naturals.
 */
module Types {

  datatype Option<+T> = None | Some(value: T)

  /** One entry of the `users` mapping returned by the user-list call: key and name. */
  datatype UserEntry = UserEntry(id: nat, name: string)

  /** `User`: an id, as the string key of the mapping, and a display name. */
  datatype User = User(id: string, name: string)

  datatype Post = Post(id: nat, userid: nat, content: string,
                       imageUrl: Option<string>, timestamp: Option<int>)

  datatype Comment = Comment(id: nat, postid: nat, content: string)

  /** `UserWithPostCount`: a user enriched with the number of posts fetched for it. */
  datatype UserWithPostCount = UserWithPostCount(id: string, name: string, postCount: nat)

  /**
   * `PostWithComments`: the post's own fields (the spread `...post`), the comments
   * fetched for it, their number and a summary of the owning user.
   */
  datatype PostWithComments = PostWithComments(post: Post, comments: seq<Comment>,
                                               commentCount: nat, user: User)

  /** "Fetch the posts of user `id`" as the page sees it: `None` is the page's `catch`. */
  type PostsFetch = nat -> Option<seq<Post>>

  /** "Fetch the comments of post `id`" as the page sees it: `None` is the page's `catch`. */
  type CommentsFetch = nat -> Option<seq<Comment>>
}
