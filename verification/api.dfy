/** The JSON records that travel between the server and the client. The server builds them
    from its tables; the client keeps them in its component state as it received them. */
module Api {

  /** The user object of the register, login and profile-update responses. */
  datatype UserView = UserView(id: int, username: string, email: string, bio: string, profilePic: string)

  /** The `author` of a post and the `user` of a comment. */
  datatype AuthorView = AuthorView(id: int, username: string, profilePic: string)

  /** A post as listed by the feed. Timestamps are milliseconds since the epoch. */
  datatype PostView = PostView(
    id: int,
    content: string,
    image: string,
    createdAt: int,
    author: AuthorView,
    likesCount: int,
    commentsCount: int)

  datatype CommentView = CommentView(id: int, content: string, createdAt: int, user: AuthorView)

  /** The `access_token` and `user` of a successful login or registration. */
  datatype AuthData = AuthData(accessToken: string, user: UserView)

  /** The `is_liked` and `likes_count` of a like toggle. */
  datatype LikeData = LikeData(isLiked: bool, likesCount: int)
}
