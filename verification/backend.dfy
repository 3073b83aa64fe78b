/** The REST server: four tables (users, posts, likes, comments) and the route handlers
    that read and change them. Each handler is a method of `Store` that returns the
    status code and the JSON body it would send. */
module Backend {
  import opened Common
  import opened Api

  datatype User = User(
    id: int,
    username: string,
    email: string,
    passwordHash: string,
    bio: string,
    profilePic: string,
    createdAt: int)

  datatype Post = Post(id: int, content: string, image: string, createdAt: int, userId: int)

  datatype Comment = Comment(id: int, content: string, createdAt: int, userId: int, postId: int)

  /** Request bodies, one field per JSON key: None when the key is absent. */
  datatype RegisterRequest = RegisterRequest(
    username: Option<string>,
    email: Option<string>,
    password: Option<string>,
    bio: Option<string>)

  datatype LoginRequest = LoginRequest(username: Option<string>, password: Option<string>)

  /** The body of a profile update, and the body of a post creation or edit. */
  datatype ProfileFields = ProfileFields(bio: Option<string>, profilePic: Option<string>)
  datatype PostFields = PostFields(content: Option<string>, image: Option<string>)

  datatype CommentRequest = CommentRequest(content: Option<string>)

  datatype Body =
    | Error(error: string)
    | Message(message: string)
    | Auth(message: string, accessToken: string, user: UserView)
    | Profile(user: UserView, createdAt: int)
    | ProfileUpdated(message: string, user: UserView)
    | PostPage(posts: seq<PostView>, total: int, pages: int, currentPage: int)
    | PostSaved(message: string, post: PostView)
    | LikeToggled(message: string, likesCount: int, isLiked: bool)
    | CommentList(comments: seq<CommentView>)
    | CommentSaved(message: string, comment: CommentView)

  datatype Response = Response(status: int, body: Body)

  /** Python's truthiness of `data.get(key)` for a string value: present and non-empty. */
  predicate Given(field: Option<string>)
  {
    field.Some? && field.value != ""
  }

  /** The two unique user columns a query can filter on. */
  datatype UserKey = ByUsername | ByEmail

  function KeyOf(u: User, key: UserKey): string
  {
    match key
    case ByUsername => u.username
    case ByEmail => u.email
  }

  function UserViewOf(u: User): UserView
  {
    UserView(u.id, u.username, u.email, u.bio, u.profilePic)
  }

  function AuthorOf(u: User): AuthorView
  {
    AuthorView(u.id, u.username, u.profilePic)
  }

  /** The like relation as pairs (user id, post id); the unique constraint on the pair is
      what makes it a set. */
  type LikePair = (int, int)

  function LikesOn(likes: set<LikePair>, postId: int): (r: set<LikePair>)
    ensures forall l :: l in r <==> l in likes && l.1 == postId
  {
    set l | l in likes && l.1 == postId
  }

  /** The likes that remain when a post is deleted: every like not on that post. */
  function LikesWithout(likes: set<LikePair>, postId: int): (r: set<LikePair>)
    ensures forall l :: l in r <==> l in likes && l.1 != postId
  {
    set l | l in likes && l.1 != postId
  }

  /** Adds the pair when absent, removes it when present. */
  function Toggled(likes: set<LikePair>, pair: LikePair): (r: set<LikePair>)
    ensures pair in r <==> pair !in likes
    ensures forall l :: l != pair ==> (l in r <==> l in likes)
  {
    if pair in likes then likes - {pair} else likes + {pair}
  }

  /** A toggle by an existing user on an existing post keeps every like pointing at an
      existing user and an existing post. */
  lemma ToggleKeepsLikesValid(users: map<int, User>, posts: map<int, Post>, likes: set<LikePair>, pair: LikePair)
    requires LikesValid(users, posts, likes) && pair.0 in users && pair.1 in posts
    ensures LikesValid(users, posts, Toggled(likes, pair))
  {
  }

  /** Toggling the same pair twice gives back the original likes. */
  lemma ToggleTwice(likes: set<LikePair>, pair: LikePair)
    ensures Toggled(Toggled(likes, pair), pair) == likes
  {
  }

  /** A toggle moves the like count of the toggled post by exactly one, up when the pair
      was absent and down when it was present, and leaves every other post's count alone. */
  lemma ToggleCount(likes: set<LikePair>, pair: LikePair, postId: int)
    ensures postId == pair.1 && pair !in likes ==>
      |LikesOn(Toggled(likes, pair), postId)| == |LikesOn(likes, postId)| + 1
    ensures postId == pair.1 && pair in likes ==>
      |LikesOn(Toggled(likes, pair), postId)| == |LikesOn(likes, postId)| - 1
    ensures postId != pair.1 ==> LikesOn(Toggled(likes, pair), postId) == LikesOn(likes, postId)
  {
    if postId == pair.1 {
      if pair in likes {
        assert LikesOn(Toggled(likes, pair), postId) == LikesOn(likes, postId) - {pair};
      } else {
        assert LikesOn(Toggled(likes, pair), postId) == LikesOn(likes, postId) + {pair};
      }
    }
  }

  /** The comments on one post, in the order they were stored. */
  function CommentsOn(comments: seq<Comment>, postId: int): (r: seq<Comment>)
    ensures |r| <= |comments|
    ensures forall c :: c in r <==> c in comments && c.postId == postId
    decreases |comments|
  {
    if comments == [] then []
    else
      var last := comments[|comments| - 1];
      CommentsOn(comments[..|comments| - 1], postId) + (if last.postId == postId then [last] else [])
  }

  /** Every comment not on the given post, in the order they were stored. */
  function CommentsNotOn(comments: seq<Comment>, postId: int): (r: seq<Comment>)
    ensures |r| <= |comments|
    ensures forall c :: c in r <==> c in comments && c.postId != postId
    decreases |comments|
  {
    if comments == [] then []
    else
      var last := comments[|comments| - 1];
      CommentsNotOn(comments[..|comments| - 1], postId) + (if last.postId != postId then [last] else [])
  }

  /** Removing a post's comments keeps every other post's comment thread exactly as it was,
      order included. */
  lemma {:induction false} CommentsNotOnKeepsThreads(comments: seq<Comment>, postId: int, other: int)
    requires other != postId
    ensures CommentsOn(CommentsNotOn(comments, postId), other) == CommentsOn(comments, other)
    decreases |comments|
  {
    if comments != [] {
      var init := comments[..|comments| - 1];
      var last := comments[|comments| - 1];
      CommentsNotOnKeepsThreads(init, postId, other);
      var kept := CommentsNotOn(init, postId);
      assert CommentsOn(comments, other)
        == CommentsOn(init, other) + (if last.postId == other then [last] else []);
      if last.postId != postId {
        assert CommentsNotOn(comments, postId) == kept + [last];
        assert (kept + [last])[..|kept|] == kept;
        assert CommentsOn(kept + [last], other)
          == CommentsOn(kept, other) + (if last.postId == other then [last] else []);
      } else {
        assert CommentsNotOn(comments, postId) == kept;
      }
    }
  }

  /** The page size and page number Flask-SQLAlchemy's `paginate` settles on with
      `error_out=False`: a page below 1 becomes 1 and a page size below 1 becomes 20. */
  function ClampPage(page: int): (p: int)
    ensures p >= 1
    ensures page >= 1 ==> p == page
  {
    if page < 1 then 1 else page
  }

  function ClampPerPage(perPage: int): (n: int)
    ensures n >= 1
    ensures perPage >= 1 ==> n == perPage
  {
    if perPage < 1 then 20 else perPage
  }

  /** The offset of a page: the number of rows on the pages before it. */
  function PageStart(page: int, perPage: int): (lo: nat)
    ensures lo == (ClampPage(page) - 1) * ClampPerPage(perPage)
  {
    (ClampPage(page) - 1) * ClampPerPage(perPage)
  }

  /** The ids on one page of a listing: the slice starting at the page's offset, at most
      `perPage` long, cut at the end of the listing. */
  function PageItems(order: seq<int>, page: int, perPage: int): (items: seq<int>)
    ensures |items| <= ClampPerPage(perPage)
    ensures PageStart(page, perPage) <= |order| ==> PageStart(page, perPage) + |items| <= |order|
    ensures PageStart(page, perPage) <= |order| ==>
      items == order[PageStart(page, perPage)..PageStart(page, perPage) + |items|]
    ensures PageStart(page, perPage) + ClampPerPage(perPage) <= |order| ==> |items| == ClampPerPage(perPage)
    ensures PageStart(page, perPage) + |items| < |order| ==> |items| == ClampPerPage(perPage)
    ensures PageStart(page, perPage) >= |order| ==> items == []
  {
    var lo, n := PageStart(page, perPage), ClampPerPage(perPage);
    if lo >= |order| then [] else order[lo..if lo + n <= |order| then lo + n else |order|]
  }

  /** `pages`: the number of pages needed for `total` rows, none when there are no rows. */
  function PageCount(total: nat, perPage: int): (pages: nat)
    requires perPage >= 1
    ensures total == 0 ==> pages == 0
    ensures total > 0 ==> (pages - 1) * perPage < total <= pages * perPage
  {
    if total == 0 then 0 else (total + perPage - 1) / perPage
  }

  /** Every position of a listing lies on exactly one page: position `k` is entry
      `k % perPage` of page `k / perPage + 1`. */
  lemma PagesCoverListing(order: seq<int>, perPage: int, k: int)
    requires perPage >= 1 && 0 <= k < |order|
    ensures var items := PageItems(order, k / perPage + 1, perPage);
      k % perPage < |items| && items[k % perPage] == order[k]
  {
    var p := k / perPage + 1;
    assert PageStart(p, perPage) == k - k % perPage;
  }

  /** The table constraints: primary keys, the unique username and email columns, and
      every foreign key pointing at an existing row. */
  ghost predicate TablesValid(users: map<int, User>, posts: map<int, Post>, likes: set<LikePair>, comments: seq<Comment>)
  {
    && UsersValid(users)
    && PostsValid(users, posts)
    && LikesValid(users, posts, likes)
    && CommentsValid(users, posts, comments)
    && CommentIdsDistinct(comments)
  }

  /** The users table: keyed by id, usernames and emails unique. */
  ghost predicate UsersValid(users: map<int, User>)
  {
    && (forall id :: id in users ==> users[id].id == id)
    && (forall a, b :: a in users && b in users && users[a].username == users[b].username ==> a == b)
    && (forall a, b :: a in users && b in users && users[a].email == users[b].email ==> a == b)
  }

  /** The posts table: keyed by id, every author an existing user. */
  ghost predicate PostsValid(users: map<int, User>, posts: map<int, Post>)
  {
    forall id :: id in posts ==> posts[id].id == id && posts[id].userId in users
  }

  /** Every like is by an existing user and on an existing post. */
  ghost predicate LikesValid(users: map<int, User>, posts: map<int, Post>, likes: set<LikePair>)
  {
    forall l :: l in likes ==> l.0 in users && l.1 in posts
  }

  /** Every comment is on an existing post and by an existing user. */
  ghost predicate CommentsValid(users: map<int, User>, posts: map<int, Post>, comments: seq<Comment>)
  {
    forall i :: 0 <= i < |comments| ==> comments[i].postId in posts && comments[i].userId in users
  }

  /** The comment ids are a primary key. */
  ghost predicate CommentIdsDistinct(comments: seq<Comment>)
  {
    forall i, j :: 0 <= i < j < |comments| ==> comments[i].id != comments[j].id
  }

  /** Deleting a post together with its likes and comments (the cascade) leaves no like or
      comment pointing at the deleted post, so every constraint still holds. */
  lemma DeleteCascadeKeepsTablesValid(users: map<int, User>, posts: map<int, Post>, likes: set<LikePair>,
                                       comments: seq<Comment>, postId: int)
    requires TablesValid(users, posts, likes, comments)
    ensures TablesValid(users, posts - {postId}, LikesWithout(likes, postId), CommentsNotOn(comments, postId))
  {
    KeptCommentsValid(comments, postId, posts, users);
  }

  /** Without the cascade, deleting a post that has a like would leave a like pointing at
      a missing post. */
  lemma DeleteWithoutCascadeBreaksTables(users: map<int, User>, posts: map<int, Post>, likes: set<LikePair>,
                                         comments: seq<Comment>, userId: int, postId: int)
    requires (userId, postId) in likes
    ensures !TablesValid(users, posts - {postId}, likes, comments)
  {
  }

  /** A comment list in which no comment is on the given post has an empty thread for it. */
  lemma {:induction false} NoThreadWithoutComments(comments: seq<Comment>, postId: int)
    requires forall i :: 0 <= i < |comments| ==> comments[i].postId != postId
    ensures CommentsOn(comments, postId) == []
    decreases |comments|
  {
    if comments != [] {
      NoThreadWithoutComments(comments[..|comments| - 1], postId);
    }
  }

  /** A post id that is not in the table has no likes and no comments, so the zero
      counts a freshly created post reports are its real counts. */
  lemma FreshPostHasNoActivity(users: map<int, User>, posts: map<int, Post>, likes: set<LikePair>,
                               comments: seq<Comment>, id: int)
    requires TablesValid(users, posts, likes, comments) && id !in posts
    ensures LikesOn(likes, id) == {}
    ensures CommentsOn(comments, id) == []
  {
    NoThreadWithoutComments(comments, id);
  }

  class Store {
    var users: map<int, User>
    var posts: map<int, Post>
    var likes: set<LikePair>
    var comments: seq<Comment>

    /** The password hasher and its check (werkzeug) and the token issuer (JWT): library
        code, seen here only through their results. */
    const hash: string -> string
    const checkHash: (string, string) -> bool
    const issueToken: int -> string

    /** The table constraints hold of the current tables. */
    ghost predicate Valid()
      reads this
    {
      TablesValid(users, posts, likes, comments)
    }

    /** The library property the login route relies on: a hash checks against its own password. */
    ghost predicate HashSound()
      reads this
    {
      forall pw :: checkHash(hash(pw), pw)
    }

    ghost predicate Taken(key: UserKey, value: string)
      reads this
    {
      exists id :: id in users && KeyOf(users[id], key) == value
    }

    ghost predicate CommentIdUsed(id: int)
      reads this
    {
      exists i :: 0 <= i < |comments| && comments[i].id == id
    }

    constructor(hash: string -> string, checkHash: (string, string) -> bool, issueToken: int -> string)
      ensures Valid()
      ensures users == map[] && posts == map[] && likes == {} && comments == []
      ensures this.hash == hash && this.checkHash == checkHash && this.issueToken == issueToken
    {
      users, posts, likes, comments := map[], map[], {}, [];
      this.hash, this.checkHash, this.issueToken := hash, checkHash, issueToken;
    }

    function LikeCount(postId: int): (n: nat)
      reads this
      ensures n == 0 <==> forall l :: l in likes ==> l.1 != postId
    {
      var on := LikesOn(likes, postId);
      assert on == {} <==> forall l :: l in likes ==> l.1 != postId;
      |on|
    }

    /** A post as the listing shows it: its author and its like and comment counts. */
    function PostViewOf(p: Post): (v: PostView)
      reads this
      requires p.userId in users
      ensures v.id == p.id && v.content == p.content && v.image == p.image && v.createdAt == p.createdAt
      ensures v.author == AuthorOf(users[p.userId])
      ensures v.likesCount == LikeCount(p.id) && v.commentsCount == |CommentsOn(comments, p.id)|
    {
      PostView(p.id, p.content, p.image, p.createdAt, AuthorOf(users[p.userId]),
               LikeCount(p.id), |CommentsOn(comments, p.id)|)
    }

    function CommentViewOf(c: Comment): (v: CommentView)
      reads this
      requires c.userId in users
      ensures v == CommentView(c.id, c.content, c.createdAt, AuthorOf(users[c.userId]))
    {
      CommentView(c.id, c.content, c.createdAt, AuthorOf(users[c.userId]))
    }

    /** `ORDER BY created_at DESC` over the whole posts table: every post exactly once,
        newest first. The order among posts created at the same instant is the database's. */
    predicate IsNewestFirst(order: seq<int>)
      reads this
    {
      && (forall i :: 0 <= i < |order| ==> order[i] in posts)
      && (forall id :: id in posts ==> id in order)
      && (forall i, j :: 0 <= i < j < |order| ==> order[i] != order[j])
      && (forall i, j :: 0 <= i < j < |order| ==> posts[order[i]].createdAt >= posts[order[j]].createdAt)
    }

    /** `filter_by(<column>=value).first()` on the users table. */
    method FindUserBy(key: UserKey, value: string) returns (found: Option<int>)
      ensures found.Some? ==> found.value in users && KeyOf(users[found.value], key) == value
      ensures found.None? <==> forall id :: id in users ==> KeyOf(users[id], key) != value
    {
      var rest := users.Keys;
      while rest != {}
        invariant rest <= users.Keys
        invariant forall id :: id in users && id !in rest ==> KeyOf(users[id], key) != value
        decreases rest
      {
        EmptyIfNoElement(rest);
        var id :| id in rest;
        if KeyOf(users[id], key) == value {
          return Some(id);
        }
        rest := rest - {id};
      }
      return None;
    }

    /** POST /api/auth/register. `id` is the primary key the database assigns to the new
        row and `now` the creation time. */
    method Register(req: RegisterRequest, id: int, now: int) returns (r: Response)
      requires Valid()
      requires id !in users
      modifies this
      ensures Valid()
      ensures !(Given(req.username) && Given(req.email) && Given(req.password)) ==>
        r == Response(400, Error("Faltan campos requeridos")) && unchanged(this)
      ensures Given(req.username) && Given(req.email) && Given(req.password) ==>
        if old(Taken(ByUsername, req.username.value)) then
          r == Response(400, Error("El nombre de usuario ya existe")) && unchanged(this)
        else if old(Taken(ByEmail, req.email.value)) then
          r == Response(400, Error("El email ya está registrado")) && unchanged(this)
        else
          var u := User(id, req.username.value, req.email.value, hash(req.password.value),
                        req.bio.GetOr(""), "", now);
          && users == old(users)[id := u]
          && posts == old(posts) && likes == old(likes) && comments == old(comments)
          && r == Response(201, Auth("Usuario registrado exitosamente", issueToken(id), UserViewOf(u)))
    {
      if !(Given(req.username) && Given(req.email) && Given(req.password)) {
        return Response(400, Error("Faltan campos requeridos"));
      }
      var sameName := FindUserBy(ByUsername, req.username.value);
      if sameName.Some? {
        return Response(400, Error("El nombre de usuario ya existe"));
      }
      var sameEmail := FindUserBy(ByEmail, req.email.value);
      if sameEmail.Some? {
        return Response(400, Error("El email ya está registrado"));
      }
      var u := User(id, req.username.value, req.email.value, hash(req.password.value),
                    req.bio.GetOr(""), "", now);
      users := users[id := u];
      r := Response(201, Auth("Usuario registrado exitosamente", issueToken(id), UserViewOf(u)));
    }

    /** Some user has this username and the password checks against that user's hash. */
    ghost predicate CanLogIn(username: string, password: string)
      reads this
    {
      exists id :: id in users && users[id].username == username && checkHash(users[id].passwordHash, password)
    }

    /** POST /api/auth/login. Changes no table. An unknown username and a wrong password get
        the same answer. */
    method Login(req: LoginRequest) returns (r: Response)
      requires Valid()
      ensures !(Given(req.username) && Given(req.password)) ==>
        r == Response(400, Error("Faltan credenciales"))
      ensures Given(req.username) && Given(req.password) && !CanLogIn(req.username.value, req.password.value) ==>
        r == Response(401, Error("Credenciales inválidas"))
      ensures Given(req.username) && Given(req.password) ==>
        forall id :: id in users && users[id].username == req.username.value
                     && checkHash(users[id].passwordHash, req.password.value) ==>
          r == Response(200, Auth("Login exitoso", issueToken(id), UserViewOf(users[id])))
    {
      if !(Given(req.username) && Given(req.password)) {
        return Response(400, Error("Faltan credenciales"));
      }
      var name, password := req.username.value, req.password.value;
      var found := FindUserBy(ByUsername, name);
      if found.None? || !checkHash(users[found.value].passwordHash, password) {
        forall id | id in users && users[id].username == name
          ensures found.Some? && id == found.value
        {
        }
        return Response(401, Error("Credenciales inválidas"));
      }
      var u := users[found.value];
      forall id | id in users && users[id].username == name
        ensures id == found.value
      {
      }
      r := Response(200, Auth("Login exitoso", issueToken(found.value), UserViewOf(u)));
    }

    /** Registration followed by a login with the same username and password: the new user
        gets in at once, with a token for its own id, provided the hash library checks a
        hash against the password it was made from. */
    method RegisterThenLogin(req: RegisterRequest, id: int, now: int)
      returns (registered: Response, loggedIn: Response)
      requires Valid() && HashSound()
      requires id !in users
      requires Given(req.username) && Given(req.email) && Given(req.password)
      requires !Taken(ByUsername, req.username.value) && !Taken(ByEmail, req.email.value)
      modifies this
      ensures Valid() && id in users
      ensures registered.status == 201
      ensures loggedIn == Response(200, Auth("Login exitoso", issueToken(id), UserViewOf(users[id])))
    {
      registered := Register(req, id, now);
      assert users[id].username == req.username.value;
      assert checkHash(users[id].passwordHash, req.password.value);
      loggedIn := Login(LoginRequest(req.username, req.password));
    }

    /** GET /api/auth/profile for the user the token names. */
    method GetProfile(userId: int) returns (r: Response)
      ensures userId !in users ==> r == Response(404, Error("Usuario no encontrado"))
      ensures userId in users ==>
        r == Response(200, Profile(UserViewOf(users[userId]), users[userId].createdAt))
    {
      if userId !in users {
        return Response(404, Error("Usuario no encontrado"));
      }
      var u := users[userId];
      r := Response(200, Profile(UserViewOf(u), u.createdAt));
    }

    /** PUT /api/auth/profile: only the keys present in the body change. */
    method UpdateProfile(userId: int, data: ProfileFields) returns (r: Response)
      requires Valid()
      modifies this
      ensures Valid()
      ensures posts == old(posts) && likes == old(likes) && comments == old(comments)
      ensures userId !in old(users) ==>
        r == Response(404, Error("Usuario no encontrado")) && users == old(users)
      ensures userId in old(users) ==>
        var u := old(users)[userId];
        var u' := u.(bio := data.bio.GetOr(u.bio), profilePic := data.profilePic.GetOr(u.profilePic));
        && users == old(users)[userId := u']
        && r == Response(200, ProfileUpdated("Perfil actualizado exitosamente", UserViewOf(u')))
    {
      if userId !in users {
        return Response(404, Error("Usuario no encontrado"));
      }
      var u := users[userId];
      if data.bio.Some? {
        u := u.(bio := data.bio.value);
      }
      if data.profilePic.Some? {
        u := u.(profilePic := data.profilePic.value);
      }
      users := users[userId := u];
      r := Response(200, ProfileUpdated("Perfil actualizado exitosamente", UserViewOf(u)));
    }

    /** GET /api/posts. `page` and `perPage` are the query arguments (None when absent or
        not integers); `order` is the newest-first listing the database returns. */
    method GetPosts(page: Option<int>, perPage: Option<int>, order: seq<int>) returns (r: Response)
      requires Valid()
      requires IsNewestFirst(order)
      ensures r.status == 200 && r.body.PostPage?
      ensures r.body.total == |posts| && r.body.currentPage == page.GetOr(1)
      ensures r.body.pages == PageCount(|posts|, ClampPerPage(perPage.GetOr(10)))
      ensures var items := PageItems(order, page.GetOr(1), perPage.GetOr(10));
        && |r.body.posts| == |items|
        && forall k :: 0 <= k < |items| ==>
             items[k] in posts && posts[items[k]].userId in users && r.body.posts[k] == PostViewOf(posts[items[k]])
    {
      var items := PageItems(order, page.GetOr(1), perPage.GetOr(10));
      assert forall id :: id in posts ==> posts[id].userId in users;
      var data: seq<PostView> := [];
      var i := 0;
      while i < |items|
        invariant 0 <= i <= |items|
        invariant |data| == i
        invariant forall k :: 0 <= k < i ==> items[k] in posts && data[k] == PostViewOf(posts[items[k]])
      {
        assert items[i] in order;
        var p := posts[items[i]];
        data := data + [PostViewOf(p)];
        i := i + 1;
      }
      r := Response(200, PostPage(data, |posts|, PageCount(|posts|, ClampPerPage(perPage.GetOr(10))), page.GetOr(1)));
    }

    /** POST /api/posts by the user the token names; `id` is the key the database assigns. */
    method CreatePost(userId: int, data: PostFields, id: int, now: int) returns (r: Response)
      requires Valid()
      requires userId in users && id !in posts
      modifies this
      ensures Valid()
      ensures users == old(users) && likes == old(likes) && comments == old(comments)
      ensures !Given(data.content) ==>
        r == Response(400, Error("El contenido es requerido")) && posts == old(posts)
      ensures Given(data.content) ==>
        var p := Post(id, data.content.value, data.image.GetOr(""), now, userId);
        && posts == old(posts)[id := p]
        && r == Response(201, PostSaved("Post creado exitosamente",
             PostView(id, p.content, p.image, now, AuthorOf(users[userId]), 0, 0)))
        && r.body.post == PostViewOf(p)
    {
      if !Given(data.content) {
        return Response(400, Error("El contenido es requerido"));
      }
      var p := Post(id, data.content.value, data.image.GetOr(""), now, userId);
      FreshPostHasNoActivity(users, posts, likes, comments, id);
      posts := posts[id := p];
      r := Response(201, PostSaved("Post creado exitosamente",
             PostView(id, p.content, p.image, now, AuthorOf(users[userId]), 0, 0)));
    }

    /** PUT /api/posts/<id>: 404 for a missing post, 403 for someone else's post; otherwise
        only the keys present in the body change. */
    method UpdatePost(userId: int, postId: int, data: PostFields) returns (r: Response)
      requires Valid()
      modifies this
      ensures Valid()
      ensures users == old(users) && likes == old(likes) && comments == old(comments)
      ensures postId !in old(posts) ==>
        r == Response(404, Error("Post no encontrado")) && posts == old(posts)
      ensures postId in old(posts) && old(posts)[postId].userId != userId ==>
        r == Response(403, Error("No tienes permisos para editar este post")) && posts == old(posts)
      ensures postId in old(posts) && old(posts)[postId].userId == userId ==>
        var p := old(posts)[postId];
        var p' := p.(content := data.content.GetOr(p.content), image := data.image.GetOr(p.image));
        && posts == old(posts)[postId := p']
        && r == Response(200, PostSaved("Post actualizado exitosamente", PostViewOf(p')))
    {
      if postId !in posts {
        return Response(404, Error("Post no encontrado"));
      }
      var p := posts[postId];
      if p.userId != userId {
        return Response(403, Error("No tienes permisos para editar este post"));
      }
      if data.content.Some? {
        p := p.(content := data.content.value);
      }
      if data.image.Some? {
        p := p.(image := data.image.value);
      }
      posts := posts[postId := p];
      r := Response(200, PostSaved("Post actualizado exitosamente", PostViewOf(p)));
    }

    /** DELETE /api/posts/<id>: removes the post together with its likes and comments. */
    method DeletePost(userId: int, postId: int) returns (r: Response)
      requires Valid()
      modifies this
      ensures Valid()
      ensures users == old(users)
      ensures postId !in old(posts) ==>
        r == Response(404, Error("Post no encontrado")) && unchanged(this)
      ensures postId in old(posts) && old(posts)[postId].userId != userId ==>
        r == Response(403, Error("No tienes permisos para eliminar este post")) && unchanged(this)
      ensures postId in old(posts) && old(posts)[postId].userId == userId ==>
        && posts == old(posts) - {postId}
        && likes == LikesWithout(old(likes), postId)
        && comments == CommentsNotOn(old(comments), postId)
        && r == Response(200, Message("Post eliminado exitosamente"))
    {
      if postId !in posts {
        return Response(404, Error("Post no encontrado"));
      }
      if posts[postId].userId != userId {
        return Response(403, Error("No tienes permisos para eliminar este post"));
      }
      DeleteCascadeKeepsTablesValid(users, posts, likes, comments, postId);
      posts := posts - {postId};
      likes := LikesWithout(likes, postId);
      comments := CommentsNotOn(comments, postId);
      r := Response(200, Message("Post eliminado exitosamente"));
    }

    /** POST /api/posts/<id>/like: flips the (user, post) pair and reports the new state. */
    method ToggleLike(userId: int, postId: int) returns (r: Response)
      requires Valid()
      requires userId in users
      modifies this
      ensures Valid()
      ensures users == old(users) && posts == old(posts) && comments == old(comments)
      ensures postId !in old(posts) ==>
        r == Response(404, Error("Post no encontrado")) && likes == old(likes)
      ensures postId in old(posts) ==>
        && likes == Toggled(old(likes), (userId, postId))
        && r.status == 200 && r.body.LikeToggled?
        && r.body.isLiked == ((userId, postId) in likes)
        && r.body.likesCount == LikeCount(postId)
        && r.body.message == "Post " + (if r.body.isLiked then "liked" else "unliked") + " exitosamente"
    {
      if postId !in posts {
        return Response(404, Error("Post no encontrado"));
      }
      var pair := (userId, postId);
      var liked := pair !in likes;
      ToggleKeepsLikesValid(users, posts, likes, pair);
      likes := Toggled(likes, pair);
      var action := if liked then "liked" else "unliked";
      r := Response(200, LikeToggled("Post " + action + " exitosamente", LikeCount(postId), liked));
    }

    /** GET /api/posts/<id>/comments: the post's comments (its `comments` relationship, in
        stored order), each with its author. */
    method GetComments(postId: int) returns (r: Response)
      requires Valid()
      ensures postId !in posts ==> r == Response(404, Error("Post no encontrado"))
      ensures postId in posts ==>
        var thread := CommentsOn(comments, postId);
        && r.status == 200 && r.body.CommentList?
        && |r.body.comments| == |thread|
        && forall k :: 0 <= k < |thread| ==>
             thread[k].userId in users && r.body.comments[k] == CommentViewOf(thread[k])
    {
      if postId !in posts {
        return Response(404, Error("Post no encontrado"));
      }
      var thread := CommentsOn(comments, postId);
      forall c | c in thread ensures c.userId in users {
        var j :| 0 <= j < |comments| && comments[j] == c;
      }
      var data: seq<CommentView> := [];
      var i := 0;
      while i < |thread|
        invariant 0 <= i <= |thread|
        invariant |data| == i
        invariant forall k :: 0 <= k < i ==> thread[k].userId in users && data[k] == CommentViewOf(thread[k])
      {
        assert thread[i] in thread;
        data := data + [CommentViewOf(thread[i])];
        i := i + 1;
      }
      r := Response(200, CommentList(data));
    }

    /** POST /api/posts/<id>/comments by the user the token names; `id` is the key the
        database assigns. */
    method CreateComment(userId: int, postId: int, data: CommentRequest, id: int, now: int)
      returns (r: Response)
      requires Valid()
      requires userId in users && !CommentIdUsed(id)
      modifies this
      ensures Valid()
      ensures users == old(users) && posts == old(posts) && likes == old(likes)
      ensures postId !in old(posts) ==>
        r == Response(404, Error("Post no encontrado")) && comments == old(comments)
      ensures postId in old(posts) && !Given(data.content) ==>
        r == Response(400, Error("El contenido del comentario es requerido")) && comments == old(comments)
      ensures postId in old(posts) && Given(data.content) ==>
        var c := Comment(id, data.content.value, now, userId, postId);
        && comments == old(comments) + [c]
        && r == Response(201, CommentSaved("Comentario creado exitosamente", CommentViewOf(c)))
    {
      if postId !in posts {
        return Response(404, Error("Post no encontrado"));
      }
      if !Given(data.content) {
        return Response(400, Error("El contenido del comentario es requerido"));
      }
      var c := Comment(id, data.content.value, now, userId, postId);
      comments := comments + [c];
      r := Response(201, CommentSaved("Comentario creado exitosamente", CommentViewOf(c)));
    }
  }

  /** After a post's comments are dropped, every remaining comment still points at a
      remaining post and an existing user, and the remaining ids stay distinct. */
  lemma KeptCommentsValid(comments: seq<Comment>, postId: int, posts: map<int, Post>, users: map<int, User>)
    requires CommentsValid(users, posts, comments) && CommentIdsDistinct(comments)
    ensures var kept := CommentsNotOn(comments, postId);
      CommentsValid(users, posts - {postId}, kept) && CommentIdsDistinct(kept)
  {
    var kept := CommentsNotOn(comments, postId);
    forall i | 0 <= i < |kept|
      ensures kept[i].postId in posts - {postId} && kept[i].userId in users
    {
      assert kept[i] in comments;
      var j :| 0 <= j < |comments| && comments[j] == kept[i];
    }
    KeptCommentIdsDistinct(comments, postId);
  }

  /** Dropping comments keeps the remaining ids pairwise distinct. */
  lemma {:induction false} KeptCommentIdsDistinct(comments: seq<Comment>, postId: int)
    requires CommentIdsDistinct(comments)
    ensures CommentIdsDistinct(CommentsNotOn(comments, postId))
    decreases |comments|
  {
    if comments != [] {
      var init := comments[..|comments| - 1];
      var last := comments[|comments| - 1];
      forall i, j | 0 <= i < j < |init| ensures init[i].id != init[j].id {
        assert init[i] == comments[i] && init[j] == comments[j];
      }
      KeptCommentIdsDistinct(init, postId);
      var k0 := CommentsNotOn(init, postId);
      if last.postId != postId {
        LastIdIsFresh(comments);
        var kept := k0 + [last];
        assert CommentsNotOn(comments, postId) == kept;
        forall i, j | 0 <= i < j < |kept| ensures kept[i].id != kept[j].id {
          if j == |k0| {
            assert kept[i] == k0[i] && k0[i] in k0;
          } else {
            assert kept[i] == k0[i] && kept[j] == k0[j];
          }
        }
      } else {
        assert CommentsNotOn(comments, postId) == k0 + [];
      }
    }
  }

  /** With distinct ids, the id of the last comment is used by no earlier comment. */
  lemma LastIdIsFresh(comments: seq<Comment>)
    requires comments != [] && CommentIdsDistinct(comments)
    ensures forall c :: c in comments[..|comments| - 1] ==> c.id != comments[|comments| - 1].id
  {
    var init := comments[..|comments| - 1];
    forall c | c in init ensures c.id != comments[|comments| - 1].id {
      var m :| 0 <= m < |init| && init[m] == c;
      assert comments[m] == c;
    }
  }
}
