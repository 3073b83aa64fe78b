/** The client's session (AuthProvider): the token kept in the browser's storage, the
    default `Authorization` header every request carries, the signed-in user and the
    start-up `loading` flag. Each remote call is given as its outcome. */
module AuthContext {
  import opened Common
  import opened Api
  import Backend

  const BearerPrefix: string := "Bearer "

  const LoginFallback: string := "Error al iniciar sesión"
  const RegisterFallback: string := "Error al registrarse"
  const UpdateProfileFallback: string := "Error al actualizar perfil"

  /** The credentials of the bearer scheme of section 2.1 of RFC 6750: `Bearer <token>`. */
  function BearerHeader(token: string): (h: string)
    ensures |h| == |BearerPrefix| + |token|
    ensures h[..|BearerPrefix|] == BearerPrefix && h[|BearerPrefix|..] == token
  {
    BearerPrefix + token
  }

  /** The token a header carries when it uses the bearer scheme. */
  function TokenOfHeader(header: string): (t: Option<string>)
    ensures t.Some? <==> |header| >= |BearerPrefix| && header[..|BearerPrefix|] == BearerPrefix
    ensures t.Some? ==> BearerHeader(t.value) == header
  {
    if |header| >= |BearerPrefix| && header[..|BearerPrefix|] == BearerPrefix then
      Some(header[|BearerPrefix|..])
    else
      None
  }

  /** The header gives back the token it was built from, so two tokens never share a header. */
  lemma BearerRoundTrip(token: string)
    ensures TokenOfHeader(BearerHeader(token)) == Some(token)
  {
    var h := BearerHeader(token);
    assert h[..|BearerPrefix|] == BearerPrefix;
  }

  /** `if (token)` on the stored token: it counts only when present and non-empty. */
  predicate Truthy(token: Option<string>)
  {
    token.Some? && token.value != ""
  }

  class AuthProvider {
    /** The `token` entry of the browser's storage. */
    var token: Option<string>
    /** The `Authorization` entry of the HTTP client's default headers. */
    var authorization: Option<string>
    var user: Option<UserView>
    var loading: bool

    /** The header, when set, carries the stored token; once the start-up check is over,
        a usable stored token always has its header; and a signed-in user always comes
        with a stored token and its header. */
    ghost predicate Valid()
      reads this
    {
      && (authorization.Some? ==> token.Some? && authorization.value == BearerHeader(token.value))
      && (!loading && Truthy(token) ==> authorization.Some?)
      && (user.Some? ==> authorization.Some?)
    }

    /** Mounting the provider: no user yet, still loading, whatever the storage holds. */
    constructor(stored: Option<string>)
      ensures Valid()
      ensures token == stored && authorization == None && user == None && loading
    {
      token, authorization, user, loading := stored, None, None, true;
    }

    /** The two start-up effects, run once when the provider mounts (so before anyone has
        signed in): a usable stored token becomes the default header and is
        verified with `GET /auth/profile` (whose outcome is `verify`). The result is the
        header that request carries, or None when no request is made. A rejected token is
        dropped from storage together with its header. `loading` ends false on every path. */
    method Start(verify: Outcome<UserView>) returns (profileRequest: Option<string>)
      requires Valid() && user.None?
      modifies this
      ensures Valid() && !loading
      ensures !Truthy(old(token)) ==>
        profileRequest == None && token == old(token) && authorization == old(authorization) && user == old(user)
      ensures Truthy(old(token)) ==> profileRequest == Some(BearerHeader(old(token).value))
      ensures Truthy(old(token)) && verify.Success? ==>
        token == old(token) && authorization == Some(BearerHeader(old(token).value)) && user == Some(verify.data)
      ensures Truthy(old(token)) && verify.Failure? ==>
        token == None && authorization == None && user == old(user)
    {
      profileRequest := None;
      if Truthy(token) {
        authorization := Some(BearerHeader(token.value));
        profileRequest := authorization;
        match verify
        case Success(data) =>
          user := Some(data);
        case Failure(_) =>
          token := None;
          authorization := None;
      }
      loading := false;
    }

    /** Adopting the token and user of a successful login or registration. */
    method SignIn(data: AuthData)
      requires Valid()
      modifies this
      ensures Valid()
      ensures token == Some(data.accessToken) && authorization == Some(BearerHeader(data.accessToken))
      ensures user == Some(data.user) && loading == old(loading)
    {
      token := Some(data.accessToken);
      authorization := Some(BearerHeader(data.accessToken));
      user := Some(data.user);
    }

    /** `login`: posts the credentials; on success stores the token, sets the header and the
        user from the same response; on failure changes nothing and reports the server's
        `error` or the fallback message. */
    method Login(username: string, password: string, outcome: Outcome<AuthData>)
      returns (payload: Backend.LoginRequest, err: Option<string>)
      requires Valid()
      modifies this
      ensures Valid()
      ensures payload == Backend.LoginRequest(Some(username), Some(password))
      ensures outcome.Success? ==> (
        && err == None
        && token == Some(outcome.data.accessToken)
        && authorization == Some(BearerHeader(outcome.data.accessToken))
        && user == Some(outcome.data.user) && loading == old(loading))
      ensures outcome.Failure? ==>
        unchanged(this) && err == Some(OrElse(outcome.serverError, LoginFallback))
    {
      payload := Backend.LoginRequest(Some(username), Some(password));
      match outcome
      case Success(data) =>
        SignIn(data);
        err := None;
      case Failure(serverError) =>
        err := Some(OrElse(serverError, LoginFallback));
    }

    /** `register`: like `login`, with the bio defaulting to the empty string, so the
        request always carries all four fields. */
    method Register(username: string, email: string, password: string, bio: Option<string>,
                    outcome: Outcome<AuthData>)
      returns (payload: Backend.RegisterRequest, err: Option<string>)
      requires Valid()
      modifies this
      ensures Valid()
      ensures payload.username == Some(username) && payload.email == Some(email)
      ensures payload.password == Some(password)
      ensures bio.Some? ==> payload.bio == bio
      ensures bio.None? ==> payload.bio == Some("")
      ensures outcome.Success? ==> (
        && err == None
        && token == Some(outcome.data.accessToken)
        && authorization == Some(BearerHeader(outcome.data.accessToken))
        && user == Some(outcome.data.user) && loading == old(loading))
      ensures outcome.Failure? ==>
        unchanged(this) && err == Some(OrElse(outcome.serverError, RegisterFallback))
    {
      payload := Backend.RegisterRequest(Some(username), Some(email), Some(password), Some(bio.GetOr("")));
      match outcome
      case Success(data) =>
        SignIn(data);
        err := None;
      case Failure(serverError) =>
        err := Some(OrElse(serverError, RegisterFallback));
    }

    /** `logout`: the state it leaves does not depend on the state it started from, so a
        second call changes nothing. */
    method Logout()
      requires Valid()
      modifies this
      ensures Valid()
      ensures token == None && authorization == None && user == None && loading == old(loading)
    {
      token := None;
      authorization := None;
      user := None;
    }

    /** `updateProfile`: an omitted picture is an absent key of the request. The route
        demands a bearer token, so without a header the call can only fail. Success replaces
        the user wholesale with the server's copy; failure keeps it and reports the server's
        `error` or the fallback. The token and the header are never touched. */
    method UpdateProfile(bio: string, profilePic: Option<string>, outcome: Outcome<UserView>)
      returns (payload: Backend.ProfileFields, err: Option<string>)
      requires Valid()
      requires authorization.None? ==> outcome.Failure?
      modifies this
      ensures Valid()
      ensures payload == Backend.ProfileFields(Some(bio), profilePic)
      ensures token == old(token) && authorization == old(authorization) && loading == old(loading)
      ensures outcome.Success? ==> user == Some(outcome.data) && err == None
      ensures outcome.Failure? ==>
        user == old(user) && err == Some(OrElse(outcome.serverError, UpdateProfileFallback))
    {
      payload := Backend.ProfileFields(Some(bio), profilePic);
      match outcome
      case Success(data) =>
        user := Some(data);
        err := None;
      case Failure(serverError) =>
        err := Some(OrElse(serverError, UpdateProfileFallback));
    }
  }
}
