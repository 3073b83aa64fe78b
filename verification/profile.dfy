/** The profile page of the signed-in user: their own posts, picked out of the general
    listing, and the form that edits their bio and picture. */
module Profile {
  import opened Common
  import opened Api
  import Backend
  import AuthContext

  /** The posts of the listing written by `authorId`, every copy of each, in the listing's
      order. */
  function PostsBy(posts: seq<PostView>, authorId: int): (r: seq<PostView>)
    ensures |r| <= |posts|
    ensures forall p :: p in r <==> p in posts && p.author.id == authorId
    ensures forall p :: multiset(r)[p] == if p.author.id == authorId then multiset(posts)[p] else 0
    decreases |posts|
  {
    if posts == [] then []
    else
      assert posts == [posts[0]] + posts[1..];
      (if posts[0].author.id == authorId then [posts[0]] else []) + PostsBy(posts[1..], authorId)
  }

  /** The page keeps the listing's order: its posts are the listing with the other
      authors' posts left out. */
  lemma {:induction false} PostsByKeepsOrder(posts: seq<PostView>, authorId: int)
    ensures IsSubsequence(PostsBy(posts, authorId), posts)
  {
    if posts != [] {
      PostsByKeepsOrder(posts[1..], authorId);
      var rest := PostsBy(posts[1..], authorId);
      if posts[0].author.id == authorId {
        assert PostsBy(posts, authorId) == [posts[0]] + rest;
        assert ([posts[0]] + rest)[1..] == rest;
      } else {
        assert PostsBy(posts, authorId) == rest;
        SubsequenceOfTail(rest, posts);
      }
    }
  }

  /** Every post of the listing is on the page of its author and of nobody else, so the
      pages of two users never share a post. */
  lemma PagesOfDifferentUsersAreDisjoint(posts: seq<PostView>, a: int, b: int)
    requires a != b
    ensures forall p :: p in PostsBy(posts, a) ==> p !in PostsBy(posts, b)
  {
  }

  /** The editable fields of the profile form. */
  datatype ProfileForm = ProfileForm(bio: string, profilePic: string)

  /** `formData` as first built and as restored by cancel: the user's bio and picture, or
      empty fields when there is no user. */
  function InitialForm(user: Option<UserView>): (f: ProfileForm)
    ensures user.None? ==> f == ProfileForm("", "")
    ensures user.Some? ==> f == ProfileForm(user.value.bio, user.value.profilePic)
  {
    match user
    case None => ProfileForm("", "")
    case Some(u) => ProfileForm(OrElse(Some(u.bio), ""), OrElse(Some(u.profilePic), ""))
  }

  /** The inputs of the form, by their `name`. */
  datatype FormField = BioField | PictureField

  class ProfilePage {
    var posts: seq<PostView>
    var loading: bool
    var editing: bool
    var form: ProfileForm
    var saving: bool
    var error: string

    constructor(user: Option<UserView>)
      ensures posts == [] && loading && !editing && form == InitialForm(user) && !saving && error == ""
    {
      posts, loading, editing := [], true, false;
      form, saving, error := InitialForm(user), false, "";
    }

    /** `fetchUserPosts`: with nobody signed in nothing happens. Otherwise the listing is
        fetched (its outcome is `outcome`) and only the user's own posts are kept; a failure
        keeps the old ones. Loading ends false. */
    method FetchUserPosts(user: Option<UserView>, outcome: Outcome<seq<PostView>>)
      returns (requested: bool)
      modifies this
      ensures requested <==> user.Some?
      ensures user.None? ==> unchanged(this)
      ensures user.Some? ==> !loading
      ensures user.Some? && outcome.Success? ==> posts == PostsBy(outcome.data, user.value.id)
      ensures user.Some? && outcome.Failure? ==> posts == old(posts)
      ensures editing == old(editing) && form == old(form) && saving == old(saving) && error == old(error)
    {
      if user.None? {
        return false;
      }
      requested := true;
      loading := true;
      match outcome {
        case Success(listing) =>
          posts := PostsBy(listing, user.value.id);
        case Failure(_) =>
      }
      loading := false;
    }

    /** `handleInputChange` (and the picture upload, which stores its data URL the same
        way): only the named field changes. */
    method HandleInputChange(field: FormField, value: string)
      modifies this
      ensures form.bio == (if field == BioField then value else old(form.bio))
      ensures form.profilePic == (if field == PictureField then value else old(form.profilePic))
      ensures posts == old(posts) && loading == old(loading) && editing == old(editing)
      ensures saving == old(saving) && error == old(error)
    {
      match field {
        case BioField => form := form.(bio := value);
        case PictureField => form := form.(profilePic := value);
      }
    }

    /** `handleSave`: the session's `updateProfile` with both fields (its outcome is
        `outcome`); success leaves edit mode, failure shows the reported message and stays
        in it. `saving` ends false. */
    method HandleSave(session: AuthContext.AuthProvider, outcome: Outcome<UserView>)
      returns (request: Backend.ProfileFields)
      requires session.Valid()
      requires session.authorization.None? ==> outcome.Failure?
      modifies this, session
      ensures session.Valid()
      ensures request == Backend.ProfileFields(Some(old(form).bio), Some(old(form).profilePic))
      ensures !saving && form == old(form) && posts == old(posts) && loading == old(loading)
      ensures session.token == old(session.token) && session.authorization == old(session.authorization)
      ensures outcome.Success? ==> !editing && error == "" && session.user == Some(outcome.data)
      ensures outcome.Failure? ==>
        && editing == old(editing)
        && error == OrElse(outcome.serverError, AuthContext.UpdateProfileFallback)
        && session.user == old(session.user)
    {
      saving := true;
      error := "";
      var err;
      request, err := session.UpdateProfile(form.bio, Some(form.profilePic), outcome);
      if err.None? {
        editing := false;
      } else {
        error := err.value;
      }
      saving := false;
    }

    /** The "edit profile" button. */
    method StartEditing()
      modifies this
      ensures editing
      ensures posts == old(posts) && loading == old(loading) && form == old(form)
      ensures saving == old(saving) && error == old(error)
    {
      editing := true;
    }

    /** `handleCancel`: the form goes back to the user's saved values, edit mode ends and
        the error is cleared. */
    method HandleCancel(user: Option<UserView>)
      modifies this
      ensures form == InitialForm(user) && !editing && error == ""
      ensures posts == old(posts) && loading == old(loading) && saving == old(saving)
    {
      form := InitialForm(user);
      editing := false;
      error := "";
    }
  }
}
