/** One post of the feed as a card: its like button, its in-place editor and its delete
    button, the last two shown only to the post's author. */
module PostCard {
  import opened Common
  import opened Api
  import Backend

  /** `isOwner`: a signed-in user whose id is the author's. Nobody owns a post while
      signed out. */
  function IsOwner(user: Option<UserView>, post: PostView): (owner: bool)
    ensures user.None? ==> !owner
    ensures user.Some? ==> (owner <==> user.value.id == post.author.id)
  {
    user.Some? && user.value.id == post.author.id
  }

  /** The card shows its edit and delete controls exactly to the user the server lets
      edit and delete the post: the listing's author is the post's `user_id`. */
  lemma OwnerControlsMatchServer(store: Backend.Store, p: Backend.Post, user: UserView)
    requires store.Valid() && p.userId in store.users
    ensures IsOwner(Some(user), store.PostViewOf(p)) <==> p.userId == user.id
  {
    assert store.users[p.userId].id == p.userId;
  }

  class PostCardState {
    /** The `post` prop: the feed's current copy of the post, replaced on every re-render. */
    var post: PostView
    var isLiked: bool
    var likesCount: int
    var isEditing: bool
    var editContent: string
    var loading: bool

    /** A fresh card: not liked yet (whatever the server knows), the listing's count. */
    constructor(post: PostView)
      ensures this.post == post
      ensures !isLiked && likesCount == post.likesCount
      ensures !isEditing && editContent == post.content && !loading
    {
      this.post := post;
      isLiked, likesCount := false, post.likesCount;
      isEditing, editContent, loading := false, post.content, false;
    }

    /** `handleLike`: success adopts the server's like state and count; failure keeps both. */
    method HandleLike(outcome: Outcome<LikeData>)
      modifies this
      ensures post == old(post)
      ensures !loading && isEditing == old(isEditing) && editContent == old(editContent)
      ensures outcome.Success? ==>
        isLiked == outcome.data.isLiked && likesCount == outcome.data.likesCount
      ensures outcome.Failure? ==> isLiked == old(isLiked) && likesCount == old(likesCount)
    {
      loading := true;
      match outcome {
        case Success(data) =>
          isLiked := data.isLiked;
          likesCount := data.likesCount;
        case Failure(_) =>
      }
      loading := false;
    }

    /** `handleEdit`: opens the editor on the post's current text. */
    method HandleEdit()
      modifies this
      ensures post == old(post)
      ensures isEditing && editContent == post.content
      ensures isLiked == old(isLiked) && likesCount == old(likesCount) && loading == old(loading)
    {
      isEditing := true;
      editContent := post.content;
    }

    method SetEditContent(text: string)
      modifies this
      ensures post == old(post)
      ensures editContent == text
      ensures isEditing == old(isEditing) && isLiked == old(isLiked)
      ensures likesCount == old(likesCount) && loading == old(loading)
    {
      editContent := text;
    }

    /** `handleSaveEdit`: sends the edited text (no picture key); success hands the server's
        post to the feed and closes the editor, failure leaves the editor open. */
    method HandleSaveEdit(outcome: Outcome<PostView>)
      returns (request: Backend.PostFields, updated: Option<PostView>)
      modifies this
      ensures post == old(post)
      ensures request == Backend.PostFields(Some(old(editContent)), None)
      ensures !loading && editContent == old(editContent)
      ensures isLiked == old(isLiked) && likesCount == old(likesCount)
      ensures outcome.Success? ==> updated == Some(outcome.data) && !isEditing
      ensures outcome.Failure? ==> updated == None && isEditing == old(isEditing)
    {
      loading := true;
      request := Backend.PostFields(Some(editContent), None);
      match outcome {
        case Success(p) =>
          updated := Some(p);
          isEditing := false;
        case Failure(_) =>
          updated := None;
      }
      loading := false;
    }

    /** `handleCancelEdit`: closes the editor and throws the edit away. */
    method HandleCancelEdit()
      modifies this
      ensures post == old(post)
      ensures !isEditing && editContent == post.content
      ensures isLiked == old(isLiked) && likesCount == old(likesCount) && loading == old(loading)
    {
      isEditing := false;
      editContent := post.content;
    }

    /** A re-render of the feed hands the card the list's current copy of its post (after a
        saved edit, the server's copy): the prop changes, every piece of the card's own state
        keeps its value. */
    method ReceivePost(p: PostView)
      modifies this
      ensures post == p
      ensures isLiked == old(isLiked) && likesCount == old(likesCount) && loading == old(loading)
      ensures isEditing == old(isEditing) && editContent == old(editContent)
    {
      post := p;
    }

    /** `handleDelete`: nothing is sent unless the user confirms; a successful delete asks
        the feed to drop this post. */
    method HandleDelete(confirmed: bool, outcome: Outcome<()>)
      returns (requested: bool, deleted: Option<int>)
      modifies this
      ensures post == old(post)
      ensures requested == confirmed
      ensures !confirmed ==> deleted == None && unchanged(this)
      ensures confirmed ==> !loading
      ensures confirmed && outcome.Success? ==> deleted == Some(post.id)
      ensures confirmed && outcome.Failure? ==> deleted == None
      ensures isLiked == old(isLiked) && likesCount == old(likesCount)
      ensures isEditing == old(isEditing) && editContent == old(editContent)
    {
      if !confirmed {
        return false, None;
      }
      requested := true;
      loading := true;
      deleted := if outcome.Success? then Some(post.id) else None;
      loading := false;
    }
  }
}
