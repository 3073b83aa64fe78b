/** The comments dialog of one post: the thread as fetched, the comment being typed, and
    the submit that appends the server's copy of a new comment. */
module CommentsModal {
  import opened Common
  import opened Api
  import Backend

  const FetchError: string := "Error al cargar comentarios"
  const AddFallback: string := "Error al agregar comentario"

  class CommentsDialog {
    const postId: int
    var comments: seq<CommentView>
    var newComment: string
    var loading: bool
    var submitting: bool
    var error: string

    /** The dialog as opened, before its first fetch completes. */
    constructor(postId: int)
      ensures this.postId == postId
      ensures comments == [] && newComment == "" && loading && !submitting && error == ""
    {
      this.postId := postId;
      comments, newComment, loading, submitting, error := [], "", true, false, "";
    }

    /** `fetchComments`: success shows the server's thread, failure keeps the old one and
        shows the fixed message. A success does not clear an earlier error. Loading ends
        false on every path. */
    method FetchComments(outcome: Outcome<seq<CommentView>>)
      modifies this
      ensures !loading
      ensures newComment == old(newComment) && submitting == old(submitting)
      ensures outcome.Success? ==> comments == outcome.data && error == old(error)
      ensures outcome.Failure? ==> comments == old(comments) && error == FetchError
    {
      loading := true;
      match outcome {
        case Success(data) =>
          comments := data;
        case Failure(_) =>
          error := FetchError;
      }
      loading := false;
    }

    method SetNewComment(text: string)
      modifies this
      ensures newComment == text
      ensures comments == old(comments) && loading == old(loading)
      ensures submitting == old(submitting) && error == old(error)
    {
      newComment := text;
    }

    /** `handleSubmit`: blank text does nothing at all. Otherwise the trimmed text is posted
        (the outcome is `outcome`); success appends the server's comment, empties the input
        and notifies the card; failure shows the server's `error` or the fallback and keeps
        the list and the input. `submitting` ends false. */
    method HandleSubmit(outcome: Outcome<CommentView>)
      returns (request: Option<Backend.CommentRequest>, notified: bool)
      modifies this
      ensures loading == old(loading)
      ensures IsBlank(old(newComment)) ==> request == None && !notified && unchanged(this)
      ensures !IsBlank(old(newComment)) ==>
        && request == Some(Backend.CommentRequest(Some(Trim(old(newComment)))))
        && Backend.Given(request.value.content)
        && !submitting
      ensures !IsBlank(old(newComment)) && outcome.Success? ==>
        && comments == old(comments) + [outcome.data]
        && newComment == ""
        && notified
        && error == ""
      ensures !IsBlank(old(newComment)) && outcome.Failure? ==>
        && comments == old(comments)
        && newComment == old(newComment)
        && !notified
        && error == OrElse(outcome.serverError, AddFallback)
    {
      var text := Trim(newComment);
      if text == "" {
        return None, false;
      }
      submitting := true;
      error := "";
      request := Some(Backend.CommentRequest(Some(text)));
      match outcome {
        case Success(comment) =>
          comments := comments + [comment];
          newComment := "";
          notified := true;
        case Failure(serverError) =>
          error := OrElse(serverError, AddFallback);
          notified := false;
      }
      submitting := false;
    }
  }
}
