/** The dialog that creates a post: its text, the chosen picture (a data URL, or empty),
    the submit rule and what the dialog reports to the feed. */
module NewPostModal {
  import opened Common
  import opened Api
  import Backend

  const ContentRequired: string := "El contenido es requerido"
  const CreateFallback: string := "Error al crear el post"

  /** What the dialog tells its parent, in order: `onPostCreated` with the server's post,
      then `onClose`. */
  datatype Event = PostCreated(post: PostView) | Closed

  class NewPostForm {
    var content: string
    var image: string
    var loading: bool
    var error: string

    constructor()
      ensures content == "" && image == "" && !loading && error == ""
    {
      content, image, loading, error := "", "", false, "";
    }

    /** The publish button is enabled exactly when no request is under way and the text is
        not blank. */
    function SubmitEnabled(): (enabled: bool)
      reads this
      ensures enabled <==> !loading && !IsBlank(content)
    {
      !(loading || Trim(content) == "")
    }

    method SetContent(text: string)
      modifies this
      ensures content == text && image == old(image) && loading == old(loading) && error == old(error)
    {
      content := text;
    }

    /** A picture read by the browser as a data URL. */
    method SetImage(dataUrl: string)
      modifies this
      ensures image == dataUrl && content == old(content) && loading == old(loading) && error == old(error)
    {
      image := dataUrl;
    }

    /** "Eliminar imagen": the post goes out without a picture. */
    method RemoveImage()
      modifies this
      ensures image == "" && content == old(content) && loading == old(loading) && error == old(error)
    {
      image := "";
    }

    /** `handleSubmit`: blank text is refused before any request. Otherwise the trimmed text
        and the current picture are posted (the outcome is `outcome`); success hands the
        server's post to the parent and closes, failure shows the server's `error` or the
        fallback and keeps the dialog open. The text and picture are never changed. */
    method HandleSubmit(outcome: Outcome<PostView>)
      returns (request: Option<Backend.PostFields>, events: seq<Event>)
      modifies this
      ensures content == old(content) && image == old(image)
      ensures IsBlank(old(content)) ==>
        request == None && events == [] && error == ContentRequired && loading == old(loading)
      ensures !IsBlank(old(content)) ==>
        && request == Some(Backend.PostFields(Some(Trim(old(content))), Some(old(image))))
        && Backend.Given(request.value.content)
        && !loading
      ensures !IsBlank(old(content)) && outcome.Success? ==>
        events == [PostCreated(outcome.data), Closed] && error == ""
      ensures !IsBlank(old(content)) && outcome.Failure? ==>
        events == [] && error == OrElse(outcome.serverError, CreateFallback)
    {
      var text := Trim(content);
      if text == "" {
        error := ContentRequired;
        return None, [];
      }
      loading := true;
      error := "";
      request := Some(Backend.PostFields(Some(text), Some(image)));
      match outcome {
        case Success(post) =>
          events := [PostCreated(post), Closed];
        case Failure(serverError) =>
          events := [];
          error := OrElse(serverError, CreateFallback);
      }
      loading := false;
    }
  }
}
