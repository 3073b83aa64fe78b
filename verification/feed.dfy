/** The feed page: the list of posts it shows, kept in step with the server by three list
    edits (a new post, an edited post, a deleted post) and refreshed by one fetch. */
module Feed {
  import opened Common
  import opened Api

  const FetchError: string := "Error al cargar los posts"

  /** `handleNewPost`: the new post goes on top of the list. */
  function WithNewPost(posts: seq<PostView>, newPost: PostView): (r: seq<PostView>)
    ensures |r| == |posts| + 1
    ensures r[0] == newPost && r[1..] == posts
  {
    [newPost] + posts
  }

  /** `handleUpdatePost`: every post carrying the edited post's id becomes the edited post;
      the list keeps its length and order. */
  function WithUpdatedPost(posts: seq<PostView>, updated: PostView): (r: seq<PostView>)
    ensures |r| == |posts|
    ensures forall i :: 0 <= i < |posts| && posts[i].id == updated.id ==> r[i] == updated
    ensures forall i :: 0 <= i < |posts| && posts[i].id != updated.id ==> r[i] == posts[i]
    decreases |posts|
  {
    if posts == [] then []
    else [if posts[0].id == updated.id then updated else posts[0]] + WithUpdatedPost(posts[1..], updated)
  }

  /** `handleDeletePost`: the posts whose id differs from the deleted one, every copy of
      each, in their order. */
  function WithoutPost(posts: seq<PostView>, postId: int): (r: seq<PostView>)
    ensures |r| <= |posts|
    ensures forall p :: p in r <==> p in posts && p.id != postId
    ensures forall p :: multiset(r)[p] == if p.id != postId then multiset(posts)[p] else 0
    decreases |posts|
  {
    if posts == [] then []
    else
      assert posts == [posts[0]] + posts[1..];
      (if posts[0].id != postId then [posts[0]] else []) + WithoutPost(posts[1..], postId)
  }

  /** Applying the same edit twice is applying it once. */
  lemma {:induction false} UpdateIdempotent(posts: seq<PostView>, updated: PostView)
    ensures WithUpdatedPost(WithUpdatedPost(posts, updated), updated) == WithUpdatedPost(posts, updated)
  {
    var once := WithUpdatedPost(posts, updated);
    var twice := WithUpdatedPost(once, updated);
    assert |twice| == |once|;
    forall i | 0 <= i < |once| ensures twice[i] == once[i] {
      if posts[i].id == updated.id {
        assert once[i] == updated;
      } else {
        assert once[i] == posts[i];
      }
    }
  }

  /** An edit of a post the list does not hold leaves the list as it is. */
  lemma UpdateAbsentIsNoOp(posts: seq<PostView>, updated: PostView)
    requires forall p :: p in posts ==> p.id != updated.id
    ensures WithUpdatedPost(posts, updated) == posts
  {
    var r := WithUpdatedPost(posts, updated);
    forall i | 0 <= i < |posts| ensures r[i] == posts[i] {
      assert posts[i] in posts;
    }
  }

  /** Deleting the same post twice is deleting it once. */
  lemma {:induction false} DeleteIdempotent(posts: seq<PostView>, postId: int)
    ensures WithoutPost(WithoutPost(posts, postId), postId) == WithoutPost(posts, postId)
  {
    if posts != [] {
      DeleteIdempotent(posts[1..], postId);
      var rest := WithoutPost(posts[1..], postId);
      if posts[0].id != postId {
        assert WithoutPost(posts, postId) == [posts[0]] + rest;
        WithoutPostCons(posts[0], rest, postId);
      } else {
        assert WithoutPost(posts, postId) == rest;
      }
    }
  }

  /** One step of the filter, on a list given as its head and tail. */
  lemma WithoutPostCons(head: PostView, tail: seq<PostView>, postId: int)
    ensures WithoutPost([head] + tail, postId)
      == (if head.id != postId then [head] else []) + WithoutPost(tail, postId)
  {
    assert ([head] + tail)[1..] == tail;
  }

  /** Deleting a post the list does not hold leaves the list as it is. */
  lemma {:induction false} DeleteAbsentIsNoOp(posts: seq<PostView>, postId: int)
    requires forall p :: p in posts ==> p.id != postId
    ensures WithoutPost(posts, postId) == posts
  {
    if posts != [] {
      assert posts[0] in posts;
      DeleteAbsentIsNoOp(posts[1..], postId);
      assert [posts[0]] + posts[1..] == posts;
    }
  }

  /** What is kept after a deletion is the old list with some posts left out, the others
      in their old order. */
  lemma {:induction false} DeleteKeepsOrder(posts: seq<PostView>, postId: int)
    ensures IsSubsequence(WithoutPost(posts, postId), posts)
  {
    if posts != [] {
      DeleteKeepsOrder(posts[1..], postId);
      var rest := WithoutPost(posts[1..], postId);
      if posts[0].id != postId {
        assert WithoutPost(posts, postId) == [posts[0]] + rest;
        assert ([posts[0]] + rest)[1..] == rest;
      } else {
        assert WithoutPost(posts, postId) == rest;
        SubsequenceOfTail(rest, posts);
      }
    }
  }

  /** A post that was just created and then deleted leaves the list it was added to, minus
      any older post with the same id. With fresh ids, the list is back as it was. */
  lemma CreateThenDelete(posts: seq<PostView>, newPost: PostView)
    ensures WithoutPost(WithNewPost(posts, newPost), newPost.id) == WithoutPost(posts, newPost.id)
    ensures (forall p :: p in posts ==> p.id != newPost.id) ==>
      WithoutPost(WithNewPost(posts, newPost), newPost.id) == posts
  {
    var added := WithNewPost(posts, newPost);
    assert added[1..] == posts;
    if forall p :: p in posts ==> p.id != newPost.id {
      DeleteAbsentIsNoOp(posts, newPost.id);
    }
  }

  class FeedState {
    var posts: seq<PostView>
    var loading: bool
    var error: string

    /** The page as mounted, before its first fetch completes. */
    constructor()
      ensures posts == [] && loading && error == ""
    {
      posts, loading, error := [], true, "";
    }

    /** `fetchPosts`: success shows the server's list and clears the error; failure keeps
        the old list and shows the fixed message. Loading ends false either way. */
    method FetchPosts(outcome: Outcome<seq<PostView>>)
      modifies this
      ensures !loading
      ensures outcome.Success? ==> posts == outcome.data && error == ""
      ensures outcome.Failure? ==> posts == old(posts) && error == FetchError
    {
      loading := true;
      match outcome {
        case Success(data) =>
          posts := data;
          error := "";
        case Failure(_) =>
          error := FetchError;
      }
      loading := false;
    }

    method HandleNewPost(newPost: PostView)
      modifies this
      ensures posts == WithNewPost(old(posts), newPost)
      ensures loading == old(loading) && error == old(error)
    {
      posts := WithNewPost(posts, newPost);
    }

    method HandleUpdatePost(updated: PostView)
      modifies this
      ensures posts == WithUpdatedPost(old(posts), updated)
      ensures loading == old(loading) && error == old(error)
    {
      posts := WithUpdatedPost(posts, updated);
    }

    method HandleDeletePost(postId: int)
      modifies this
      ensures posts == WithoutPost(old(posts), postId)
      ensures loading == old(loading) && error == old(error)
    {
      posts := WithoutPost(posts, postId);
    }
  }
}
