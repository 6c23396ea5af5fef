/** The state of the logged-in homepage view and the handlers that replace it. */
module Homepage {
  import opened Posts
  import opened Drafts

  /** The write request a toggle sends: the endpoint and the body's post id. */
  datatype LikeRequest<Id> = LikeRequest(endpoint: Endpoint, postId: Id)

  /** The view's own state: the greeting's name, the feed and the draft. */
  class View<Id(==)> {
    var userName: string
    var posts: seq<Post<Id>>
    var draft: Draft

    /** A fresh view: no name, no posts and an empty draft. */
    constructor ()
      ensures userName == "" && posts == [] && draft == Empty
    {
      userName := "";
      posts := [];
      draft := Empty;
    }

    /** The viewer toggles the like of the post `postId`: the feed is rebuilt
        at once, and the request to send names the endpoint that matches the
        post's new flag. The request's outcome never touches the state. */
    method LikePost(postId: Id) returns (request: LikeRequest<Id>)
      requires HasPost(posts, postId)
      modifies this
      ensures posts == Toggle(old(posts), postId)
      ensures HasPost(posts, postId)
      ensures request.postId == postId
      ensures request.endpoint == EndpointFor(posts, postId)
      ensures request.endpoint == Like <==> !old(posts)[Find(old(posts), postId).value].likedByUser
      ensures AllWellFormed(old(posts)) ==> AllWellFormed(posts)
      ensures userName == old(userName) && draft == old(draft)
    {
      var updated := Toggle(posts, postId);
      EndpointFollowsNewFlag(posts, postId);
      if AllWellFormed(posts) {
        ToggleKeepsWellFormed(posts, postId);
      }
      posts := updated;
      request := LikeRequest(EndpointFor(updated, postId), postId);
    }

    /** The viewer edits one input of the form: only that field of the draft
        changes. */
    method PostReset(name: Field, value: string)
      modifies this
      ensures draft == SetField(old(draft), name, value)
      ensures posts == old(posts) && userName == old(userName)
    {
      draft := SetField(draft, name, value);
    }

    /** The viewer submits the form. The request body is the whole draft;
        `response` is the created post the back end returns, or None when the
        request fails. On success the created post goes in front of the feed
        and the draft is emptied; on failure nothing changes. */
    method HandlePost(response: Option<Post<Id>>) returns (body: Draft)
      modifies this
      ensures body == old(draft)
      ensures response.Some? ==> posts == [response.value] + old(posts) && draft == Empty
      ensures response.None? ==> posts == old(posts) && draft == old(draft)
      ensures response.Some? && WellFormed(response.value) && AllWellFormed(old(posts)) ==> AllWellFormed(posts)
      ensures userName == old(userName)
    {
      body := draft;
      match response
      case Some(created) =>
        posts := [created] + posts;
        draft := Empty;
      case None =>
    }
  }

  /** A caller's view of the handlers: one post with two likes is liked and
      then unliked again, and a submitted draft is emptied. */
  method Walkthrough()
  {
    var view := new View<int>();
    var bob := Post(1, "bob", Content("Buffalo, NY", "d", "01/2024"), 2, false);
    view.posts := [bob];
    assert view.posts[0].id == 1;
    var request := view.LikePost(1);
    assert view.posts[0] == Flip(bob, 1);
    assert view.posts == [bob.(likes := 3, likedByUser := true)];
    assert request == LikeRequest(Like, 1);
    request := view.LikePost(1);
    ToggleTwice([bob], 1);
    assert view.posts == [bob];
    assert request == LikeRequest(Unlike, 1);

    view.PostReset(Location, "X");
    view.PostReset(Description, "Y");
    view.PostReset(Date, "02/2024");
    var created := Post(2, "alice", Content("X", "Y", "02/2024"), 0, false);
    var body := view.HandlePost(Some(created));
    assert body == Draft("X", "Y", "02/2024");
    assert view.posts == [created, bob] && view.draft == Empty;
  }
}
