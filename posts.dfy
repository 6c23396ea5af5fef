/** The feed of the logged-in homepage: posts, the like/unlike toggle that
    rebuilds the feed, and the choice of the endpoint that reports it. */
module Posts {

  datatype Option<+T> = None | Some(value: T)

  /** What a post tells: where, what and when (the date is "MM/YYYY" text, never checked). */
  datatype Content = Content(location: string, description: string, date: string)

  /** One post of the feed, as the back end delivers it. The identifier is
      opaque; the view only ever compares two of them for equality. */
  datatype Post<Id> = Post(id: Id, username: string, content: Content, likes: int, likedByUser: bool)

  /** The two write endpoints a toggle can report to. */
  datatype Endpoint = Like | Unlike

  /** The agreement between a post's count and the viewer's own like that a
      correct feed has: the count is never negative, and a post the viewer
      likes has at least that one like. */
  predicate WellFormed<Id>(p: Post<Id>)
  {
    p.likes >= 0 && (p.likedByUser ==> p.likes >= 1)
  }

  predicate AllWellFormed<Id>(posts: seq<Post<Id>>)
  {
    forall i :: 0 <= i < |posts| ==> WellFormed(posts[i])
  }

  /** Some post of the feed carries the identifier. */
  predicate HasPost<Id(==)>(posts: seq<Post<Id>>, target: Id)
  {
    exists i :: 0 <= i < |posts| && posts[i].id == target
  }

  /** The identifiers of the feed, in order. */
  function Ids<Id>(posts: seq<Post<Id>>): (r: seq<Id>)
    ensures |r| == |posts|
    ensures forall i :: 0 <= i < |posts| ==> r[i] == posts[i].id
  {
    if posts == [] then [] else [posts[0].id] + Ids(posts[1..])
  }

  /** The callback of the toggle's map: a post with the target identifier
      gets the negated flag and a count moved towards it; any other post is
      returned as it is. */
  function Flip<Id(==)>(p: Post<Id>, target: Id): Post<Id>
  {
    if p.id == target then
      var likedByUser := !p.likedByUser;
      var likes := if likedByUser then p.likes + 1 else p.likes - 1;
      p.(likedByUser := likedByUser, likes := likes)
    else
      p
  }

  /** The feed after the viewer toggles the like of the post `target`. */
  function Toggle<Id(==)>(posts: seq<Post<Id>>, target: Id): (r: seq<Post<Id>>)
    ensures |r| == |posts|
  {
    if posts == [] then [] else [Flip(posts[0], target)] + Toggle(posts[1..], target)
  }

  /** The first post with the identifier, as an index, or None when the feed
      has no such post. */
  function Find<Id(==)>(posts: seq<Post<Id>>, target: Id): (r: Option<nat>)
    ensures r.None? <==> !HasPost(posts, target)
    ensures r.Some? ==> r.value < |posts| && posts[r.value].id == target
    ensures r.Some? ==> forall j :: 0 <= j < r.value ==> posts[j].id != target
  {
    if posts == [] then None
    else if posts[0].id == target then Some(0)
    else
      match Find(posts[1..], target)
      case None =>
        assert forall i :: 1 <= i < |posts| ==> posts[i] == posts[1..][i - 1];
        None
      case Some(k) => Some(k + 1)
  }

  /** The endpoint chosen from the new flag of the first post with the
      identifier in the rebuilt feed. */
  function EndpointFor<Id(==)>(updated: seq<Post<Id>>, target: Id): Endpoint
    requires HasPost(updated, target)
  {
    if updated[Find(updated, target).value].likedByUser then Like else Unlike
  }

  /** The toggle acts on each position by the callback alone. */
  lemma {:induction false} ToggleAt<Id>(posts: seq<Post<Id>>, target: Id, i: nat)
    requires i < |posts|
    ensures Toggle(posts, target)[i] == Flip(posts[i], target)
  {
    if i > 0 {
      ToggleAt(posts[1..], target, i - 1);
    }
  }

  /** The rebuilt feed has the same identifiers in the same order. */
  lemma {:induction false} ToggleKeepsIds<Id>(posts: seq<Post<Id>>, target: Id)
    ensures Ids(Toggle(posts, target)) == Ids(posts)
  {
    var r := Toggle(posts, target);
    forall i | 0 <= i < |posts|
      ensures r[i].id == posts[i].id
    {
      ToggleAt(posts, target, i);
    }
  }

  /** Every post with another identifier is returned unchanged. */
  lemma {:induction false} ToggleOthersUnchanged<Id>(posts: seq<Post<Id>>, target: Id)
    ensures forall i :: 0 <= i < |posts| && posts[i].id != target ==> Toggle(posts, target)[i] == posts[i]
  {
    forall i | 0 <= i < |posts| && posts[i].id != target
      ensures Toggle(posts, target)[i] == posts[i]
    {
      ToggleAt(posts, target, i);
    }
  }

  /** A post with the target identifier gets the negated flag, one more like
      when the new flag is set and one fewer when it is cleared, and keeps
      its identifier, author and content. */
  lemma ToggleTarget<Id>(posts: seq<Post<Id>>, target: Id, i: nat)
    requires i < |posts| && posts[i].id == target
    ensures var q := Toggle(posts, target)[i];
      && q.likedByUser == !posts[i].likedByUser
      && q.likes == (if q.likedByUser then posts[i].likes + 1 else posts[i].likes - 1)
      && q.id == posts[i].id
      && q.username == posts[i].username
      && q.content == posts[i].content
  {
    ToggleAt(posts, target, i);
  }

  /** Toggling an identifier the feed lacks changes nothing. */
  lemma {:induction false} ToggleAbsent<Id>(posts: seq<Post<Id>>, target: Id)
    requires !HasPost(posts, target)
    ensures Toggle(posts, target) == posts
  {
    ToggleOthersUnchanged(posts, target);
  }

  /** Toggling the same post twice gives back the feed it started from. */
  lemma {:induction false} ToggleTwice<Id>(posts: seq<Post<Id>>, target: Id)
    ensures Toggle(Toggle(posts, target), target) == posts
  {
    if posts != [] {
      var once := Toggle(posts, target);
      assert once[1..] == Toggle(posts[1..], target);
      ToggleTwice(posts[1..], target);
    }
  }

  /** Toggles of two posts do not interfere: their order does not matter. */
  lemma {:induction false} ToggleCommutes<Id>(posts: seq<Post<Id>>, a: Id, b: Id)
    ensures Toggle(Toggle(posts, a), b) == Toggle(Toggle(posts, b), a)
  {
    var ab, ba := Toggle(Toggle(posts, a), b), Toggle(Toggle(posts, b), a);
    forall i | 0 <= i < |posts|
      ensures ab[i] == ba[i]
    {
      ToggleAt(posts, a, i);
      ToggleAt(posts, b, i);
      ToggleAt(Toggle(posts, a), b, i);
      ToggleAt(Toggle(posts, b), a, i);
    }
  }

  /** A toggle keeps a well-formed feed well-formed. */
  lemma {:induction false} ToggleKeepsWellFormed<Id>(posts: seq<Post<Id>>, target: Id)
    requires AllWellFormed(posts)
    ensures AllWellFormed(Toggle(posts, target))
  {
    var r := Toggle(posts, target);
    forall i | 0 <= i < |r|
      ensures WellFormed(r[i])
    {
      ToggleAt(posts, target, i);
    }
  }

  /** The first post with an identifier depends on the identifiers alone. */
  lemma {:induction false} FindByIds<Id>(a: seq<Post<Id>>, b: seq<Post<Id>>, target: Id)
    requires Ids(a) == Ids(b)
    ensures Find(a, target) == Find(b, target)
  {
  }

  /** With the target present, the rebuilt feed still holds it at the same
      first position, and the endpoint is Like exactly when that post's new
      flag is set, that is, exactly when the viewer had not liked it. */
  lemma {:induction false} EndpointFollowsNewFlag<Id>(posts: seq<Post<Id>>, target: Id)
    requires HasPost(posts, target)
    ensures HasPost(Toggle(posts, target), target)
    ensures Find(Toggle(posts, target), target) == Find(posts, target)
    ensures var i := Find(posts, target).value;
      && (EndpointFor(Toggle(posts, target), target) == Like <==> Toggle(posts, target)[i].likedByUser)
      && (EndpointFor(Toggle(posts, target), target) == Like <==> !posts[i].likedByUser)
  {
    ToggleKeepsIds(posts, target);
    FindByIds(Toggle(posts, target), posts, target);
    ToggleTarget(posts, target, Find(posts, target).value);
  }
}
