# Logged-in homepage view: feed, like toggle and post draft

This project models the client-side state of the logged-in homepage of a
small social web application (`front-end/website/src/pages/HomepageLogged.jsx`).
The view holds three things: the viewer's name, the feed (an ordered list of
posts, each with an id, an author, a content record of location, description
and "MM/YYYY" date, a like count and the viewer's own like flag) and the draft
of a new post (location, description, date). Three handlers change that state:

- the like/unlike toggle rebuilds the feed, flipping the flag of every post
  with the target id and moving its count by one towards the new flag, and
  picks the endpoint (`/like-post` or `/unlike-post`) from the new flag of
  the first such post;
- an edit of one form input overwrites that one field of the draft;
- a successful submission puts the created post in front of the feed and
  empties the draft; a failed one changes nothing.

Layout:

- `posts.dfy`, module `Posts`: the `Post` and `Content` datatypes, the
  toggle as a pure function (`Flip` is the map's callback, `Toggle` the map),
  `Find` (the list's `find`), `EndpointFor`, and the lemmas about them.
- `drafts.dfy`, module `Drafts`: the `Draft` record, the `Field` names of the
  three inputs, `SetField` (the object-spread overwrite) and its lemmas.
- `homepage.dfy`, module `Homepage`: class `View` with the fields `userName`,
  `posts` and `draft`; its methods assign the results of the pure functions,
  as the component's `setPosts` and `setNewPost` calls do. `Walkthrough` is a
  client that drives the view through liking, unliking, editing and posting
  using only the methods' contracts.

Post ids are a type parameter with equality only, since the view compares them
with `===` and nothing else. Like counts are unbounded integers. The network is
not modelled: a toggle returns the request it would send (`LikeRequest`: the
endpoint and the post id), a submission returns the draft it sends as the
request body and receives the back end's answer as a parameter (`Some(post)`
for the created post, `None` for a failed request).

Like the source, the toggle itself does not keep counts consistent with flags;
`WellFormed` (count not negative, and at least one when the viewer likes the
post) is a property of the data that the toggle preserves, proved as a lemma.

## Model

| member | source | states |
|---|---|---|
| `Posts.Toggle` | front-end/website/src/pages/HomepageLogged.jsx:80-88 | the rebuilt feed has as many posts as the old one |
| `Posts.ToggleAt` | front-end/website/src/pages/HomepageLogged.jsx:80-88 | each position of the rebuilt feed is the map's callback applied to the post at that position, so the order is kept |
| `Posts.ToggleKeepsIds` | front-end/website/src/pages/HomepageLogged.jsx:85 | the rebuilt feed has the same ids in the same order |
| `Posts.ToggleOthersUnchanged` | front-end/website/src/pages/HomepageLogged.jsx:81-87 | every post whose id differs from the target is returned unchanged |
| `Posts.ToggleTarget` | front-end/website/src/pages/HomepageLogged.jsx:83-85 | a post with the target id gets the negated flag, its count plus one if the new flag is set and minus one otherwise, and keeps its id, author and content |
| `Posts.ToggleAbsent` | front-end/website/src/pages/HomepageLogged.jsx:80-88 | toggling an id no post has returns the feed unchanged |
| `Posts.ToggleTwice` | front-end/website/src/pages/HomepageLogged.jsx:80-88 | toggling the same id twice returns the original feed |
| `Posts.ToggleCommutes` | front-end/website/src/pages/HomepageLogged.jsx:80-88 | toggles of two ids give the same feed in either order, so toggles of different posts do not interfere |
| `Posts.ToggleKeepsWellFormed` | front-end/website/src/pages/HomepageLogged.jsx:83-84 | if every post has a non-negative count that is at least one when liked, the same holds after a toggle |
| `Posts.Find` | front-end/website/src/pages/HomepageLogged.jsx:92 | the result is None exactly when no post has the id; otherwise it is the index of a post with the id and no earlier post has it |
| `Posts.FindByIds` | front-end/website/src/pages/HomepageLogged.jsx:92 | two feeds with the same ids in the same order have the same first match |
| `Posts.EndpointFollowsNewFlag` | front-end/website/src/pages/HomepageLogged.jsx:92-94 | with the target present, the rebuilt feed still has it at the same first position, and the endpoint is Like exactly when that post's new flag is set, i.e. exactly when the viewer had not liked it before |
| `Drafts.SetField` | front-end/website/src/pages/HomepageLogged.jsx:107 | the named field holds the new text and the other two fields keep theirs |
| `Drafts.SetFieldLastWins` | front-end/website/src/pages/HomepageLogged.jsx:105-108 | of two edits of the same field the later one decides the draft |
| `Drafts.SetFieldCommutes` | front-end/website/src/pages/HomepageLogged.jsx:105-108 | edits of two different fields give the same draft in either order |
| `Drafts.SetFieldSame` | front-end/website/src/pages/HomepageLogged.jsx:107 | writing a field's own text back leaves the draft as it was |
| `Homepage.View.constructor` | front-end/website/src/pages/HomepageLogged.jsx:21-31 | a new view has an empty name, an empty feed and a draft of three empty strings |
| `Homepage.View.LikePost` | front-end/website/src/pages/HomepageLogged.jsx:76-102 | requires the id to be in the feed; the new feed is the toggle of the old one, the request carries the id and the endpoint chosen from the new flag (Like exactly when the old flag was clear), a well-formed feed stays well-formed, name and draft are unchanged |
| `Homepage.View.PostReset` | front-end/website/src/pages/HomepageLogged.jsx:105-108 | the new draft is the old one with the named field overwritten; feed and name are unchanged |
| `Homepage.View.HandlePost` | front-end/website/src/pages/HomepageLogged.jsx:110-125 | the request body is the old draft; on success the new feed is the created post followed by the old feed in order and the draft is three empty strings; on failure feed and draft are unchanged; a well-formed created post keeps a well-formed feed well-formed |

## Left out

- `Homepage.View.LikePost`: requires the id to be present in the feed. The
  source reads `.likedByUser` of the result of `find` (line 92), which throws
  when no post matches; its only caller passes the id of a post it is
  rendering (line 185).
- `Homepage.View.PostReset`: the input name is one of the three form fields
  (`Field`). The source writes whatever `name` the event target carries
  (line 107); the only inputs wired to it are named `location`,
  `description` and `date` (lines 143, 153, 163).
- The network requests (`/user-details`, `/all-posts`, `/logout`,
  `/like-post`, `/unlike-post`, `/add-post`): foreign I/O. A toggle returns
  the request it would send; a submission takes the back end's answer as a
  parameter. The like/unlike response is ignored by the source, so it has no
  counterpart here.
- The loaders run on mount (lines 33-62) that fill the name and the feed:
  concurrent asynchronous loads whose results are taken verbatim. The
  `userName` field is therefore only ever set by the constructor.
- Error logging with `console.error`: diagnostic output only.
- Asynchronous interleavings: each handler here acts on the current state,
  whereas the source's handlers read the `posts` and `newPost` of the render
  that created them, so rapid toggles or a toggle during a pending
  submission can act on a stale feed. That is concurrency, not modelled.
- Logout (lines 65-73): a request followed by browser navigation.
- Rendering (lines 128-194): user interface.
- The unused `postData` object (lines 112-114).
- `back-end/app/main.py` and `back-end/app/routers/manage_post.py`:
  application assembly, rate limiting through a foreign library and a clock,
  and route wrappers over a service that is not part of this model.
