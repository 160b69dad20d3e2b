# Mini-Linkedin: the relationship and engagement rules

This project models, in Dafny, the rules that the backend's posts and users routers
apply to stored documents once the HTTP and database plumbing is taken away:

- **Posts** (`posts.dfy`, module `Posts`): a `Post` class whose `likes` and `comments`
  are updated in place, and a `PostStore` holding the posts by id. Its methods are the
  handlers: create a post, delete a post (author only), toggle a like, add a comment at
  the head of the list, and delete a comment (comment author only). Each returns an
  `Outcome`: `Ok`, `BadRequest` (400), `Unauthorized` (401), `NotFound` (404) or
  `ServerError` (500), with the message the handler sends.
- **Users** (`users.dfy`, module `Users`): a `User` class whose `following` and
  `followers` lists are updated in place, and a `UserStore` holding the users by id.
  Its methods are the follow/unfollow toggle, which rewrites the actor's `following`
  and the target's `followers` together, and the profile update, which merges only the
  supplied fields. The follow relation is also given as a value: `Graph()` maps each
  user id to its two lists. `Consistent` is the store-wide invariant. It requires every
  pair of users to be `Mirrored`: "a follows b" is recorded on both records or on
  neither. It also requires every user to be `WellFormed`: no duplicates, and never
  the user themself.
- **Shared pieces** (`common.dfy`, module `Common`): ids, outcomes, and the list
  operations the toggles are built from. `Without` is the reference meaning of
  `filter(e => e !== x)`. `FilterOut` is the scanning loop, proved equal to `Without`.
  `Toggled` is the find-then-filter-or-push step.

Ids are natural numbers compared by equality. This stands for the source's comparisons
of canonical id strings: `toString()` on stored ids, and `===` with the raw route
parameter. The id of the acting user comes from the authentication middleware, which is
not part of this model. Here it is a parameter of each handler. The ids of new posts and
new comments are generated by the database and are parameters too.

The model follows the code:

- `likes`, `following` and `followers` are arrays. Unliking and unfollowing filter out
  every copy of the id.
- A self-follow is answered with 400 and "You cannot follow yourself".
- Deleting a comment removes the first comment carrying the id: `find`, then `indexOf`
  and `splice(removeIndex, 1)`. The `find` guard answers 404 for a missing id, so
  `indexOf` never gives -1 at the `splice`. Without that guard, `splice(-1, 1)` would
  drop the last comment (`UnguardedSpliceDropsLast`).
- The follow toggle decides from the actor's `following` alone. When a store is not
  mirrored, the toggle can push the actor into the target's `followers` a second time
  (`UnmirroredFollowDuplicates`).
- If the actor's own record is missing, reading `currentUser.following` throws. The
  handler then answers 500 (`ServerError`), and only after the 404 check for the
  target has passed.

## Model

| member | source | states |
|---|---|---|
| `Common.Without` | backend/routes/posts.js:122-124 | filtering out `x` leaves no `x`, keeps exactly the other members, and never lengthens the list |
| `Common.FilterOut` | backend/routes/users.js:127-132 | the filtering loop yields exactly `Without(s, x)` |
| `Common.Toggled` | backend/routes/posts.js:116-128 | after a toggle, `x` is present iff it was absent before; membership of every other id is unchanged |
| `Common.WithoutAbsent` | backend/routes/posts.js:122-124 | filtering out an id that is not there leaves the list identical |
| `Common.WithoutConcat` | backend/routes/posts.js:122-124 | filtering distributes over concatenation, so the remaining entries keep their original order |
| `Common.WithoutUnique` | backend/routes/users.js:127-132 | in a duplicate-free list, filtering removes exactly the one entry, giving prefix followed by suffix |
| `Common.WithoutMultiset` | backend/routes/posts.js:122-124 | filtering keeps the multiplicity of every other id and drops all copies of `x` |
| `Common.WithoutNoDup` | backend/routes/users.js:127-132 | filtering keeps a duplicate-free list duplicate-free |
| `Common.ToggledNoDup` | backend/routes/posts.js:116-128 | a like toggle keeps a duplicate-free `likes` duplicate-free |
| `Common.ToggleTwice` | backend/routes/posts.js:116-128 | toggling twice from "absent" restores the exact original list |
| `Posts.Post.constructor` | backend/routes/posts.js:22-25 | a new post carries the given content and author, with no likes and no comments |
| `Posts.FirstIndex` | backend/routes/posts.js:195-197 | the result is -1 iff no comment carries the id; otherwise it is the first index whose comment carries it |
| `Posts.IndexOfComment` | backend/routes/posts.js:209-211 | the scanning loop returns exactly `FirstIndex` |
| `Posts.RemoveFirst` | backend/routes/posts.js:209-213 | removing the first match is the prefix before it followed by the suffix after it, one shorter; with no match this reference definition leaves the list unchanged, a case the handler never reaches |
| `Posts.SpliceOne` | backend/routes/posts.js:213 | `splice(start, 1)`: an index in range removes that one entry; -1 removes the last entry; an index past the end removes nothing |
| `Posts.GuardedSplice` | backend/routes/posts.js:195-213 | whenever a comment carries the id, `indexOf` then `splice` equals the reference removal |
| `Posts.UnguardedSpliceDropsLast` | backend/routes/posts.js:209-213 | on `[Comment(1, "a", 7)]` with id 2, `indexOf` gives -1 and `splice` empties the list, while the reference removal keeps it |
| `Posts.AddThenRemove` | backend/routes/posts.js:163-213 | a comment unshifted and then removed by its id restores the prior list, even when the id is not fresh |
| `Posts.RemoveFirstMultiset` | backend/routes/posts.js:209-213 | a removal takes exactly one copy of the matched comment out of the multiset of comments |
| `Posts.PostStore.Create` | backend/routes/posts.js:12-35 | empty content gives 400 and an unchanged store; otherwise a fresh post by the actor, with no likes or comments, is stored under the new id |
| `Posts.PostStore.Delete` | backend/routes/posts.js:80-102 | a missing post gives 404; a non-author gets 401 and the store is unchanged; the author gets 200 and the post is no longer in the store |
| `Posts.PostStore.ToggleLike` | backend/routes/posts.js:107-142 | a missing post gives 404; an absent actor is appended at the end; a present actor is filtered out; comments and content are untouched |
| `Posts.PostStore.AddComment` | backend/routes/posts.js:147-181 | empty text gives 400 before the lookup, with comments unchanged; a missing post gives 404; otherwise the actor's new comment is at index 0, followed by the old comments in order |
| `Posts.PostStore.DeleteComment` | backend/routes/posts.js:186-226 | 404 "Post not found" or "Comment does not exist", 401 for a non-author, each leaving comments unchanged; otherwise exactly the first comment with the id is spliced out |
| `Posts.LikeTwice` | backend/routes/posts.js:116-128 | liking twice through the handler, starting from not liked, restores the exact `likes` |
| `Posts.CommentThenDelete` | backend/routes/posts.js:163-213 | adding a comment and then deleting it as the same user restores the exact `comments` |
| `Posts.CreateThenDelete` | backend/routes/posts.js:22-94 | creating a post and then deleting it as the same actor restores the store, for any content (empty content is refused, then the delete finds nothing) |
| `Users.FollowToggle` | backend/routes/users.js:121-137 | after a toggle, target is in the actor's `following` iff it was not before, and the actor is in the target's `followers` under the same condition; other ids keep their membership |
| `Users.FollowToggleKeepsInvariant` | backend/routes/users.js:121-137 | from a mirrored, duplicate-free pair of lists, a toggle yields a mirrored, duplicate-free pair |
| `Users.FollowTwice` | backend/routes/users.js:121-137 | following and then unfollowing restores both lists exactly |
| `Users.UnmirroredFollowDuplicates` | backend/routes/users.js:121-137 | because the decision reads only `following`, an out-of-step target can get the actor pushed into `followers` twice |
| `Users.FollowScenario` | backend/routes/users.js:133-137 | from empty lists, one toggle gives `[target]` and `[actor]`; a second toggle gives empty lists again |
| `Users.ApplyFollow` | backend/routes/users.js:113-140 | a toggle changes only the actor's and the target's records; the actor's `followers` and the target's `following` stay the same |
| `Users.FollowKeepsConsistent` | backend/routes/users.js:113-140 | a toggle between two distinct stored users keeps the whole store mirrored, duplicate-free and free of self-follows |
| `Users.FollowTwiceRestores` | backend/routes/users.js:121-140 | on a consistent store, follow then unfollow restores every user's lists |
| `Users.ApplyToggle` | backend/routes/users.js:121-137 | the in-place update of the two loaded records equals `FollowToggle` of their old lists |
| `Users.UserStore.ToggleFollow` | backend/routes/users.js:107-151 | self-follow gives 400, a missing target 404, a missing actor 500, each leaving every record unchanged; otherwise the two lists follow `FollowToggle`, no other record changes, and consistency is kept |
| `Users.UserStore.UpdateProfile` | backend/routes/users.js:66-102 | a missing or empty name gives 400 before the lookup; a missing user 404; otherwise name is set, `bio` and `profilePicture` are set when supplied (even ""), and email and follow lists are untouched |
| `Users.FollowThenUnfollow` | backend/routes/users.js:121-140 | two follow toggles through the handler on a consistent store leave every relationship list as it was |

## Left out

- HTTP routing, response building and `console.error` logging are not modelled. Only the outcome of each handler is.
- The `express-validator` middleware is reduced to its effect on strings: a field that is absent or `""` is rejected. Non-string request bodies are not modelled.
- Database persistence is not modelled: `findById`, `save`, `deleteOne`, `findByIdAndUpdate` and `populate`. The stores are maps from id to object.
- The GET handlers are not modelled. They are pure queries: `find`, `select('-password')` and `sort({createdAt: -1})`.
- The `error.kind === 'ObjectId'` catch paths and other database failures (500) are not modelled. The one 500 that is modelled is a missing acting user in the follow handler.
- Timestamps (`createdAt`, a comment's `date`) are not modelled.
- Schema constraints such as a content length limit and field defaults are not modelled. The Post and User schemas are not part of this model.
- The authentication middleware, JWT handling and password hashing are not modelled. The actor id is a trusted parameter.
- New post and comment ids are parameters. `PostStore.Create` requires that the new id is not already in use, a guarantee of the database's id generator.
- Route ids are taken to be canonical ObjectId strings. A non-canonical spelling of a real id, such as upper-case hex, is not modelled. `findById` would still find the record, but every `===` test would fail. The self-follow check at backend/routes/users.js:109 would then let a user follow themself, and the membership tests at backend/routes/users.js:121-123 and backend/routes/posts.js:195-211 would never match. `FollowKeepsConsistent` and the consistency clause of `UserStore.ToggleFollow` rely on ids being canonical.
- The follow handler saves the two records with two separate `save()` calls. These are not atomic, and a concurrent request can see one side updated. The model applies the toggle as one step and does not model interleavings.
- The seeding script and the whole frontend are not modelled: React state, local storage, axios interceptors, the optimistic follower update in the users page.
