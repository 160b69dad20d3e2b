/** The post engagement handlers of the posts router: create, delete, like/unlike,
    comment and delete-comment, each as a read-modify-write on one stored post. */
module Posts {
  import opened Common

  /** A comment sub-document: its own id, its text and the id of the user who wrote it. */
  datatype Comment = Comment(id: Id, text: string, user: Id)

  /** A stored post. The id and the author never change after creation. */
  class Post {
    const id: Id
    const author: Id
    var content: string
    var likes: seq<Id>
    var comments: seq<Comment>

    constructor (id: Id, content: string, author: Id)
      ensures this.id == id && this.content == content && this.author == author
      ensures likes == [] && comments == []
    {
      this.id := id;
      this.author := author;
      this.content := content;
      likes := [];
      comments := [];
    }
  }

  /** What `indexOf` answers for a comment id: the position of the first comment
      carrying `cid`, or -1 when there is none. */
  function FirstIndex(cs: seq<Comment>, cid: Id): (r: int)
    ensures -1 <= r < |cs|
    ensures r == -1 <==> forall i :: 0 <= i < |cs| ==> cs[i].id != cid
    ensures r >= 0 ==> cs[r].id == cid && forall i :: 0 <= i < r ==> cs[i].id != cid
  {
    if cs == [] then -1
    else if cs[0].id == cid then 0
    else
      var k := FirstIndex(cs[1..], cid);
      if k == -1 then -1 else k + 1
  }

  /** The linear scan behind `comments.find(c => c._id == cid)` and
      `comments.map(c => c._id).indexOf(cid)`. */
  method IndexOfComment(cs: seq<Comment>, cid: Id) returns (r: int)
    ensures r == FirstIndex(cs, cid)
  {
    var i := 0;
    while i < |cs| && cs[i].id != cid
      invariant 0 <= i <= |cs|
      invariant forall j :: 0 <= j < i ==> cs[j].id != cid
    {
      i := i + 1;
    }
    r := if i == |cs| then -1 else i;
  }

  /** Reference definition of "remove the first comment with id `cid`", by
      recursion on the list; its contract connects it to `indexOf` + `splice`. */
  function RemoveFirst(cs: seq<Comment>, cid: Id): (r: seq<Comment>)
    ensures var k := FirstIndex(cs, cid);
      r == if k == -1 then cs else cs[..k] + cs[k + 1..]
  {
    if cs == [] then []
    else if cs[0].id == cid then
      assert cs[..0] + cs[1..] == cs[1..];
      cs[1..]
    else
      var tail := cs[1..];
      SpliceCons(cs, FirstIndex(tail, cid));
      [cs[0]] + RemoveFirst(tail, cid)
  }

  /** Splicing index `j + 1` out of a list is keeping its head and splicing index
      `j` out of its tail. */
  lemma SpliceCons(cs: seq<Comment>, j: int)
    requires cs != [] && -1 <= j < |cs| - 1
    ensures j == -1 ==> cs == [cs[0]] + cs[1..]
    ensures j >= 0 ==> cs[..j + 1] + cs[j + 2..] == [cs[0]] + (cs[1..][..j] + cs[1..][j + 1..])
  {
    if j >= 0 {
      assert cs[..j + 1] == [cs[0]] + cs[1..][..j];
      assert cs[j + 2..] == cs[1..][j + 1..];
    }
  }

  /** JavaScript's `splice(start, 1)` on a list of comments: a negative start counts
      from the end (clamped at 0), a start past the end removes nothing, and
      otherwise the one entry at the start is removed. */
  function SpliceOne(cs: seq<Comment>, start: int): (r: seq<Comment>)
    ensures 0 <= start < |cs| ==> r == cs[..start] + cs[start + 1..]
    ensures start == -1 && cs != [] ==> r == cs[..|cs| - 1]
    ensures start >= |cs| ==> r == cs
  {
    var i := if start >= 0 then start else if |cs| + start < 0 then 0 else |cs| + start;
    if i < |cs| then cs[..i] + cs[i + 1..] else cs
  }

  /** On the path the `find` guard lets through, `indexOf` followed by `splice`
      removes exactly what the reference definition removes. */
  lemma GuardedSplice(cs: seq<Comment>, cid: Id)
    requires FirstIndex(cs, cid) >= 0
    ensures SpliceOne(cs, FirstIndex(cs, cid)) == RemoveFirst(cs, cid)
  {
  }

  /** Without that guard, `indexOf` gives -1 for a missing id and `splice(-1, 1)`
      removes the last comment, although no comment carries the id. */
  lemma UnguardedSpliceDropsLast()
    ensures var cs := [Comment(1, "a", 7)];
      && FirstIndex(cs, 2) == -1
      && SpliceOne(cs, FirstIndex(cs, 2)) == []
      && RemoveFirst(cs, 2) == cs
  {
  }

  /** A comment pushed at the head and then removed by its own id leaves the list as
      it was, whether or not that id already occurred further down. */
  lemma AddThenRemove(cs: seq<Comment>, c: Comment)
    ensures RemoveFirst([c] + cs, c.id) == cs
  {
    assert ([c] + cs)[1..] == cs;
  }

  /** Removing the first match takes exactly one copy of that comment out of the
      multiset of comments and leaves every other comment in place. */
  lemma {:induction false} RemoveFirstMultiset(cs: seq<Comment>, cid: Id)
    requires FirstIndex(cs, cid) >= 0
    ensures multiset(RemoveFirst(cs, cid)) + multiset{cs[FirstIndex(cs, cid)]} == multiset(cs)
  {
    assert cs == [cs[0]] + cs[1..];
    if cs[0].id != cid {
      RemoveFirstMultiset(cs[1..], cid);
    }
  }

  /** The collection of stored posts, keyed by id. */
  class PostStore {
    var posts: map<Id, Post>

    /** Every post is stored under its own id, so two keys never share a post. */
    ghost predicate Valid()
      reads this
    {
      forall k :: k in posts ==> posts[k].id == k
    }

    constructor ()
      ensures Valid() && posts == map[]
    {
      posts := map[];
    }

    /** POST /api/posts: an empty content is rejected, otherwise a fresh post by the
        actor, with no likes and no comments, is stored under the new id. */
    method Create(actor: Id, content: string, newId: Id) returns (o: Outcome, post: Post?)
      requires Valid() && newId !in posts
      modifies this
      ensures Valid()
      ensures content == "" ==> o == BadRequest("Content is required") && post == null && posts == old(posts)
      ensures content != "" ==>
        && o == Ok && post != null && fresh(post)
        && posts == old(posts)[newId := post]
        && post.id == newId && post.author == actor && post.content == content
        && post.likes == [] && post.comments == []
    {
      if content == "" {
        return BadRequest("Content is required"), null;
      }
      post := new Post(newId, content, actor);
      posts := posts[newId := post];
      o := Ok;
    }

    /** DELETE /api/posts/:id: 404 for a missing post, 401 unless the actor is its
        author, otherwise the post leaves the store. */
    method Delete(actor: Id, postId: Id) returns (o: Outcome)
      requires Valid()
      modifies this
      ensures Valid()
      ensures postId !in old(posts) ==> o == NotFound("Post not found") && posts == old(posts)
      ensures postId in old(posts) && old(posts)[postId].author != actor ==>
        o == Unauthorized("User not authorized") && posts == old(posts)
      ensures postId in old(posts) && old(posts)[postId].author == actor ==>
        o == Ok && postId !in posts && posts == old(posts) - {postId}
    {
      if postId !in posts {
        return NotFound("Post not found");
      }
      var post := posts[postId];
      if post.author != actor {
        return Unauthorized("User not authorized");
      }
      posts := posts - {postId};
      o := Ok;
    }

    /** PUT /api/posts/like/:id: an actor absent from `likes` is pushed at the end;
        an actor present is filtered out, every copy of it, the others keeping
        their order. */
    method ToggleLike(actor: Id, postId: Id) returns (o: Outcome)
      requires Valid()
      modifies if postId in posts then {posts[postId]} else {}
      ensures postId !in posts ==> o == NotFound("Post not found")
      ensures postId in posts ==>
        var p := posts[postId];
        && o == Ok
        && p.likes == Toggled(old(p.likes), actor)
        && (actor !in old(p.likes) ==> p.likes == old(p.likes) + [actor])
        && (actor in old(p.likes) ==> p.likes == Without(old(p.likes), actor))
        && p.comments == old(p.comments) && p.content == old(p.content)
    {
      if postId !in posts {
        return NotFound("Post not found");
      }
      var post := posts[postId];
      if actor in post.likes {
        var kept := FilterOut(post.likes, actor);
        post.likes := kept;
      } else {
        post.likes := post.likes + [actor];
      }
      o := Ok;
    }

    /** POST /api/posts/comment/:id: an empty text is rejected before the post is
        looked up; otherwise the new comment, by the actor, goes to the head of the
        list (`unshift`) and the older comments follow in their order. */
    method AddComment(actor: Id, postId: Id, text: string, commentId: Id) returns (o: Outcome)
      requires Valid()
      modifies if postId in posts then {posts[postId]} else {}
      ensures text == "" ==> o == BadRequest("Text is required")
      ensures text != "" && postId !in posts ==> o == NotFound("Post not found")
      ensures postId in posts ==>
        var p := posts[postId];
        && (text == "" ==> p.comments == old(p.comments))
        && (text != "" ==> o == Ok && p.comments == [Comment(commentId, text, actor)] + old(p.comments))
        && p.likes == old(p.likes) && p.content == old(p.content)
    {
      if text == "" {
        return BadRequest("Text is required");
      }
      if postId !in posts {
        return NotFound("Post not found");
      }
      var post := posts[postId];
      post.comments := [Comment(commentId, text, actor)] + post.comments;
      o := Ok;
    }

    /** DELETE /api/posts/comment/:id/:comment_id: 404 for a missing post or comment,
        401 unless the actor wrote the first comment with that id, otherwise exactly
        that comment is spliced out. */
    method DeleteComment(actor: Id, postId: Id, commentId: Id) returns (o: Outcome)
      requires Valid()
      modifies if postId in posts then {posts[postId]} else {}
      ensures postId !in posts ==> o == NotFound("Post not found")
      ensures postId in posts ==>
        var p := posts[postId];
        var cs := old(p.comments);
        var k := FirstIndex(cs, commentId);
        && (k == -1 ==> o == NotFound("Comment does not exist") && p.comments == cs)
        && (k >= 0 && cs[k].user != actor ==> o == Unauthorized("User not authorized") && p.comments == cs)
        && (k >= 0 && cs[k].user == actor ==>
              o == Ok && p.comments == cs[..k] + cs[k + 1..] && p.comments == RemoveFirst(cs, commentId))
        && p.likes == old(p.likes) && p.content == old(p.content)
    {
      if postId !in posts {
        return NotFound("Post not found");
      }
      var post := posts[postId];
      // `find`: the first comment carrying the id
      var found := IndexOfComment(post.comments, commentId);
      if found == -1 {
        return NotFound("Comment does not exist");
      }
      if post.comments[found].user != actor {
        return Unauthorized("User not authorized");
      }
      // `indexOf` over the comment ids, then `splice(removeIndex, 1)`
      var removeIndex := IndexOfComment(post.comments, commentId);
      // the `find` guard above already answered 404 for a missing id, so `indexOf`
      // cannot give -1 here (where `splice(-1, 1)` would drop the last comment)
      assert removeIndex == found && removeIndex >= 0;
      post.comments := SpliceOne(post.comments, removeIndex);
      o := Ok;
    }
  }

  /** Liking twice from "not liked" gives back the exact `likes` list. */
  method LikeTwice(store: PostStore, actor: Id, postId: Id)
    requires store.Valid() && postId in store.posts
    requires actor !in store.posts[postId].likes
    modifies store.posts[postId]
    ensures store.posts[postId].likes == old(store.posts[postId].likes)
  {
    ghost var before := store.posts[postId].likes;
    var o1 := store.ToggleLike(actor, postId);
    assert actor in store.posts[postId].likes;
    var o2 := store.ToggleLike(actor, postId);
    ToggleTwice(before, actor);
  }

  /** A comment added and then deleted by the same user leaves the comments as they were. */
  method CommentThenDelete(store: PostStore, actor: Id, postId: Id, text: string, commentId: Id)
    requires store.Valid() && postId in store.posts && text != ""
    modifies store.posts[postId]
    ensures store.posts[postId].comments == old(store.posts[postId].comments)
  {
    ghost var before := store.posts[postId].comments;
    var o1 := store.AddComment(actor, postId, text, commentId);
    var o2 := store.DeleteComment(actor, postId, commentId);
    AddThenRemove(before, Comment(commentId, text, actor));
  }

  /** A post created and then deleted by its author leaves the store as it was; with
      empty content the creation is refused and the deletion finds nothing. */
  method CreateThenDelete(store: PostStore, actor: Id, content: string, newId: Id)
    requires store.Valid() && newId !in store.posts
    modifies store
    ensures store.posts == old(store.posts)
  {
    var o1, post := store.Create(actor, content, newId);
    var o2 := store.Delete(actor, newId);
    if content != "" {
      assert store.posts == old(store.posts)[newId := post] - {newId};
    }
  }
}
