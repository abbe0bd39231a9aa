/** Posts: creation trusts the body's `userId`; updates and deletes check that
    the post exists (404) before they check that the caller owns it (403). */
module PostController {
  import opened Base
  import opened Database

  /** `POST /posts`: the owner is whatever `userId` the body names. */
  method CreatePost(db: Store, userId: Option<Id>, content: Option<string>) returns (r: Reply<Post>)
    requires db.Valid()
    modifies db
    ensures db.Valid()
    ensures !(userId.Some? && Given(content)) ==>
      r == Err(400, "User ID and content are required") && db.State() == old(db.State())
    ensures userId.Some? && Given(content) ==>
      var p := Post(old(db.clock), userId.value, content.value, old(db.clock));
      r == Ok(201, p) &&
      db.State() == old(db.State()).(posts := old(db.posts)[p.id := p], clock := old(db.clock) + 1)
  {
    if userId.None? || !Given(content) {
      return Err(400, "User ID and content are required");
    }
    var p := db.CreatePost(userId.value, content.value);
    r := Ok(201, p);
  }

  /** `GET /posts`. */
  function GetAllPosts(db: Store): (r: Reply<set<Post>>)
    reads db
    ensures r.Ok? && r.status == 200
    ensures forall p :: p in r.value <==> p in db.posts.Values
  {
    Ok(200, db.posts.Values)
  }

  /** `GET /posts/:id`. */
  function GetPostById(db: Store, id: Id): (r: Reply<Post>)
    reads db
    requires db.Valid()
    ensures id !in db.posts <==> r == Err(404, "Post not found")
    ensures r.Ok? ==> r.status == 200 && r.value in db.posts.Values && r.value.id == id
  {
    if id !in db.posts then Err(404, "Post not found") else Ok(200, db.posts[id])
  }

  /** The text of the error Prisma throws when `content`, a required column, is set to `null`. */
  const NullContent := "Argument content must not be null"

  /** `PUT /posts/:id`. The outer `None` is a body without `content` (`undefined`, which
      Prisma skips), so the text stays as it was; `Some(None)` is a JSON `null`, which
      Prisma refuses after both checks have passed: the throw reaches the error handler
      with no status of its own (500) and nothing is written. */
  method UpdatePost(db: Store, me: Session, id: Id, content: Option<Option<string>>) returns (r: Reply<Post>)
    requires db.Valid()
    modifies db
    ensures db.Valid()
    ensures id !in old(db.posts) ==>
      r == Err(404, "Post not found") && db.State() == old(db.State())
    ensures id in old(db.posts) && old(db.posts)[id].userId != me.id ==>
      r == Err(403, "Unauthorized") && db.State() == old(db.State())
    ensures id in old(db.posts) && old(db.posts)[id].userId == me.id && content == Some(None) ==>
      r == Err(500, NullContent) && db.State() == old(db.State())
    ensures id in old(db.posts) && old(db.posts)[id].userId == me.id && content != Some(None) ==>
      var p := old(db.posts)[id];
      var q := if content.Some? then p.(content := content.value.value) else p;
      r == Ok(200, q) && db.State() == old(db.State()).(posts := old(db.posts)[id := q])
  {
    if id !in db.posts {
      return Err(404, "Post not found");
    }
    var p := db.posts[id];
    if p.userId != me.id {
      return Err(403, "Unauthorized");
    }
    if content == Some(None) {
      return Err(500, NullContent);
    }
    var q := if content.Some? then p.(content := content.value.value) else p;
    db.posts := db.posts[id := q];
    r := Ok(200, q);
  }

  /** `DELETE /posts/:id`. */
  method DeletePost(db: Store, me: Session, id: Id) returns (r: Reply<string>)
    requires db.Valid()
    modifies db
    ensures db.Valid()
    ensures id !in old(db.posts) ==>
      r == Err(404, "Post not found") && db.State() == old(db.State())
    ensures id in old(db.posts) && old(db.posts)[id].userId != me.id ==>
      r == Err(403, "Unauthorized") && db.State() == old(db.State())
    ensures id in old(db.posts) && old(db.posts)[id].userId == me.id ==>
      r == Ok(200, "Post deleted successfully") &&
      db.State() == old(db.State()).(posts := old(db.posts) - {id})
  {
    if id !in db.posts {
      return Err(404, "Post not found");
    }
    if db.posts[id].userId != me.id {
      return Err(403, "Unauthorized");
    }
    db.posts := db.posts - {id};
    r := Ok(200, "Post deleted successfully");
  }

  /** `GET /posts/users/:id`: exactly the posts whose owner is that user. */
  function GetUserPosts(db: Store, userId: Id): (r: Reply<set<Post>>)
    reads db
    ensures r.Ok? && r.status == 200
    ensures forall p :: p in r.value <==> p in db.posts.Values && p.userId == userId
  {
    Ok(200, set p | p in db.posts.Values && p.userId == userId)
  }
}
