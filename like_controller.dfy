/** Likes: a set of (user, post) pairs. Unlike following, a duplicate like is
    rejected and unliking an absent like is an error. */
module LikeController {
  import opened Base
  import opened Database

  /** `POST /posts/:id/like`. */
  method LikePost(db: Store, me: Session, postId: Id) returns (r: Reply<string>)
    requires db.Valid()
    modifies db
    ensures db.Valid()
    ensures postId !in old(db.posts) ==>
      r == Err(404, "Post not found") && db.State() == old(db.State())
    ensures postId in old(db.posts) && (me.id, postId) in old(db.likes) ==>
      r == Err(400, "You have already liked this post") && db.State() == old(db.State())
    ensures postId in old(db.posts) && (me.id, postId) !in old(db.likes) ==>
      r == Ok(201, "Post liked successfully") &&
      db.State() == old(db.State()).(likes := old(db.likes) + {(me.id, postId)})
  {
    if postId !in db.posts {
      return Err(404, "Post not found");
    }
    if (me.id, postId) in db.likes {
      return Err(400, "You have already liked this post");
    }
    db.likes := db.likes + {(me.id, postId)};
    r := Ok(201, "Post liked successfully");
  }

  /** `POST /posts/:id/unlike`. */
  method UnlikePost(db: Store, me: Session, postId: Id) returns (r: Reply<string>)
    requires db.Valid()
    modifies db
    ensures db.Valid()
    ensures postId !in old(db.posts) ==>
      r == Err(404, "Post not found") && db.State() == old(db.State())
    ensures postId in old(db.posts) && (me.id, postId) !in old(db.likes) ==>
      r == Err(400, "You haven't liked this post") && db.State() == old(db.State())
    ensures postId in old(db.posts) && (me.id, postId) in old(db.likes) ==>
      r == Ok(200, "Post unliked successfully") &&
      db.State() == old(db.State()).(likes := old(db.likes) - {(me.id, postId)})
  {
    if postId !in db.posts {
      return Err(404, "Post not found");
    }
    if (me.id, postId) !in db.likes {
      return Err(400, "You haven't liked this post");
    }
    db.likes := db.likes - {(me.id, postId)};
    r := Ok(200, "Post unliked successfully");
  }

  /** `GET /posts/:id/likes`: the like rows of one post. */
  function GetPostLikes(db: Store, postId: Id): (r: Reply<set<(Id, Id)>>)
    reads db
    ensures postId !in db.posts <==> r == Err(404, "Post not found")
    ensures postId in db.posts ==> r.Ok? && r.status == 200
    ensures r.Ok? ==> forall like :: like in r.value <==> like in db.likes && like.1 == postId
  {
    if postId !in db.posts then Err(404, "Post not found")
    else Ok(200, set like | like in db.likes && like.1 == postId)
  }
}
