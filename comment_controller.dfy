/** Comments, kept in creation order and read back newest first. */
module CommentController {
  import opened Base
  import opened Seqs
  import opened Database

  /** `POST /comments`: the author is the signed-in user. */
  method AddComment(db: Store, me: Session, postId: Option<Id>, content: Option<string>)
    returns (r: Reply<Comment>)
    requires db.Valid()
    modifies db
    ensures db.Valid()
    ensures !(postId.Some? && Given(content)) ==>
      r == Err(400, "Post ID and content are required") && db.State() == old(db.State())
    ensures postId.Some? && Given(content) && postId.value !in old(db.posts) ==>
      r == Err(404, "Post not found") && db.State() == old(db.State())
    ensures postId.Some? && Given(content) && postId.value in old(db.posts) ==>
      var c := Comment(old(db.clock), me.id, postId.value, content.value, old(db.clock));
      r == Ok(201, c) &&
      db.State() == old(db.State()).(comments := old(db.comments) + [c], clock := old(db.clock) + 1)
  {
    if postId.None? || !Given(content) {
      return Err(400, "Post ID and content are required");
    }
    if postId.value !in db.posts {
      return Err(404, "Post not found");
    }
    var c := db.CreateComment(me.id, postId.value, content.value);
    r := Ok(201, c);
  }

  /** `GET /comments/:postId`: exactly that post's comments, newest first. */
  function GetCommentsByPost(db: Store, postId: Id): (r: Reply<seq<Comment>>)
    reads db
    requires db.Valid()
    ensures r.Ok? && r.status == 200
    ensures forall c :: c in r.value <==> c in db.comments && c.postId == postId
    ensures Descending(r.value, CommentTime)
  {
    var onPost := (c: Comment) => c.postId == postId;
    var found := Filter(db.comments, onPost);
    FilterAscending(db.comments, onPost, CommentTime);
    ReverseDescending(found, CommentTime);
    assert forall c :: c in Reverse(found) <==> c in found by {
      forall c { ReverseMembers(found, c); }
    }
    Ok(200, Reverse(found))
  }

  /** The position of the comment `findUnique({ where: { id } })` finds. */
  function FindComment(s: seq<Comment>, id: Id): (r: Option<nat>)
    ensures r.Some? ==> r.value < |s| && s[r.value].id == id
    ensures r.None? ==> forall c :: c in s ==> c.id != id
  {
    if s == [] then None
    else if s[0].id == id then Some(0)
    else match FindComment(s[1..], id)
      case None => None
      case Some(k) => Some(k + 1)
  }

  /** `DELETE /comments/:id`: only the author may delete, and only that one row goes. */
  method DeleteComment(db: Store, me: Session, id: Id) returns (r: Reply<string>)
    requires db.Valid()
    modifies db
    ensures db.Valid()
    ensures FindComment(old(db.comments), id).None? ==>
      r == Err(404, "Comment not found") && db.State() == old(db.State())
    ensures FindComment(old(db.comments), id).Some? ==>
      var k := FindComment(old(db.comments), id).value;
      if old(db.comments)[k].userId != me.id then
        r == Err(403, "Unauthorized to delete this comment") && db.State() == old(db.State())
      else
        r == Ok(200, "Comment deleted successfully") &&
        db.State() == old(db.State()).(comments := old(db.comments)[..k] + old(db.comments)[k + 1..])
    ensures forall c :: c in db.comments <==>
      c in old(db.comments) && (r.Ok? ==> c.id != id)
  {
    var found := FindComment(db.comments, id);
    if found.None? {
      return Err(404, "Comment not found");
    }
    var k := found.value;
    if db.comments[k].userId != me.id {
      return Err(403, "Unauthorized to delete this comment");
    }
    var before := db.comments;
    RemoveAtAscending(before, k, CommentTime, db.clock);
    RemoveAtAscending(before, k, CommentKey, db.clock);
    RemoveUniqueKey(before, k);
    db.comments := before[..k] + before[k + 1..];
    r := Ok(200, "Comment deleted successfully");
  }

  /** Comment ids strictly ascend, so removing the row at `k` removes every row with its id. */
  lemma RemoveUniqueKey(s: seq<Comment>, k: nat)
    requires k < |s| && Ascending(s, CommentKey)
    ensures forall c :: c in s[..k] + s[k + 1..] <==> c in s && c.id != s[k].id
  {
    var rest := s[..k] + s[k + 1..];
    forall c ensures c in rest <==> c in s && c.id != s[k].id {
      if c in s && c.id != s[k].id {
        var j :| 0 <= j < |s| && s[j] == c;
        assert j != k;
        assert if j < k then rest[j] == c else rest[j - 1] == c;
      }
      if c in rest {
        var j :| 0 <= j < |rest| && rest[j] == c;
        var i := if j < k then j else j + 1;
        assert s[i] == c && i != k;
        assert CommentKey(s[i]) != CommentKey(s[k]);
      }
    }
  }
}
