/** Profiles and the follower relation. Following is an upsert, so it is
    idempotent on the edge set, yet it records a notification every time. */
module UserController {
  import opened Base
  import opened Database

  /** A user as `getAllUsers` and `getUserById` select it: no password, no refresh
      token, and the follower rows on either side. */
  datatype Profile = Profile(
    id: Id, username: string, email: string, bio: Option<string>, skills: seq<string>,
    followers: set<(Id, Id)>, following: set<(Id, Id)>)

  function ProfileOf(db: Store, k: Id): Profile
    reads db
    requires k in db.users
  {
    var u := db.users[k];
    Profile(u.id, u.username, u.email, u.bio, u.skills,
            set e | e in db.follows && e.1 == k, set e | e in db.follows && e.0 == k)
  }

  /** `GET /users`. */
  function GetAllUsers(db: Store): (r: Reply<set<Profile>>)
    reads db
    requires db.Valid()
    ensures r.Ok? && r.status == 200
    ensures forall k :: k in db.users ==> ProfileOf(db, k) in r.value
    ensures forall p :: p in r.value ==> p.id in db.users && p == ProfileOf(db, p.id)
  {
    Ok(200, set k | k in db.users :: ProfileOf(db, k))
  }

  /** `GET /users/:id`. */
  function GetUserById(db: Store, id: Id): (r: Reply<Profile>)
    reads db
    requires db.Valid()
    ensures id !in db.users <==> r == Err(404, "User not found")
    ensures r.Ok? ==> r.status == 200 && r.value.id == id && r.value.username == db.users[id].username
    ensures r.Ok? ==>
      r.value.email == db.users[id].email && r.value.bio == db.users[id].bio && r.value.skills == db.users[id].skills
    ensures r.Ok? ==> forall e :: e in r.value.followers <==> e in db.follows && e.1 == id
    ensures r.Ok? ==> forall e :: e in r.value.following <==> e in db.follows && e.0 == id
  {
    if id !in db.users then Err(404, "User not found") else Ok(200, ProfileOf(db, id))
  }

  /** The fields of `PUT /users/:id`. The outer `None` is a field left out of the body
      (`undefined`, which Prisma skips); `Some(None)` is a JSON `null`. */
  datatype ProfileEdit = ProfileEdit(
    username: Option<Option<string>>, bio: Option<Option<string>>,
    skills: Option<Option<seq<string>>>, profilePicture: Option<Option<string>>)

  /** Prisma refuses `null` for the required columns `username` and `skills`. */
  predicate Writable(edit: ProfileEdit) {
    edit.username != Some(None) && edit.skills != Some(None)
  }

  /** The row after the update: a given field replaces the old value (a `null` bio or
      picture clears it), a left-out field keeps it. */
  function Edited(u: User, edit: ProfileEdit): (v: User)
    requires Writable(edit)
    ensures v.id == u.id && v.email == u.email && v.password == u.password
    ensures v.refreshToken == u.refreshToken
    ensures v.username == (if edit.username.Some? then edit.username.value.value else u.username)
    ensures v.bio == (if edit.bio.Some? then edit.bio.value else u.bio)
    ensures v.skills == (if edit.skills.Some? then edit.skills.value.value else u.skills)
    ensures v.profilePicture == (if edit.profilePicture.Some? then edit.profilePicture.value else u.profilePicture)
  {
    u.(username := if edit.username.Some? then edit.username.value.value else u.username,
       bio := if edit.bio.Some? then edit.bio.value else u.bio,
       skills := if edit.skills.Some? then edit.skills.value.value else u.skills,
       profilePicture := if edit.profilePicture.Some? then edit.profilePicture.value else u.profilePicture)
  }

  /** A `null` bio clears it, while a left-out bio leaves it as it was. */
  lemma NullClearsBio(u: User)
    requires u.bio.Some?
    ensures Edited(u, ProfileEdit(None, Some(None), None, None)).bio == None
    ensures Edited(u, ProfileEdit(None, None, None, None)).bio == u.bio
  {
  }

  /** `PUT /users/:id`: edits the signed-in user's own row whatever the path says,
      and answers with the whole updated row. A missing row or a `null` username or
      skills list makes Prisma throw, which the `catch` reports as 500. */
  method UpdateUser(db: Store, me: Session, edit: ProfileEdit) returns (r: Reply<User>)
    requires db.Valid()
    modifies db
    ensures db.Valid()
    ensures !(me.id in old(db.users) && Writable(edit)) ==>
      r == Err(500, "Error updating profile") && db.State() == old(db.State())
    ensures me.id in old(db.users) && Writable(edit) ==>
      var u := Edited(old(db.users)[me.id], edit);
      r == Ok(200, u) && db.State() == old(db.State()).(users := old(db.users)[me.id := u])
  {
    if me.id !in db.users || !Writable(edit) {
      return Err(500, "Error updating profile");
    }
    var u := Edited(db.users[me.id], edit);
    db.users := db.users[me.id := u];
    r := Ok(200, u);
  }

  /** `DELETE /users/:id`: removes the signed-in user's own row. */
  method DeleteUser(db: Store, me: Session) returns (r: Reply<string>)
    requires db.Valid()
    modifies db
    ensures db.Valid()
    ensures me.id !in old(db.users) ==>
      r == Err(500, "Error deleting user") && db.State() == old(db.State())
    ensures me.id in old(db.users) ==>
      r == Ok(200, "User deleted successfully") &&
      db.State() == old(db.State()).(users := old(db.users) - {me.id})
  {
    if me.id !in db.users {
      return Err(500, "Error deleting user");
    }
    db.users := db.users - {me.id};
    r := Ok(200, "User deleted successfully");
  }

  /** `POST /users/:id/follow`, reading the user to follow from the body. */
  method FollowUser(db: Store, me: Session, userId: Option<Id>) returns (r: Reply<string>)
    requires db.Valid()
    modifies db
    ensures db.Valid()
    ensures userId.None? ==>
      r == Err(400, "FollowingId required") && db.State() == old(db.State())
    ensures userId == Some(me.id) ==>
      r == Err(400, "You cannot follow yourself") && db.State() == old(db.State())
    ensures userId.Some? && userId.value != me.id ==>
      var n := Notification(old(db.clock), userId.value, "follow",
                            me.username + " started following you", false, old(db.clock));
      r == Ok(200, "User followed successfully") &&
      db.State() == old(db.State()).(follows := old(db.follows) + {(me.id, userId.value)},
                                     notifications := old(db.notifications) + [n],
                                     clock := old(db.clock) + 1)
  {
    if userId.None? {
      return Err(400, "FollowingId required");
    }
    if me.id == userId.value {
      return Err(400, "You cannot follow yourself");
    }
    db.follows := db.follows + {(me.id, userId.value)};
    var _ := db.CreateNotification(userId.value, "follow", me.username + " started following you");
    r := Ok(200, "User followed successfully");
  }

  /** `POST /users/:id/unfollow`: deletes the edge if there is one; no edge is not an error. */
  method UnfollowUser(db: Store, me: Session, userId: Option<Id>) returns (r: Reply<string>)
    requires db.Valid()
    modifies db
    ensures db.Valid()
    ensures userId.None? ==>
      r == Err(400, "FollowingId required") && db.State() == old(db.State())
    ensures userId.Some? ==>
      r == Ok(200, "User unfollowed successfully") &&
      db.State() == old(db.State()).(follows := old(db.follows) - {(me.id, userId.value)})
  {
    if userId.None? {
      return Err(400, "FollowingId required");
    }
    db.follows := db.follows - {(me.id, userId.value)};
    r := Ok(200, "User unfollowed successfully");
  }

  /** `GET /users/:id/followers`, reading the user from the body: who follows them. */
  function GetFollowers(db: Store, userId: Option<Id>): (r: Reply<set<Id>>)
    reads db
    ensures userId.None? <==> r == Err(400, "FollowingId required")
    ensures userId.Some? ==> r.Ok? && r.status == 200
    ensures r.Ok? ==> forall f :: f in r.value <==> (f, userId.value) in db.follows
  {
    if userId.None? then Err(400, "FollowingId required")
    else Ok(200, set e | e in db.follows && e.1 == userId.value :: e.0)
  }

  /** `GET /users/:id/following`, reading the user from the body: whom they follow. */
  function GetFollowing(db: Store, userId: Option<Id>): (r: Reply<set<Id>>)
    reads db
    ensures userId.None? <==> r == Err(400, "FollowerId required")
    ensures userId.Some? ==> r.Ok? && r.status == 200
    ensures r.Ok? ==> forall f :: f in r.value <==> (userId.value, f) in db.follows
  {
    if userId.None? then Err(400, "FollowerId required")
    else Ok(200, set e | e in db.follows && e.0 == userId.value :: e.1)
  }

  /** The two queries are mirror images: `a` is among `b`'s followers exactly when
      `b` is among the users `a` follows. */
  lemma FollowersMirrorFollowing(db: Store, a: Id, b: Id)
    ensures a in GetFollowers(db, Some(b)).value <==> b in GetFollowing(db, Some(a)).value
  {
  }
}
