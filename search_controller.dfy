/** `GET /search?query=...`: case-insensitive substring search over users and posts. */
module SearchController {
  import opened Base
  import opened Text
  import opened Database

  /** The user fields the search selects. */
  datatype UserHit = UserHit(id: Id, username: string, bio: Option<string>, profilePicture: Option<string>)

  /** The post fields the search selects. */
  datatype PostHit = PostHit(id: Id, content: string, userId: Id, createdAt: nat)

  datatype Found = Found(users: set<UserHit>, posts: set<PostHit>)

  /** `!query || query.trim() === ""`. */
  predicate QueryMissing(query: Option<string>) {
    !Given(query) || Trim(query.value) == ""
  }

  /** The query is turned away exactly when it is absent or all white space. */
  lemma QueryMissingIff(query: Option<string>)
    ensures QueryMissing(query) <==> query.None? || AllSpace(query.value)
  {
    if query.Some? {
      TrimEmpty(query.value);
    }
  }

  /** The username or the bio contains the query, ignoring case; a null bio never matches. */
  predicate UserMatches(username: string, bio: Option<string>, query: string) {
    ContainsInsensitive(username, query) || (bio.Some? && ContainsInsensitive(bio.value, query))
  }

  function UserHitOf(u: User): UserHit {
    UserHit(u.id, u.username, u.bio, u.profilePicture)
  }

  function PostHitOf(p: Post): PostHit {
    PostHit(p.id, p.content, p.userId, p.createdAt)
  }

  /** The matching uses the query as it came; only the emptiness test trims it. */
  function SearchAll(db: Store, query: Option<string>): (r: Reply<Found>)
    reads db
    ensures QueryMissing(query) <==> r == Err(400, "Query parameter is required")
    ensures r.Ok? ==> r.status == 200
    ensures r.Ok? ==> forall u :: u in db.users.Values ==>
      (UserHitOf(u) in r.value.users <==> UserMatches(u.username, u.bio, query.value))
    ensures r.Ok? ==> forall h :: h in r.value.users ==>
      exists u :: u in db.users.Values && h == UserHitOf(u) && UserMatches(u.username, u.bio, query.value)
    ensures r.Ok? ==> forall p :: p in db.posts.Values ==>
      (PostHitOf(p) in r.value.posts <==> ContainsInsensitive(p.content, query.value))
    ensures r.Ok? ==> forall h :: h in r.value.posts ==>
      exists p :: p in db.posts.Values && h == PostHitOf(p) && ContainsInsensitive(p.content, query.value)
  {
    if QueryMissing(query) then Err(400, "Query parameter is required")
    else
      var q := query.value;
      Ok(200, Found(
        set u | u in db.users.Values && UserMatches(u.username, u.bio, q) :: UserHitOf(u),
        set p | p in db.posts.Values && ContainsInsensitive(p.content, q) :: PostHitOf(p)))
  }

  /** The query is not trimmed for matching: " al" finds no user called "al". */
  lemma UntrimmedQueryMisses()
    ensures !UserMatches("al", None, " al")
    ensures UserMatches("al", None, "al")
  {
    assert OccursAt(Lower("al"), Lower("al"), 0) by {
      assert Lower("al") == "al";
    }
  }

  /** Matching ignores case on both sides: "LIC" is found in "Alice". */
  lemma MatchIgnoresCase()
    ensures UserMatches("Alice", None, "LIC")
  {
    assert Lower("Alice") == "alice";
    assert Lower("LIC") == "lic";
    assert OccursAt("alice", "lic", 1) by { assert "alice"[1..4] == "lic"; }
  }
}
