/** One-to-one chats, found or created on first contact. */
module ChatController {
  import opened Base
  import opened Seqs
  import opened Database

  /** The position of the first chat all of whose members are in `allowed`: what
      `findFirst({ where: { users: { every: { id: { in: [...] } } } } })` returns. */
  function FirstChatWithin(s: seq<Chat>, allowed: set<Id>): (r: Option<nat>)
    ensures r.Some? ==> r.value < |s| && s[r.value].members <= allowed
    ensures r.Some? ==> forall j :: 0 <= j < r.value ==> !(s[j].members <= allowed)
    ensures r.None? ==> forall j :: 0 <= j < |s| ==> !(s[j].members <= allowed)
  {
    if s == [] then None
    else if s[0].members <= allowed then Some(0)
    else match FirstChatWithin(s[1..], allowed)
      case None => None
      case Some(k) => Some(k + 1)
  }

  /** `POST /chat`: the caller and `userId`'s chat, created if there is none.
      Nothing stops a user from opening a chat with themselves. */
  method CreateOrFetchChat(db: Store, me: Session, userId: Option<Id>) returns (r: Reply<Chat>)
    requires db.Valid()
    modifies db
    ensures db.Valid()
    ensures userId.None? ==>
      r == Err(400, "User ID is required") && db.State() == old(db.State())
    ensures userId.Some? && userId.value !in old(db.users) ==>
      r == Err(404, "User not found") && db.State() == old(db.State())
    ensures userId.Some? && userId.value in old(db.users) ==>
      match FirstChatWithin(old(db.chats), {me.id, userId.value})
      case Some(k) =>
        r == Ok(200, old(db.chats)[k]) && db.State() == old(db.State())
      case None =>
        var c := Chat(old(db.clock), {me.id, userId.value}, old(db.clock));
        r == Ok(200, c) &&
        db.State() == old(db.State()).(chats := old(db.chats) + [c], clock := old(db.clock) + 1)
  {
    if userId.None? {
      return Err(400, "User ID is required");
    }
    if userId.value !in db.users {
      return Err(404, "User not found");
    }
    var found := FirstChatWithin(db.chats, {me.id, userId.value});
    var chat: Chat;
    if found.Some? {
      chat := db.chats[found.value];
    } else {
      chat := db.CreateChat({me.id, userId.value});
    }
    r := Ok(200, chat);
  }

  /** After a chat with members `allowed` has been appended to a table that had none
      within `allowed`, the lookup finds exactly that new chat. */
  lemma {:induction false} FirstChatAfterCreate(s: seq<Chat>, c: Chat, allowed: set<Id>)
    requires FirstChatWithin(s, allowed).None?
    requires c.members <= allowed
    ensures FirstChatWithin(s + [c], allowed) == Some(|s|)
  {
    if s != [] {
      assert (s + [c])[1..] == s[1..] + [c];
      FirstChatAfterCreate(s[1..], c, allowed);
    }
  }

  /** Appending any chat does not change an earlier hit of the lookup. */
  lemma {:induction false} FirstChatStable(s: seq<Chat>, c: Chat, allowed: set<Id>)
    requires FirstChatWithin(s, allowed).Some?
    ensures FirstChatWithin(s + [c], allowed) == FirstChatWithin(s, allowed)
  {
    if !(s[0].members <= allowed) {
      assert (s + [c])[1..] == s[1..] + [c];
      FirstChatStable(s[1..], c, allowed);
    }
  }

  /** A chat whose only member is `a` (one `a` opened with themselves) lies within
      {a, b} for every b, so the lookup returns it to `a` whoever `a` asks for. */
  lemma SelfChatAnswersEveryPair(s: seq<Chat>, a: Id, b: Id)
    requires |s| == 1 && s[0].members == {a}
    ensures FirstChatWithin(s, {a, b}) == Some(0)
  {
  }

  /** `GET /chat/:userId`: the chats that include the user, newest first. */
  function GetUserChats(db: Store, userId: Option<Id>): (r: Reply<seq<Chat>>)
    reads db
    requires db.Valid()
    ensures userId.None? <==> r == Err(400, "User ID is required")
    ensures r.Ok? ==> r.status == 200
    ensures r.Ok? ==> forall c :: c in r.value <==> c in db.chats && userId.value in c.members
    ensures r.Ok? ==> Descending(r.value, ChatTime)
  {
    if userId.None? then Err(400, "User ID is required")
    else
      var includes := (c: Chat) => userId.value in c.members;
      var found := Filter(db.chats, includes);
      FilterAscending(db.chats, includes, ChatTime);
      ReverseDescending(found, ChatTime);
      assert forall c :: c in Reverse(found) <==> c in found by {
        forall c { ReverseMembers(found, c); }
      }
      Ok(200, Reverse(found))
  }
}
