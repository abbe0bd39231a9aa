/** Properties that relate several requests, proved by calling the handlers in
    sequence on the same store: each method's contract is what a client can
    rely on from the handlers' contracts alone. */
module Scenarios {
  import opened Base
  import opened Seqs
  import opened Database
  import opened Crypto
  import opened Socket
  import opened LikeController
  import opened UserController
  import opened ChatController
  import opened MessageController
  import opened AuthController

  /** Liking and then unliking gives back the store the two started from. */
  method LikeThenUnlike(db: Store, me: Session, postId: Id) returns (liked: Reply<string>, unliked: Reply<string>)
    requires db.Valid() && postId in db.posts && (me.id, postId) !in db.likes
    modifies db
    ensures liked.Ok? && unliked.Ok?
    ensures db.State() == old(db.State())
  {
    liked := LikePost(db, me, postId);
    unliked := UnlikePost(db, me, postId);
  }

  /** A second like of the same post is refused and changes nothing. */
  method LikeTwice(db: Store, me: Session, postId: Id) returns (second: Reply<string>)
    requires db.Valid() && postId in db.posts
    modifies db
    ensures second == Err(400, "You have already liked this post")
    ensures db.likes == old(db.likes) + {(me.id, postId)}
  {
    var _ := LikePost(db, me, postId);
    second := LikePost(db, me, postId);
  }

  /** Following twice leaves one edge but two notifications, to the same recipient
      with the same type and text, at consecutive stamps. */
  method FollowTwice(db: Store, me: Session, userId: Id) returns (first: Reply<string>, second: Reply<string>)
    requires db.Valid() && userId != me.id
    modifies db
    ensures first.Ok? && second.Ok?
    ensures db.follows == old(db.follows) + {(me.id, userId)}
    ensures
      var text := me.username + " started following you";
      var n1 := Notification(old(db.clock), userId, "follow", text, false, old(db.clock));
      var n2 := Notification(old(db.clock) + 1, userId, "follow", text, false, old(db.clock) + 1);
      db.notifications == old(db.notifications) + [n1, n2]
  {
    first := FollowUser(db, me, Some(userId));
    ghost var afterFirst := db.follows;
    second := FollowUser(db, me, Some(userId));
    assert db.follows == afterFirst;
  }

  /** Unfollowing twice is not an error and leaves every other edge alone. */
  method UnfollowTwice(db: Store, me: Session, userId: Id) returns (second: Reply<string>)
    requires db.Valid()
    modifies db
    ensures second.Ok?
    ensures db.follows == old(db.follows) - {(me.id, userId)}
  {
    var _ := UnfollowUser(db, me, Some(userId));
    second := UnfollowUser(db, me, Some(userId));
  }

  /** Asking twice for the chat with the same user gives the same chat and creates
      nothing the second time. */
  method ChatTwice(db: Store, me: Session, userId: Id) returns (first: Reply<Chat>, second: Reply<Chat>)
    requires db.Valid() && userId in db.users
    modifies db
    ensures first.Ok? && second == first
    ensures FirstChatWithin(old(db.chats), {me.id, userId}).Some? ==> db.State() == old(db.State())
    ensures FirstChatWithin(old(db.chats), {me.id, userId}).None? ==>
      db.State() == old(db.State()).(chats := old(db.chats) + [first.value], clock := old(db.clock) + 1)
  {
    first := CreateOrFetchChat(db, me, Some(userId));
    ghost var chatsBefore := old(db.chats);
    ghost var allowed := {me.id, userId};
    ghost var chatsAfter := db.chats;
    match FirstChatWithin(chatsBefore, allowed) {
      case Some(k) =>
        assert FirstChatWithin(chatsAfter, allowed) == Some(k);
      case None =>
        FirstChatAfterCreate(chatsBefore, first.value, allowed);
        assert chatsAfter == chatsBefore + [first.value];
    }
    second := CreateOrFetchChat(db, me, Some(userId));
  }

  /** Registering the same e-mail twice: the second attempt is refused. */
  method RegisterTwice(db: Store, svc: Services, username: string, email: string, password: string)
    returns (second: Reply<string>)
    requires db.Valid() && RegisterSchema(svc, Some(username), Some(email), Some(password))
    modifies db
    ensures second == Err(400, "Email already exists")
  {
    var _ := RegisterUser(db, svc, Some(username), Some(email), Some(password));
    if EmailTaken(old(db.users), email) {
      assert db.users == old(db.users);
    } else {
      assert db.users[old(db.clock)].email == email;
    }
    second := RegisterUser(db, svc, Some(username), Some(email), Some(password));
  }

  /** The refresh token a login issues renews the access token, until logout nulls it. */
  method LoginRefreshLogout(db: Store, svc: Services, email: string, password: string)
    returns (login: Reply<Login>, renewed: Reply<string>, afterLogout: Reply<string>)
    requires db.Valid() && LoginSchema(svc, Some(email), Some(password))
    requires EmailTaken(db.users, email)
    requires svc.compare(password, db.users[UserWithEmail(db.users, email)].password)
    requires svc.refreshToken(UserWithEmail(db.users, email)) != ""
    requires svc.verifyRefresh(svc.refreshToken(UserWithEmail(db.users, email))) == Success(UserWithEmail(db.users, email))
    modifies db
    ensures login.Ok? && renewed.Ok? && afterLogout == Err(404, "User not found")
  {
    ghost var k := UserWithEmail(db.users, email);
    login := LoginUser(db, svc, Some(email), Some(password));
    var cookie := login.value.cookie;
    renewed := RefreshAccessToken(db, svc, Some(cookie));
    var _ := LogoutUser(db, Some(cookie));
    afterLogout := RefreshAccessToken(db, svc, Some(cookie));
  }

  /** A second login replaces the first session: the first refresh token stops working. */
  method SecondLoginEndsFirst(db: Store, early: Services, late: Services, email: string, password: string)
    returns (stale: Reply<string>)
    requires db.Valid() && LoginSchema(early, Some(email), Some(password)) && LoginSchema(late, Some(email), Some(password))
    requires EmailTaken(db.users, email)
    requires early.compare == late.compare
    requires early.compare(password, db.users[UserWithEmail(db.users, email)].password)
    requires early.refreshToken(UserWithEmail(db.users, email)) != ""
    requires early.refreshToken(UserWithEmail(db.users, email)) != late.refreshToken(UserWithEmail(db.users, email))
    requires late.verifyRefresh(early.refreshToken(UserWithEmail(db.users, email))) == Success(UserWithEmail(db.users, email))
    modifies db
    ensures stale == Err(404, "User not found")
  {
    ghost var k := UserWithEmail(db.users, email);
    var first := LoginUser(db, early, Some(email), Some(password));
    assert db.users[k].email == email;
    assert UserWithEmail(db.users, email) == k;
    var second := LoginUser(db, late, Some(email), Some(password));
    stale := RefreshAccessToken(db, late, Some(first.value.cookie));
  }

  /** After `initializeSocket`, a connection that joined a chat's room receives the
      message sent to that chat. */
  method JoinThenSend(db: Store, sockets: Registry, me: Session, conn: ConnId, chatId: Id, content: string)
    returns (sent: Reply<Message>)
    requires db.Valid() && content != ""
    modifies db, sockets
    ensures sent.Ok? && sockets.io != null && |sockets.io.sent| == 1
    ensures sockets.io.sent[0].payload == Stored(sent.value) && conn in sockets.io.sent[0].recipients
  {
    var server := sockets.InitializeSocket();
    server.JoinChat(conn, chatId);
    sent := SendMessage(db, sockets, me, Some(chatId), Some(content));
  }

  /** Reading a chat back after a message is sent to it ends with that message. */
  method SendThenRead(db: Store, sockets: Registry, me: Session, chatId: Id, content: string)
    returns (sent: Reply<Message>, read: Reply<seq<Message>>)
    requires db.Valid() && content != "" && sockets.io != null
    modifies db, sockets.io
    ensures sent.Ok? && read.Ok?
    ensures |read.value| > 0 && read.value[|read.value| - 1] == sent.value
  {
    sent := SendMessage(db, sockets, me, Some(chatId), Some(content));
    read := GetMessages(db, Some(chatId));
    var m := sent.value;
    assert db.messages[|db.messages| - 1] == m;
    forall y | y in read.value ensures MessageTime(y) <= MessageTime(m) {
      var j :| 0 <= j < |db.messages| && db.messages[j] == y;
    }
    GreatestIsLast(read.value, m, MessageTime);
  }
}
