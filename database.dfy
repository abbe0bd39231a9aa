/** The relational store behind the controllers, as an in-memory object: one field
    per table. Ids and `createdAt` stamps come from one counter, `clock`, so a row
    created later has a larger stamp, and the sequence tables are kept in the
    order their rows were created. */
module Database {
  import opened Base
  import opened Seqs

  /** Database ids are opaque; the model draws them from `clock`. */
  type Id = nat

  /** `req.user`, as the authentication middleware fills it from a verified access token. */
  datatype Session = Session(id: Id, username: string)

  datatype User = User(
    id: Id, username: string, email: string,
    password: string,                 // the bcrypt hash, never the plaintext
    refreshToken: Option<string>,     // the one live refresh token, or null
    bio: Option<string>, skills: seq<string>, profilePicture: Option<string>)

  datatype Post = Post(id: Id, userId: Id, content: string, createdAt: nat)

  datatype Comment = Comment(id: Id, userId: Id, postId: Id, content: string, createdAt: nat)

  datatype Notification = Notification(
    id: Id, userId: Id, kind: string, message: string, isRead: bool, createdAt: nat)

  datatype Chat = Chat(id: Id, members: set<Id>, createdAt: nat)

  datatype Message = Message(id: Id, chatId: Id, senderId: Id, content: string, createdAt: nat)

  function CommentTime(c: Comment): int { c.createdAt }
  function CommentKey(c: Comment): int { c.id }
  function NotificationTime(n: Notification): int { n.createdAt }
  function ChatTime(c: Chat): int { c.createdAt }
  function MessageTime(m: Message): int { m.createdAt }
  function NotificationKey(n: Notification): int { n.id }
  function ChatKey(c: Chat): int { c.id }
  function MessageKey(m: Message): int { m.id }

  /** A table in creation order: strictly ascending by `key`, every key already handed out. */
  ghost predicate Chronicle<T>(s: seq<T>, key: T -> int, clock: int) {
    Ascending(s, key) && Below(s, key, clock)
  }

  /** A snapshot of every table, so that a handler's contract can say what it changed
      and, by saying nothing else, that it changed nothing else. */
  datatype Tables = Tables(
    users: map<Id, User>, posts: map<Id, Post>, comments: seq<Comment>,
    likes: set<(Id, Id)>,        // (userId, postId)
    follows: set<(Id, Id)>,      // (followerId, followingId)
    notifications: seq<Notification>, chats: seq<Chat>, messages: seq<Message>,
    clock: nat)

  predicate EmailTaken(users: map<Id, User>, email: string) {
    exists k :: k in users && users[k].email == email
  }

  ghost predicate UniqueEmails(users: map<Id, User>) {
    forall k1, k2 :: k1 in users && k2 in users && users[k1].email == users[k2].email ==> k1 == k2
  }

  /** The user `findUnique({ where: { email } })` finds. */
  ghost function UserWithEmail(users: map<Id, User>, email: string): (k: Id)
    requires EmailTaken(users, email)
    ensures k in users && users[k].email == email
  {
    var k :| k in users && users[k].email == email; k
  }

  class Store {
    var users: map<Id, User>
    var posts: map<Id, Post>
    var comments: seq<Comment>
    var likes: set<(Id, Id)>
    var follows: set<(Id, Id)>
    var notifications: seq<Notification>
    var chats: seq<Chat>
    var messages: seq<Message>
    var clock: nat

    function State(): Tables
      reads this
    {
      Tables(users, posts, comments, likes, follows, notifications, chats, messages, clock)
    }

    /** What the database's own constraints guarantee: keys match ids, every id and
        every stamp was handed out by `clock`, e-mail addresses are unique, and the
        sequence tables are in creation order by stamp and by id (so their ids are unique). */
    ghost predicate Valid()
      reads this
    {
      && (forall k :: k in users ==> users[k].id == k && k < clock)
      && UniqueEmails(users)
      && (forall k :: k in posts ==> posts[k].id == k && k < clock && posts[k].createdAt < clock)
      && Chronicle(comments, CommentTime, clock) && Chronicle(comments, CommentKey, clock)
      && Chronicle(notifications, NotificationTime, clock) && Chronicle(notifications, NotificationKey, clock)
      && Chronicle(chats, ChatTime, clock) && Chronicle(chats, ChatKey, clock)
      && Chronicle(messages, MessageTime, clock) && Chronicle(messages, MessageKey, clock)
    }

    constructor ()
      ensures Valid()
      ensures State() == Tables(map[], map[], [], {}, {}, [], [], [], 0)
    {
      users, posts, comments := map[], map[], [];
      likes, follows := {}, {};
      notifications, chats, messages := [], [], [];
      clock := 0;
    }

    /** `prisma.user.create`: a fresh id and no refresh token, bio, skills or picture. */
    method CreateUser(username: string, email: string, password: string) returns (u: User)
      requires Valid()
      requires !EmailTaken(users, email)
      modifies this
      ensures Valid()
      ensures u == User(old(clock), username, email, password, None, None, [], None)
      ensures State() == old(State()).(users := old(users)[u.id := u], clock := old(clock) + 1)
    {
      u := User(clock, username, email, password, None, None, [], None);
      users := users[clock := u];
      clock := clock + 1;
    }

    method CreatePost(userId: Id, content: string) returns (p: Post)
      requires Valid()
      modifies this
      ensures Valid()
      ensures p == Post(old(clock), userId, content, old(clock))
      ensures State() == old(State()).(posts := old(posts)[p.id := p], clock := old(clock) + 1)
    {
      p := Post(clock, userId, content, clock);
      posts := posts[clock := p];
      clock := clock + 1;
    }

    method CreateComment(userId: Id, postId: Id, content: string) returns (c: Comment)
      requires Valid()
      modifies this
      ensures Valid()
      ensures c == Comment(old(clock), userId, postId, content, old(clock))
      ensures State() == old(State()).(comments := old(comments) + [c], clock := old(clock) + 1)
    {
      c := Comment(clock, userId, postId, content, clock);
      AppendStamped(comments, c, CommentTime, clock);
      AppendStamped(comments, c, CommentKey, clock);
      comments := comments + [c];
      clock := clock + 1;
    }

    /** `prisma.notification.create`; `isRead` starts false. */
    method CreateNotification(userId: Id, kind: string, message: string) returns (n: Notification)
      requires Valid()
      modifies this
      ensures Valid()
      ensures n == Notification(old(clock), userId, kind, message, false, old(clock))
      ensures State() == old(State()).(notifications := old(notifications) + [n], clock := old(clock) + 1)
    {
      n := Notification(clock, userId, kind, message, false, clock);
      AppendStamped(notifications, n, NotificationTime, clock);
      AppendStamped(notifications, n, NotificationKey, clock);
      notifications := notifications + [n];
      clock := clock + 1;
    }

    method CreateChat(members: set<Id>) returns (c: Chat)
      requires Valid()
      modifies this
      ensures Valid()
      ensures c == Chat(old(clock), members, old(clock))
      ensures State() == old(State()).(chats := old(chats) + [c], clock := old(clock) + 1)
    {
      c := Chat(clock, members, clock);
      AppendStamped(chats, c, ChatTime, clock);
      AppendStamped(chats, c, ChatKey, clock);
      chats := chats + [c];
      clock := clock + 1;
    }

    method CreateMessage(chatId: Id, senderId: Id, content: string) returns (m: Message)
      requires Valid()
      modifies this
      ensures Valid()
      ensures m == Message(old(clock), chatId, senderId, content, old(clock))
      ensures State() == old(State()).(messages := old(messages) + [m], clock := old(clock) + 1)
    {
      m := Message(clock, chatId, senderId, content, clock);
      AppendStamped(messages, m, MessageTime, clock);
      AppendStamped(messages, m, MessageKey, clock);
      messages := messages + [m];
      clock := clock + 1;
    }
  }
}
