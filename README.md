# DevConnect backend, modelled in Dafny

DevConnect is a developer social network. Its Express backend stores users, posts,
comments, likes, follows, notifications, chats and messages through Prisma. It
authenticates with a JWT access token plus a refresh token that is stored on the user
row and sent as a cookie. It pushes chat messages to Socket.IO rooms. This project
models that backend's request handlers and proves what each one answers and how it
changes the data.

## Structure

- `Database` (`database.dfy`): the rows and the Prisma client.
  - The client is the `Store` class, with one field per table.
  - `users` and `posts` are maps keyed by id. `likes` and `follows` are sets of
    pairs, because their compound unique keys make duplicates impossible.
    Comments, notifications, chats and messages are sequences kept in insertion order.
  - One counter, `clock`, gives every new row both its id and its `createdAt`.
  - `Store.Valid()` is the invariant the handlers keep:
    - keys match ids;
    - every id and every stamp is below `clock`;
    - e-mails are unique;
    - each sequence table ascends by `createdAt` and by id, so its ids are unique.
  - The `Create*` methods model `prisma.<model>.create`.
  - `State()` snapshots all tables, so every handler's `ensures` states its whole new
    state as `old(db.State()).(table := …)`.
- One module per controller:
  - `LikeController`, `UserController`, `PostController`, `CommentController`,
    `NotificationController`, `ChatController`, `MessageController`,
    `SearchController`, `AuthController`.
  - A handler that writes is a method with `modifies db`. A handler that only reads
    is a function that `reads db`.
  - Every handler returns a `Reply`: either `Ok(status, body)` or
    `Err(status, message)`. `Err` is the `AppError` passed to `next`.
  - A request field is an `Option`. `Base.Given` is JavaScript truthiness of a
    string: present and non-empty.
- `Socket` (`socket.dfy`):
  - A `Server` class holds room membership and the log of emissions. Its methods
    are the `join_chat` and `send_message` handlers and `emit`.
  - A `Registry` class holds the module-level `io` handle, with `initializeSocket`
    and `getIO`.
- `AuthMiddleware`, `ErrorHandler`, `Upload`: the three middlewares.
- `Crypto` (`crypto.dfy`): bcrypt, the JWT signers and verifiers, and zod's
  e-mail check, given as function-typed fields of `Services` that handlers take as
  parameters. The text of a failed schema parse is a function of the schema and of
  the body it was given.
- `Text`, `Seqs`, `Base`: string and sequence helpers that hold the JavaScript
  semantics used:
  - `String.prototype.replace` with a string pattern;
  - `trim`;
  - case-insensitive `contains`;
  - `startsWith`.
- `Scenarios` (`scenarios.dfy`): request sequences proved from the handlers'
  contracts:
  - like then unlike restores the store;
  - a second like is refused;
  - following twice is one edge but two notifications;
  - the same chat is fetched twice;
  - a duplicate registration is refused;
  - a refresh token works until logout or the next login;
  - a joined connection receives a sent message;
  - reading a chat ends with the message just sent.

Two behaviours of the code are modelled as written:
- `logoutUser` without a cookie passes `undefined` as the `refreshToken` filter.
  Prisma drops an undefined filter, so every user's token is cleared
  (`AuthController.LoggedInWith`).
- `createOrFetchChat` looks for a chat all of whose members are in {caller, other}.
  A chat a user opened with themselves therefore satisfies any later lookup by that
  user (`ChatController.SelfChatAnswersEveryPair`).

## Model

| member | source | states |
|---|---|---|
| Database.Store.constructor | backend/src/controllers/authController.ts:2 | The `prisma` client starts with empty tables, which satisfy the store invariant. |
| Database.EmailTaken | backend/src/controllers/authController.ts:28-32 | Whether `getUserByEmail` finds a row: some user has that e-mail. |
| Database.UserWithEmail | backend/src/controllers/authController.ts:28-32 | The row `getUserByEmail` finds: a user that exists and has that e-mail. Since e-mails are unique, it is the only such user. |
| Base.Given | backend/src/controllers/postController.ts:12 | JavaScript truthiness of a string field as the `!field` guards test it: present and non-empty. |
| Database.Store.CreateUser | backend/src/controllers/authController.ts:34-42 | `user.create` adds one row under a fresh id, with no token, bio, skills or picture. Requires the e-mail to be free. Everything else is unchanged and the invariant holds. |
| Database.Store.CreatePost | backend/src/controllers/postController.ts:16-18 | `post.create` adds one row under a fresh id and stamp. Nothing else changes. |
| Database.Store.CreateComment | backend/src/controllers/commentController.ts:23-25 | `comment.create` appends one comment with a fresh id and stamp. Creation order is kept. |
| Database.Store.CreateNotification | backend/src/controllers/userController.ts:122-128 | `notification.create` appends one unread notification with a fresh stamp. |
| Database.Store.CreateChat | backend/src/controllers/chatController.ts:27-29 | `chat.create` appends one chat whose members are the connected users. |
| Database.Store.CreateMessage | backend/src/controllers/messageController.ts:18-21 | `message.create` appends one message with a fresh stamp. |
| LikeController.LikePost | backend/src/controllers/likeController.ts:8-30 | Gives 404 for a missing post and 400 for a repeat like, with no change. Otherwise gives 201 and adds exactly that pair. |
| LikeController.UnlikePost | backend/src/controllers/likeController.ts:33-57 | Gives 404 for a missing post and 400 when the post was never liked. Otherwise gives 200 and removes exactly that pair. |
| LikeController.GetPostLikes | backend/src/controllers/likeController.ts:60-78 | Gives 404 exactly when the post is missing. Otherwise returns exactly the likes of that post. |
| UserController.ProfileOf | backend/src/controllers/userController.ts:12-21 | The selected user fields, without password or token, and the user's follower and following rows. |
| UserController.GetAllUsers | backend/src/controllers/userController.ts:8-28 | Returns one profile per user, with no password or token, and that user's follower and following rows. |
| UserController.GetUserById | backend/src/controllers/userController.ts:31-57 | Gives 404 exactly when the user is missing. Otherwise it returns the user's id, username, e-mail, bio and skills, and the follower and following rows are exactly the edges into and out of that user. |
| UserController.Writable | backend/src/controllers/userController.ts:69-72 | The update can be written: neither of the required columns `username` and `skills` is set to `null`. |
| UserController.Edited | backend/src/controllers/userController.ts:67-72 | A field left out of the body keeps its value. A given field replaces its value, and a `null` bio or picture clears it. Id, e-mail, password and token never change. |
| UserController.NullClearsBio | backend/src/controllers/userController.ts:71 | A `null` bio clears it, while a left-out bio leaves it as it was. |
| UserController.UpdateUser | backend/src/controllers/userController.ts:60-78 | Edits only the caller's own row and answers with the updated row. A missing row, or a `null` username or skills list, gives 500 "Error updating profile" with no change. |
| UserController.DeleteUser | backend/src/controllers/userController.ts:81-93 | Removes only the caller's own row. A missing row gives 500 "Error deleting user". |
| UserController.FollowUser | backend/src/controllers/userController.ts:96-134 | Gives 400 for a missing id or for following yourself, with no change. Otherwise upserts the edge and appends a "follow" notification to the followed user with text "<username> started following you". |
| UserController.UnfollowUser | backend/src/controllers/userController.ts:137-156 | Gives 400 for a missing id. Otherwise removes the edge if present; a missing edge is not an error. |
| UserController.GetFollowers | backend/src/controllers/userController.ts:159-178 | Gives 400 exactly when the body has no id. Otherwise returns exactly the users who follow it. |
| UserController.GetFollowing | backend/src/controllers/userController.ts:181-200 | Gives 400 exactly when the body has no id. Otherwise returns exactly the users it follows. |
| UserController.FollowersMirrorFollowing | backend/src/controllers/userController.ts:169-172 | a is among b's followers if and only if b is among the users a follows. |
| PostController.CreatePost | backend/src/controllers/postController.ts:8-22 | Gives 400 unless userId and non-empty content are given. Otherwise the new post is owned by whichever userId the body names. |
| PostController.GetAllPosts | backend/src/controllers/postController.ts:25-28 | Returns exactly the stored posts. |
| PostController.GetPostById | backend/src/controllers/postController.ts:31-43 | Gives 404 exactly when the post is missing. Otherwise returns the post with that id. |
| PostController.UpdatePost | backend/src/controllers/postController.ts:46-64 | Checks 404 before 403. Only the owner may edit. Undefined content leaves the post as it was. A `null` content is refused with 500 after both checks, and nothing is written. |
| PostController.DeletePost | backend/src/controllers/postController.ts:67-82 | Checks 404 before 403. Only the owner may delete, and only that post goes. |
| PostController.GetUserPosts | backend/src/controllers/postController.ts:85-95 | Returns exactly the posts owned by the user. |
| CommentController.AddComment | backend/src/controllers/commentController.ts:8-33 | Gives 400 for a missing post id or content, then 404 for a missing post. Otherwise appends one comment by the caller. |
| CommentController.GetCommentsByPost | backend/src/controllers/commentController.ts:36-55 | Returns exactly the post's comments, strictly newest first. |
| CommentController.FindComment | backend/src/controllers/commentController.ts:63 | Finds the comment with the id. When there is none, no comment has that id. |
| CommentController.DeleteComment | backend/src/controllers/commentController.ts:58-80 | Gives 404 when the comment is missing and 403 for anyone but its author. Otherwise removes exactly the row with that id. |
| CommentController.RemoveUniqueKey | backend/src/controllers/commentController.ts:73 | Since ids are unique, deleting by id removes exactly one row and keeps all others. |
| NotificationController.GetNotifications | backend/src/controllers/notificationController.ts:8-19 | Returns exactly the caller's notifications, strictly newest first. |
| NotificationController.MarkedRead | backend/src/controllers/notificationController.ts:26-29 | Afterwards all of the user's notifications are read. Other users' rows and every other field are unchanged, and no row is added or removed. |
| NotificationController.MarkedReadIdempotent | backend/src/controllers/notificationController.ts:22-35 | Marking read twice is the same as marking once. |
| NotificationController.MarkNotificationsAsRead | backend/src/controllers/notificationController.ts:22-35 | Always 200. Only the notifications table changes, as `MarkedRead` says. |
| ChatController.FirstChatWithin | backend/src/controllers/chatController.ts:20-24 | `findFirst` with `every … in`: the first chat whose members all lie in the given set, or none if no chat does. |
| ChatController.CreateOrFetchChat | backend/src/controllers/chatController.ts:7-34 | Gives 400 for a missing id and 404 for an unknown user. Otherwise returns the first matching chat unchanged, or creates the chat {caller, other}. |
| ChatController.FirstChatAfterCreate | backend/src/controllers/chatController.ts:26-30 | After a chat is created because none matched, the lookup finds that new chat. |
| ChatController.FirstChatStable | backend/src/controllers/chatController.ts:20-32 | A lookup that found a chat keeps finding it when more chats are added. |
| ChatController.SelfChatAnswersEveryPair | backend/src/controllers/chatController.ts:20-24 | A chat with the single member a matches a's lookup with any b. |
| ChatController.GetUserChats | backend/src/controllers/chatController.ts:36-49 | Gives 400 exactly when no id is given. Otherwise returns exactly the chats that include the user, strictly newest first. |
| MessageController.SendMessage | backend/src/controllers/messageController.ts:8-28 | Gives 400 and touches nothing without a chat id and content. Otherwise stores the message first. Then it gives 500 if the socket is uninitialised, or emits exactly one `receive_message` to the chat's room and gives 201. |
| MessageController.GetMessages | backend/src/controllers/messageController.ts:30-44 | Gives 400 exactly when no chat id is given. Otherwise returns exactly that chat's messages, strictly oldest first. |
| SearchController.QueryMissing | backend/src/controllers/searchController.ts:15 | The guard: no query, an empty one, or one that trims to nothing. |
| SearchController.UserMatches | backend/src/controllers/searchController.ts:20-28 | The username or the bio contains the query, ignoring case; a null bio never matches. |
| SearchController.UserHitOf | backend/src/controllers/searchController.ts:27 | The user fields the search selects: id, username, bio and picture. |
| SearchController.PostHitOf | backend/src/controllers/searchController.ts:35 | The post fields the search selects: id, content, owner and creation time. |
| SearchController.QueryMissingIff | backend/src/controllers/searchController.ts:15-17 | The query is refused exactly when it is absent or all white space. |
| SearchController.SearchAll | backend/src/controllers/searchController.ts:11-40 | Gives 400 exactly when the query is missing. Otherwise a user is returned exactly when their username or bio contains the untrimmed query ignoring case, and a post exactly when its content does. |
| SearchController.UntrimmedQueryMisses | backend/src/controllers/searchController.ts:15-28 | Only the emptiness test trims the query: " al" does not find "al". |
| SearchController.MatchIgnoresCase | backend/src/controllers/searchController.ts:23-24 | Matching is case-insensitive on both sides: "LIC" finds "Alice". |
| AuthController.RegisterSchema | backend/src/controllers/authController.ts:17-21 | `registerSchema`: a username of at least 3 characters, a well-formed e-mail and a password of at least 6. |
| AuthController.LoginSchema | backend/src/controllers/authController.ts:23-26 | `loginSchema`: a well-formed e-mail and a password of at least 6 characters. |
| AuthController.LoggedInWith | backend/src/controllers/authController.ts:144-147 | The rows `updateMany` selects: those holding the cookie's token, or every row when the cookie is absent. |
| AuthController.RegisterImpliesLogin | backend/src/controllers/authController.ts:17-26 | Every body that passes the register schema passes the login schema. |
| AuthController.RegisterUser | backend/src/controllers/authController.ts:44-63 | A schema failure gives 500 "Register Error: …". A taken e-mail gives 400. Otherwise one user is stored with the hashed password, and nothing else changes. |
| AuthController.LoginUser | backend/src/controllers/authController.ts:65-105 | An unknown e-mail and a wrong password get the same 401. On success the response has the tokens and user summary, and only that user's stored refresh token changes. |
| AuthController.RefreshAccessToken | backend/src/controllers/authController.ts:111-134 | Gives 401 exactly without a cookie and 500 when verification fails. Gives a new access token exactly when the cookie is the token stored for the user it names; otherwise 404. |
| AuthController.LogoutUser | backend/src/controllers/authController.ts:139-154 | Always 200. Clears the token of exactly the users holding the cookie's token, or of every user when there is no cookie. No row is added or removed. |
| AuthController.GetMe | backend/src/controllers/authController.ts:159-176 | Gives 404 exactly when the caller's row is gone. Otherwise returns the caller's id, username and e-mail. |
| AuthMiddleware.ExtractToken | backend/src/middleware/authMiddleware.ts:16 | A missing header gives no token. A header without "Bearer " is taken whole. |
| AuthMiddleware.ExtractBearer | backend/src/middleware/authMiddleware.ts:16 | "Bearer t" gives exactly t. |
| AuthMiddleware.ExtractInside | backend/src/middleware/authMiddleware.ts:16 | The first "Bearer " is removed wherever it occurs: "xBearer y" gives "xy". |
| AuthMiddleware.Authenticate | backend/src/middleware/authMiddleware.ts:11-27 | A missing or empty token gives "Token required", and a failed verification gives "Auth Error: …". Succeeds exactly when the token verifies, and the session holds the token's claims. |
| AuthMiddleware.Request.constructor | backend/src/middleware/authMiddleware.ts:5-7 | An `AuthRequest` starts with no `user`. |
| AuthMiddleware.Protect | backend/src/middleware/authMiddleware.ts:11-27 | Stops with 401 and leaves `req.user` alone exactly when authentication fails. Otherwise sets `req.user` to the session and proceeds. |
| ErrorHandler.HandleError | backend/src/middleware/errorHandler.ts:5-26 | Passes the error on exactly when headers were sent. Otherwise responds with its status, or 500 when the status is missing or zero, and with `succes: false`, its message, and the stack only when NODE_ENV is "dev". |
| ErrorHandler.HasStatus | backend/src/middleware/errorHandler.ts:17 | `!statusCode` is false: a status code is present and non-zero. |
| ErrorHandler.AppErrorResponds | backend/src/middleware/errorHandler.ts:15-25 | An `AppError` from a controller becomes a response with that status and message. |
| Upload.FileFilter | backend/src/middleware/upload.ts:5-11 | Accepts with no error exactly when the MIME type starts with "image". Otherwise rejects with "Not an image! Please upload only images.". |
| Upload.OnlyMimeTypeMatters | backend/src/middleware/upload.ts:5-11 | Only the MIME type decides. |
| Upload.BarePrefix | backend/src/middleware/upload.ts:6 | The test is a bare prefix: "image" and "imagex/y" pass, "text/image" fails. |
| Socket.Server.constructor | backend/src/config/socket.ts:8-13 | A new server has no rooms and has sent nothing. |
| Socket.Server.Members | backend/src/config/socket.ts:19 | A room's members are exactly the connections that joined it. |
| Socket.Server.JoinChat | backend/src/config/socket.ts:18-21 | Adds the connection to that room only. Nothing is sent. |
| Socket.Server.Emit | backend/src/config/socket.ts:24 | Logs one emission to exactly the room's current members. |
| Socket.Server.RelayMessage | backend/src/config/socket.ts:23-26 | Passes the client's message on, unchanged, as `receive_message` to the room it names. No membership changes. |
| Socket.Registry.constructor | backend/src/config/socket.ts:5 | `io` starts unset. |
| Socket.Registry.InitializeSocket | backend/src/config/socket.ts:7-34 | Sets `io` to a fresh, empty server and returns it. |
| Socket.Registry.GetIO | backend/src/config/socket.ts:36-39 | Fails with "Socket.io has not been initialized!" exactly while `io` is unset. Otherwise returns that server. |
| Text.IndexFrom | backend/src/middleware/authMiddleware.ts:16 | Returns the first occurrence at or after `from`, or none when there is none. |
| Text.ReplaceFirst | backend/src/middleware/authMiddleware.ts:16 | `replace` with a string pattern: unchanged without an occurrence. Otherwise only the first occurrence is replaced. |
| Text.ReplaceLeading | backend/src/middleware/authMiddleware.ts:16 | Replacing a leading pattern leaves the rest intact. |
| Text.LowerChar | backend/src/controllers/searchController.ts:23-24 | Maps A–Z to a–z and leaves every other character alone. |
| Text.Lower | backend/src/controllers/searchController.ts:23-24 | Lowers each character in place and keeps the length. |
| Text.LowerIdempotent | backend/src/controllers/searchController.ts:23-24 | Lowering twice is lowering once. |
| Text.InsensitiveToPatternCase | backend/src/controllers/searchController.ts:23-24 | The query's case does not affect the match. |
| Text.TrimStart | backend/src/controllers/searchController.ts:15 | Drops exactly the leading white space, a suffix of the input. |
| Text.TrimEnd | backend/src/controllers/searchController.ts:15 | Drops exactly the trailing white space, a prefix of the input. |
| Text.Trim | backend/src/controllers/searchController.ts:15 | `trim()`: the result is a contiguous part of the input with only white space before and after it, and neither of its ends is white space. |
| Text.ContainsInsensitive | backend/src/controllers/searchController.ts:23-24 | `contains` with `mode: "insensitive"`: the lowered pattern occurs in the lowered text. |
| Text.StartsWith | backend/src/middleware/upload.ts:6 | `startsWith`: the text begins with that prefix. |
| Text.TrimEmpty | backend/src/controllers/searchController.ts:15 | `trim()` is empty if and only if the string is all white space. |
| Seqs.Filter | backend/src/controllers/commentController.ts:40-48 | `findMany` with `where`: only elements of the table that pass, and all of them. |
| Seqs.Reverse | backend/src/controllers/commentController.ts:47 | The mirror image, so "desc" is the reverse of insertion order. |
| Seqs.ReverseMembers | backend/src/controllers/commentController.ts:47 | Reordering descending keeps the same rows. |
| Seqs.FilterAscending | backend/src/controllers/messageController.ts:36-40 | Filtering a table kept in creation order keeps it strictly ascending. |
| Seqs.ReverseDescending | backend/src/controllers/notificationController.ts:12-15 | Reversing an ascending result makes it strictly descending. |
| Seqs.AppendStamped | backend/src/controllers/messageController.ts:18-21 | Appending a row stamped now keeps the table strictly ascending and bounded. |
| Seqs.RemoveAtAscending | backend/src/controllers/commentController.ts:73 | Deleting a row keeps the table strictly ascending and bounded. |
| Seqs.GreatestIsLast | backend/src/controllers/messageController.ts:39 | In the oldest-first order, the newest row comes last. |
| Scenarios.LikeThenUnlike | backend/src/controllers/likeController.ts:8-57 | Like then unlike both succeed, and the database is as before. |
| Scenarios.LikeTwice | backend/src/controllers/likeController.ts:17-23 | A second like is refused with 400, and the pair is stored once. |
| Scenarios.FollowTwice | backend/src/controllers/userController.ts:110-128 | Following twice leaves one edge but appends two notifications, with the same recipient, type and text, at consecutive stamps. |
| Scenarios.UnfollowTwice | backend/src/controllers/userController.ts:148-152 | A second unfollow still succeeds. |
| Scenarios.ChatTwice | backend/src/controllers/chatController.ts:20-33 | Fetching the chat with the same user twice gives the same chat. The second call changes nothing: the database ends as the first call left it, unchanged if a chat was found and with one new chat if not. |
| Scenarios.RegisterTwice | backend/src/controllers/authController.ts:49-50 | A second registration with the same e-mail is refused with 400. |
| Scenarios.LoginRefreshLogout | backend/src/controllers/authController.ts:81-147 | The refresh token from a login renews the access token. After logout the same token gives 404. |
| Scenarios.SecondLoginEndsFirst | backend/src/controllers/authController.ts:84-88 | A second login overwrites the stored token, so the first one gives 404. |
| Scenarios.JoinThenSend | backend/src/config/socket.ts:18-24 | After `initializeSocket`, a connection that joined a chat receives that chat's next stored message. |
| Scenarios.SendThenRead | backend/src/controllers/messageController.ts:18-42 | Reading a chat right after sending to it ends with the message sent. |

## Left out

- Included relation data is not modelled:
  - a like's `user`;
  - the follower or followed user's id and username;
  - a chat's users and messages;
  - a message's `sender`;
  - a post's `user`.

  Handlers return the ids or rows that those includes hang on. Note that `getPostById` includes the author with `user: true` and no `omit`. Read as written, its response therefore carries the author's password hash and refresh token, unlike `getAllPosts`, which omits both. The model's reply does not show this.
- Foreign keys and cascades: Prisma would reject, with an exception, the following:
  - a like, comment, post or message naming a missing row is rejected;
  - a follow of a missing user is rejected, which gives 500 "Error following user";
  - deleting a row that others refer to is refused.

  The model stores such rows and deletes without checking references.
- Unique usernames and Prisma's own failures, such as a lost connection, are left out. Real ids are strings, and `createdAt` is a clock; here ids and stamps are naturals handed out in order.
- `getUserById` and `getAllUsers`: a database failure (500 "Error fetching users") is not modelled.
- `asyncHandler`, `AppError` and the logger are not part of this model.
  - A `loginSchema` failure is thrown outside the handler's `try`. It is modelled as reaching the error handler with no status (500, with the zod message).
  - `getIO`'s throw in `sendMessage` is treated the same way.
- Libraries are parameters (`Crypto.Services`), not reimplemented:
  - bcrypt hashing and comparison;
  - JWT signing, expiry and verification;
  - zod's e-mail rule and its error text.
- PostController.UpdatePost: for a `null` content the 500 reply carries a fixed stand-in text (`NullContent`), not Prisma's own validation message, which depends on the Prisma version.
- AuthController.LoginUser: the cookie options (`httpOnly`, `secure`, `sameSite`, `maxAge`) are not modelled; only the cookie's value is.
- AuthController.LogoutUser: clearing the client's cookie is not modelled, because it is a response header.
- Text.LowerChar: case folding covers ASCII letters only, whereas Prisma's insensitive mode uses the database's full Unicode folding.
- Strings are sequences of Unicode scalar values, not the UTF-16 code units whose length zod's `min` counts.
- Socket.IO:
  - the `connection` and `disconnect` handlers only log, so they are left out;
  - CORS options are left out;
  - transport, delivery and acknowledgement are left out; an emission records the room's members at that moment.
- `uploadController`, the route files, `server.ts` and the frontend are not part of this model. Multer's storage, which is in memory and does no I/O of its own, is not modelled either.
- Socket.IO removes a disconnected socket from its rooms, but `Server.joined` never shrinks. An emission's recipients may therefore include connections that have closed.
- `findFirst` in `createOrFetchChat` has no `orderBy`, so the database may return any matching chat. The model returns the oldest one (`ChatController.FirstChatWithin`).
- The arrays returned by unordered `findMany` calls are modelled as sets, so their order is not modelled. These are `getAllUsers`, `getAllPosts`, `getUserPosts`, `getPostLikes`, `getFollowers` and `getFollowing`, and the user and post queries of `searchAll`.
- The `{ success: true, … }` wrappers of the JSON responses are dropped. A reply carries only its status and its payload or message.
- ZodError texts: the text a failed schema parse produces is a parameter (`Services.registerFailure`, `Services.loginFailure`), not zod's formatting of its issue list.
- Concurrency between requests is not modelled: each handler runs atomically on the store.
