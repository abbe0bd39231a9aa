/** Chat messages: stored, then broadcast to the chat's room. */
module MessageController {
  import opened Base
  import opened Seqs
  import opened Database
  import opened Socket

  /** `POST /message`. The message is stored before the server handle is fetched, so
      an uninitialised socket layer fails the request after the row exists. Neither
      the chat's existence nor the sender's membership in it is checked. */
  method SendMessage(db: Store, sockets: Registry, me: Session, chatId: Option<Id>, content: Option<string>)
    returns (r: Reply<Message>)
    requires db.Valid()
    modifies db, sockets.io
    ensures db.Valid()
    ensures sockets.io == old(sockets.io)
    ensures sockets.io != null ==> sockets.io.joined == old(sockets.io.joined)
    ensures !(chatId.Some? && Given(content)) ==>
      r == Err(400, "Chat ID and message content are required") &&
      db.State() == old(db.State()) &&
      (sockets.io != null ==> sockets.io.sent == old(sockets.io.sent))
    ensures chatId.Some? && Given(content) ==>
      var m := Message(old(db.clock), chatId.value, me.id, content.value, old(db.clock));
      db.State() == old(db.State()).(messages := old(db.messages) + [m], clock := old(db.clock) + 1) &&
      (sockets.io == null ==> r == Err(500, "Socket.io has not been initialized!")) &&
      (sockets.io != null ==>
        r == Ok(201, m) &&
        sockets.io.sent == old(sockets.io.sent) +
          [Emission(chatId.value, "receive_message", Stored(m), old(sockets.io.Members(chatId.value)))])
  {
    if chatId.None? || !Given(content) {
      return Err(400, "Chat ID and message content are required");
    }
    var m := db.CreateMessage(chatId.value, me.id, content.value);
    var io := sockets.GetIO();
    if io.Failure? {
      // thrown outside any try: the error handler answers 500 with its text
      return Err(500, io.error);
    }
    io.value.Emit(chatId.value, "receive_message", Stored(m));
    r := Ok(201, m);
  }

  /** `GET /message/:chatId`: that chat's messages, oldest first. */
  function GetMessages(db: Store, chatId: Option<Id>): (r: Reply<seq<Message>>)
    reads db
    requires db.Valid()
    ensures chatId.None? <==> r == Err(400, "Chat ID id required")
    ensures r.Ok? ==> r.status == 200
    ensures r.Ok? ==> forall m :: m in r.value <==> m in db.messages && m.chatId == chatId.value
    ensures r.Ok? ==> Ascending(r.value, MessageTime)
  {
    if chatId.None? then Err(400, "Chat ID id required")
    else
      var inChat := (m: Message) => m.chatId == chatId.value;
      FilterAscending(db.messages, inChat, MessageTime);
      Ok(200, Filter(db.messages, inChat))
  }
}
