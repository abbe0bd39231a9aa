/** The Socket.IO side: a module-level server handle that must be initialised
    before use, chat rooms that connections join, and broadcasts to a room. */
module Socket {
  import opened Base
  import opened Database

  /** A connection's `socket.id`. */
  type ConnId = string

  /** What a `receive_message` event carries: a message the REST handler stored, or
      the object a client sent with `send_message`, passed on as it came. */
  datatype Payload = Stored(message: Message) | Relayed(chatId: Id, body: string)

  /** One `io.to(room).emit(event, payload)`, with the connections in the room at that moment. */
  datatype Emission = Emission(room: Id, event: string, payload: Payload, recipients: set<ConnId>)

  /** The rooms a connection has joined (none if it has joined none). */
  function RoomsOf(joined: map<ConnId, set<Id>>, conn: ConnId): set<Id> {
    if conn in joined then joined[conn] else {}
  }

  /** A Socket.IO server: room membership and the log of what it broadcast. */
  class Server {
    var joined: map<ConnId, set<Id>>
    var sent: seq<Emission>

    constructor ()
      ensures joined == map[] && sent == []
    {
      joined, sent := map[], [];
    }

    /** The connections currently in `room`. */
    function Members(room: Id): (m: set<ConnId>)
      reads this
      ensures forall c :: c in m <==> room in RoomsOf(joined, c)
    {
      set c | c in joined && room in joined[c]
    }

    /** The `join_chat` handler: `socket.join(chatId)`. */
    method JoinChat(conn: ConnId, chatId: Id)
      modifies this
      ensures joined == old(joined)[conn := RoomsOf(old(joined), conn) + {chatId}]
      ensures sent == old(sent)
      ensures Members(chatId) == old(Members(chatId)) + {conn}
      ensures forall room :: room != chatId ==> Members(room) == old(Members(room))
    {
      joined := joined[conn := RoomsOf(joined, conn) + {chatId}];
    }

    /** `io.to(room).emit(event, payload)`: delivered to whoever is in the room now. */
    method Emit(room: Id, event: string, payload: Payload)
      modifies this
      ensures sent == old(sent) + [Emission(room, event, payload, old(Members(room)))]
      ensures joined == old(joined)
    {
      sent := sent + [Emission(room, event, payload, Members(room))];
    }

    /** The `send_message` handler: passes the client's object on, unchanged, to the
        room it names as `receive_message`; nothing is stored. */
    method RelayMessage(chatId: Id, body: string)
      modifies this
      ensures sent == old(sent) + [Emission(chatId, "receive_message", Relayed(chatId, body), old(Members(chatId)))]
      ensures joined == old(joined)
    {
      Emit(chatId, "receive_message", Relayed(chatId, body));
    }
  }

  /** The module-level `let io`, unset until `initializeSocket` runs. */
  class Registry {
    var io: Server?

    constructor ()
      ensures io == null
    {
      io := null;
    }

    /** `initializeSocket`: makes a new server, keeps it in `io` and returns it. */
    method InitializeSocket() returns (s: Server)
      modifies this
      ensures fresh(s) && io == s
      ensures s.joined == map[] && s.sent == []
    {
      s := new Server();
      io := s;
    }

    /** `getIO`: throws until `initializeSocket` has run, then always gives its server. */
    method GetIO() returns (r: Result<Server>)
      ensures io == null <==> r == Failure("Socket.io has not been initialized!")
      ensures io != null <==> r == Success(io)
    {
      if io == null {
        return Failure("Socket.io has not been initialized!");
      }
      r := Success(io);
    }
  }
}
