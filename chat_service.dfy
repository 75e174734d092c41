/** The chat service (BE/src/services/chatService.ts): room membership, messages, presence and the
    socket event handlers registered by `handleConnection`.

    The two tables the service reaches through the ORM are a `Database` object, the Socket.IO server
    is a `Server` object whose `emitted` log records every event sent, in order, with its target,
    and a connected client is a `ClientSocket`. A database call that fails (the ORM's promise
    rejects) is a `dbFails` argument. Generated ids are arguments too; reusing one breaks the
    primary key, so the insert fails. */
module Chat {
  import opened Common
  import opened Json
  import opened Rooms
  import opened Messages

  /** Where an event goes: `io.to(room)`, `io` itself (every client) or the one `socket`. */
  datatype Target = ToRoom(roomId: string) | ToAll | ToSocket(socketId: string)

  /** The event names. `newMessage` is sent by `sendMessage`, `new_message` by its handler. */
  datatype EventName = UserJoined | UserLeft | NewMessageCamel | UserStatusChanged
                     | RoomJoined | RoomLeft | NewMessageSnake | MessageRead | ErrorEvent

  function EventText(e: EventName): string
  {
    match e
    case UserJoined => "userJoined"
    case UserLeft => "userLeft"
    case NewMessageCamel => "newMessage"
    case UserStatusChanged => "user_status_changed"
    case RoomJoined => "room_joined"
    case RoomLeft => "room_left"
    case NewMessageSnake => "new_message"
    case MessageRead => "message_read"
    case ErrorEvent => "error"
  }

  /** The fixed messages of the `error` events. */
  datatype Failure = JoinFailed | LeaveFailed | SendFailed | MarkReadFailed

  function FailureText(f: Failure): string
  {
    match f
    case JoinFailed => "Failed to join room"
    case LeaveFailed => "Failed to leave room"
    case SendFailed => "Failed to send message"
    case MarkReadFailed => "Failed to mark message as read"
  }

  datatype Payload = UserPayload(userId: string)
                   | RoomUserPayload(roomId: string, userId: string)
                   | MessagePayload(message: Message)
                   | ReadPayload(messageId: string, userId: string)
                   | StatusPayload(userId: string, status: string)
                   | ErrorPayload(failure: Failure)

  datatype Event = Event(target: Target, name: EventName, payload: Payload)

  const Online: string := "online"
  const Offline: string := "offline"

  /** `ids.filter(id => id !== x)`: every occurrence of `x` goes, every other element stays. */
  function Without(s: seq<string>, x: string): (r: seq<string>)
    ensures x !in r
    ensures forall y :: y != x ==> (y in r <==> y in s)
    ensures |r| <= |s|
  {
    if s == [] then []
    else if s[0] == x then Without(s[1..], x)
    else [s[0]] + Without(s[1..], x)
  }

  /** Filtering keeps the order: it distributes over concatenation. */
  lemma {:induction false} WithoutAppend(a: seq<string>, b: seq<string>, x: string)
    ensures Without(a + b, x) == Without(a, x) + Without(b, x)
    decreases |a|
  {
    if a != [] {
      WithoutAppend(a[1..], b, x);
      assert (a + b)[0] == a[0];
      assert (a + b)[1..] == a[1..] + b;
      if a[0] != x {
        calc {
          Without(a + b, x);
          [a[0]] + Without(a[1..] + b, x);
          [a[0]] + (Without(a[1..], x) + Without(b, x));
          ([a[0]] + Without(a[1..], x)) + Without(b, x);
        }
      }
    } else {
      assert a + b == b;
    }
  }

  /** A list without `x` is left as it is. */
  lemma {:induction false} WithoutAbsent(s: seq<string>, x: string)
    requires x !in s
    ensures Without(s, x) == s
    decreases |s|
  {
    if s != [] {
      WithoutAbsent(s[1..], x);
      assert s == [s[0]] + s[1..];
    }
  }

  /** Leaving twice is leaving once. */
  lemma WithoutIdempotent(s: seq<string>, x: string)
    ensures Without(Without(s, x), x) == Without(s, x)
  {
    WithoutAbsent(Without(s, x), x);
  }

  /** Joining and then leaving removes `x` altogether, its earlier entries included. */
  lemma JoinThenLeave(s: seq<string>, x: string)
    ensures Without(s + [x], x) == Without(s, x)
    ensures x !in Without(s + [x], x)
  {
    WithoutAppend(s, [x], x);
    assert Without([x], x) == [];
  }

  /** The row after `joinRoom`: `userId` appended to the members, which are written back through the
      setter; nothing else changes. */
  function Joined(room: Room, userId: string): (r: Room)
    requires GetMembers(room.members).Some?
    ensures GetMembers(r.members) == Some(GetMembers(room.members).value + [userId])
    ensures r.(members := room.members) == room
  {
    var members := GetMembers(room.members).value + [userId];
    MembersRoundTrip(Some(members));
    room.(members := Some(SetMembers(Some(members))))
  }

  /** The row after `leaveRoom`: every occurrence of `userId` filtered out, the rest kept in order. */
  function Left(room: Room, userId: string): (r: Room)
    requires GetMembers(room.members).Some?
    ensures GetMembers(r.members) == Some(Without(GetMembers(room.members).value, userId))
    ensures r.(members := room.members) == room
  {
    var members := Without(GetMembers(room.members).value, userId);
    MembersRoundTrip(Some(members));
    room.(members := Some(SetMembers(Some(members))))
  }

  /** Joining does not deduplicate: joining twice lists the user twice more. */
  lemma JoinTwice(room: Room, userId: string)
    requires GetMembers(room.members).Some?
    ensures GetMembers(Joined(Joined(room, userId), userId).members) ==
            Some(GetMembers(room.members).value + [userId, userId])
  {
    var m := GetMembers(room.members).value;
    assert m + [userId] + [userId] == m + [userId, userId];
  }

  /** After joining and leaving, the user is no member, and the others are as before leaving. */
  lemma JoinedThenLeft(room: Room, userId: string)
    requires GetMembers(room.members).Some?
    ensures GetMembers(Left(Joined(room, userId), userId).members) ==
            Some(Without(GetMembers(room.members).value, userId))
  {
    JoinThenLeave(GetMembers(room.members).value, userId);
  }

  /** Leaving is idempotent on the member list. */
  lemma LeftTwice(room: Room, userId: string)
    requires GetMembers(room.members).Some?
    ensures GetMembers(Left(Left(room, userId), userId).members) == GetMembers(Left(room, userId).members)
  {
    WithoutIdempotent(GetMembers(room.members).value, userId);
  }

  /** The messages of a room (`Message.findAll({ where: { roomId } })`). The query names no order;
      the model lists them in the order they were stored, and the service's contracts promise only
      which messages are listed, as a multiset. */
  function InRoom(ms: seq<Message>, roomId: string): (r: seq<Message>)
    ensures forall m :: m in r <==> m in ms && m.roomId == roomId
    ensures |r| <= |ms|
  {
    if ms == [] then []
    else if ms[|ms| - 1].roomId == roomId then InRoom(ms[..|ms| - 1], roomId) + [ms[|ms| - 1]]
    else InRoom(ms[..|ms| - 1], roomId)
  }

  /** A stored message is listed for its room, after the ones stored before it, and no other
      room's listing changes. */
  lemma InRoomAppend(ms: seq<Message>, m: Message)
    ensures InRoom(ms + [m], m.roomId) == InRoom(ms, m.roomId) + [m]
    ensures forall other :: other != m.roomId ==> InRoom(ms + [m], other) == InRoom(ms, other)
  {
    assert (ms + [m])[..|ms|] == ms;
  }

  predicate HasMessageId(ms: seq<Message>, id: string)
  {
    exists i :: 0 <= i < |ms| && ms[i].id == id
  }

  /** The `rooms` and `messages` tables. */
  class Database {
    var rooms: map<string, Room>
    var messages: seq<Message>

    constructor()
      ensures rooms == map[] && messages == []
    {
      rooms := map[];
      messages := [];
    }
  }

  /** The Socket.IO server; `emitted` is every event sent through it or its sockets. */
  class Server {
    var emitted: seq<Event>

    constructor()
      ensures emitted == []
    {
      emitted := [];
    }
  }

  /** A connected client: its id, the authenticated user, and the rooms it has joined (a Socket.IO
      socket starts in the room named by its own id). */
  class ClientSocket {
    const id: string
    const userId: string
    var rooms: set<string>

    constructor(id: string, userId: string)
      ensures this.id == id && this.userId == userId && rooms == {id}
    {
      this.id := id;
      this.userId := userId;
      rooms := {id};
    }
  }

  class ChatService {
    const io: Server
    const db: Database
    /** The room cache; only `createRoom` writes it and nothing reads it. */
    var rooms: map<string, Room>
    var userStatuses: map<string, string>

    constructor(io: Server, db: Database)
      ensures this.io == io && this.db == db
      ensures rooms == map[] && userStatuses == map[]
    {
      this.io := io;
      this.db := db;
      rooms := map[];
      userStatuses := map[];
    }

    /** `createRoom`: the validated row is inserted into the table and the cache; a rejected
        attribute set or a taken id makes `Room.create` throw, and nothing changes. */
    method CreateRoom(input: RoomInput, newId: string) returns (room: Option<Room>)
      modifies this, db
      ensures room == (if NewRoom(input, newId).Some? && newId !in old(db.rooms) then NewRoom(input, newId) else None)
      ensures room.Some? ==> db.rooms == old(db.rooms)[newId := room.value] && rooms == old(rooms)[newId := room.value]
      ensures room.None? ==> db.rooms == old(db.rooms) && rooms == old(rooms)
      ensures room.Some? ==> GetRoom(newId) == room && GetMembers(room.value.members) == Some(GivenMembers(input))
      ensures db.messages == old(db.messages) && userStatuses == old(userStatuses)
    {
      var created := NewRoom(input, newId);
      if created.None? || newId in db.rooms {
        return None;
      }
      db.rooms := db.rooms[newId := created.value];
      rooms := rooms[newId := created.value];
      return created;
    }

    /** `getRooms`: every row of the table. */
    function GetRooms(): map<string, Room>
      reads db
    {
      db.rooms
    }

    /** `getRoom`: the row with that primary key, if any. */
    function GetRoom(id: string): Option<Room>
      reads db
    {
      if id in db.rooms then Some(db.rooms[id]) else None
    }

    /** `getMessages`: the messages of one room, and no others. */
    function GetMessages(roomId: string): (r: seq<Message>)
      reads db
      ensures forall m :: m in r <==> m in db.messages && m.roomId == roomId
    {
      InRoom(db.messages, roomId)
    }

    /** `joinRoom`: an unknown room changes nothing and emits nothing; otherwise the user is
        appended to the members, duplicates and all, and `userJoined` goes to the room. Members that
        cannot be read make it throw, as does a failing database. */
    method JoinRoom(roomId: string, userId: string, dbFails: bool) returns (ok: bool)
      modifies db, io
      ensures ok <==> !dbFails && (roomId in old(db.rooms) ==> GetMembers(old(db.rooms[roomId].members)).Some?)
      ensures ok && roomId in old(db.rooms) ==>
                && db.rooms == old(db.rooms)[roomId := Joined(old(db.rooms[roomId]), userId)]
                && io.emitted == old(io.emitted) + [Event(ToRoom(roomId), UserJoined, UserPayload(userId))]
      ensures !ok || roomId !in old(db.rooms) ==> db.rooms == old(db.rooms) && io.emitted == old(io.emitted)
      ensures db.messages == old(db.messages)
    {
      if dbFails {
        return false;
      }
      if roomId !in db.rooms {
        return true;
      }
      var room := db.rooms[roomId];
      if GetMembers(room.members).None? {
        return false;
      }
      db.rooms := db.rooms[roomId := Joined(room, userId)];
      io.emitted := io.emitted + [Event(ToRoom(roomId), UserJoined, UserPayload(userId))];
      return true;
    }

    /** `leaveRoom`: like `joinRoom`, but every occurrence of the user is filtered out and `userLeft`
        goes to the room. */
    method LeaveRoom(roomId: string, userId: string, dbFails: bool) returns (ok: bool)
      modifies db, io
      ensures ok <==> !dbFails && (roomId in old(db.rooms) ==> GetMembers(old(db.rooms[roomId].members)).Some?)
      ensures ok && roomId in old(db.rooms) ==>
                && db.rooms == old(db.rooms)[roomId := Left(old(db.rooms[roomId]), userId)]
                && io.emitted == old(io.emitted) + [Event(ToRoom(roomId), UserLeft, UserPayload(userId))]
      ensures !ok || roomId !in old(db.rooms) ==> db.rooms == old(db.rooms) && io.emitted == old(io.emitted)
      ensures db.messages == old(db.messages)
    {
      if dbFails {
        return false;
      }
      if roomId !in db.rooms {
        return true;
      }
      var room := db.rooms[roomId];
      if GetMembers(room.members).None? {
        return false;
      }
      db.rooms := db.rooms[roomId := Left(room, userId)];
      io.emitted := io.emitted + [Event(ToRoom(roomId), UserLeft, UserPayload(userId))];
      return true;
    }

    /** `sendMessage`: the validated row is stored and `newMessage` goes to its room. The room is not
        looked up, and the sender is whatever the client says. A rejected attribute set or a taken id
        makes `Message.create` throw, and nothing changes. */
    method SendMessage(input: MessageInput, newId: string) returns (message: Option<Message>)
      modifies db, io
      ensures message == (if CreateMessage(input, newId).Some? && !HasMessageId(old(db.messages), newId)
                          then CreateMessage(input, newId) else None)
      ensures message.Some? ==>
                && db.messages == old(db.messages) + [message.value]
                && io.emitted == old(io.emitted) + [Event(ToRoom(message.value.roomId), NewMessageCamel, MessagePayload(message.value))]
                && multiset(GetMessages(message.value.roomId)) == multiset(old(GetMessages(message.value.roomId))) + multiset{message.value}
                && (forall r :: r != message.value.roomId ==> multiset(GetMessages(r)) == multiset(old(GetMessages(r))))
      ensures message.None? ==> db.messages == old(db.messages) && io.emitted == old(io.emitted)
      ensures db.rooms == old(db.rooms)
    {
      var created := CreateMessage(input, newId);
      if created.None? || HasMessageId(db.messages, newId) {
        return None;
      }
      InRoomAppend(db.messages, created.value);
      db.messages := db.messages + [created.value];
      io.emitted := io.emitted + [Event(ToRoom(created.value.roomId), NewMessageCamel, MessagePayload(created.value))];
      return created;
    }

    /** `markMessageAsRead`: the update names a `read` attribute and a `userId` column that the
        message model does not have, so no row ever changes. Whether the call resolves or throws
        (the `messages` table has no `userId` column to filter on) is decided by the ORM and the
        database, and is the `dbFails` argument. */
    method MarkMessageAsRead(messageId: string, userId: string, dbFails: bool) returns (ok: bool)
      ensures ok == !dbFails
    {
      ok := !dbFails;
    }

    /** `updateUserStatus`: last write wins, and the change goes to every client. */
    method UpdateUserStatus(userId: string, status: string)
      modifies this, io
      ensures userStatuses == old(userStatuses)[userId := status]
      ensures io.emitted == old(io.emitted) + [Event(ToAll, UserStatusChanged, StatusPayload(userId, status))]
      ensures rooms == old(rooms)
    {
      userStatuses := userStatuses[userId := status];
      io.emitted := io.emitted + [Event(ToAll, UserStatusChanged, StatusPayload(userId, status))];
    }

    /** `handleConnection` itself: the user is marked online; the handlers it registers follow. */
    method OnConnect(socket: ClientSocket)
      modifies this, io
      ensures userStatuses == old(userStatuses)[socket.userId := Online]
      ensures io.emitted == old(io.emitted) + [Event(ToAll, UserStatusChanged, StatusPayload(socket.userId, Online))]
      ensures rooms == old(rooms)
    {
      UpdateUserStatus(socket.userId, Online);
    }

    /** The `join_room` handler: after `joinRoom` resolves, even for an unknown room, the socket
        joins and `room_joined` goes to the room; if it throws, only the socket hears of it. */
    method OnJoinRoom(socket: ClientSocket, roomId: string, dbFails: bool)
      modifies db, io, socket
      ensures var ok := !dbFails && (roomId in old(db.rooms) ==> GetMembers(old(db.rooms[roomId].members)).Some?);
              && (ok ==> && socket.rooms == old(socket.rooms) + {roomId}
                         && db.rooms == (if roomId in old(db.rooms)
                                         then old(db.rooms)[roomId := Joined(old(db.rooms[roomId]), socket.userId)]
                                         else old(db.rooms))
                         && io.emitted == old(io.emitted)
                              + (if roomId in old(db.rooms) then [Event(ToRoom(roomId), UserJoined, UserPayload(socket.userId))] else [])
                              + [Event(ToRoom(roomId), RoomJoined, RoomUserPayload(roomId, socket.userId))])
              && (!ok ==> && socket.rooms == old(socket.rooms) && db.rooms == old(db.rooms)
                          && io.emitted == old(io.emitted) + [Event(ToSocket(socket.id), ErrorEvent, ErrorPayload(JoinFailed))])
      ensures db.messages == old(db.messages)
    {
      var ok := JoinRoom(roomId, socket.userId, dbFails);
      if ok {
        socket.rooms := socket.rooms + {roomId};
        io.emitted := io.emitted + [Event(ToRoom(roomId), RoomJoined, RoomUserPayload(roomId, socket.userId))];
      } else {
        io.emitted := io.emitted + [Event(ToSocket(socket.id), ErrorEvent, ErrorPayload(JoinFailed))];
      }
    }

    /** The `leave_room` handler: the socket leaves and `room_left` goes to the room, or the error
        goes to the socket alone. */
    method OnLeaveRoom(socket: ClientSocket, roomId: string, dbFails: bool)
      modifies db, io, socket
      ensures var ok := !dbFails && (roomId in old(db.rooms) ==> GetMembers(old(db.rooms[roomId].members)).Some?);
              && (ok ==> && socket.rooms == old(socket.rooms) - {roomId}
                         && db.rooms == (if roomId in old(db.rooms)
                                         then old(db.rooms)[roomId := Left(old(db.rooms[roomId]), socket.userId)]
                                         else old(db.rooms))
                         && io.emitted == old(io.emitted)
                              + (if roomId in old(db.rooms) then [Event(ToRoom(roomId), UserLeft, UserPayload(socket.userId))] else [])
                              + [Event(ToRoom(roomId), RoomLeft, RoomUserPayload(roomId, socket.userId))])
              && (!ok ==> && socket.rooms == old(socket.rooms) && db.rooms == old(db.rooms)
                          && io.emitted == old(io.emitted) + [Event(ToSocket(socket.id), ErrorEvent, ErrorPayload(LeaveFailed))])
      ensures db.messages == old(db.messages)
    {
      var ok := LeaveRoom(roomId, socket.userId, dbFails);
      if ok {
        socket.rooms := socket.rooms - {roomId};
        io.emitted := io.emitted + [Event(ToRoom(roomId), RoomLeft, RoomUserPayload(roomId, socket.userId))];
      } else {
        io.emitted := io.emitted + [Event(ToSocket(socket.id), ErrorEvent, ErrorPayload(LeaveFailed))];
      }
    }

    /** The `send_message` handler: a stored message is announced twice to its room, as `newMessage`
        and then as `new_message`; a failure goes to the socket alone. */
    method OnSendMessage(socket: ClientSocket, input: MessageInput, newId: string)
      modifies db, io
      ensures var created := CreateMessage(input, newId);
              if created.Some? && !HasMessageId(old(db.messages), newId) then
                && db.messages == old(db.messages) + [created.value]
                && io.emitted == old(io.emitted) + [Event(ToRoom(created.value.roomId), NewMessageCamel, MessagePayload(created.value)),
                                                    Event(ToRoom(created.value.roomId), NewMessageSnake, MessagePayload(created.value))]
              else
                && db.messages == old(db.messages)
                && io.emitted == old(io.emitted) + [Event(ToSocket(socket.id), ErrorEvent, ErrorPayload(SendFailed))]
      ensures db.rooms == old(db.rooms)
    {
      var message := SendMessage(input, newId);
      if message.Some? {
        io.emitted := io.emitted + [Event(ToRoom(input.roomId.value), NewMessageSnake, MessagePayload(message.value))];
      } else {
        io.emitted := io.emitted + [Event(ToSocket(socket.id), ErrorEvent, ErrorPayload(SendFailed))];
      }
    }

    /** The `message_read` handler: success is announced to every client, not just the room. */
    method OnMessageRead(socket: ClientSocket, messageId: string, dbFails: bool)
      modifies io
      ensures !dbFails ==> io.emitted == old(io.emitted) + [Event(ToAll, MessageRead, ReadPayload(messageId, socket.userId))]
      ensures dbFails ==> io.emitted == old(io.emitted) + [Event(ToSocket(socket.id), ErrorEvent, ErrorPayload(MarkReadFailed))]
    {
      var ok := MarkMessageAsRead(messageId, socket.userId, dbFails);
      if ok {
        io.emitted := io.emitted + [Event(ToAll, MessageRead, ReadPayload(messageId, socket.userId))];
      } else {
        io.emitted := io.emitted + [Event(ToSocket(socket.id), ErrorEvent, ErrorPayload(MarkReadFailed))];
      }
    }

    /** The `update_status` handler: any status string the client sends is recorded. */
    method OnUpdateStatus(socket: ClientSocket, status: string)
      modifies this, io
      ensures userStatuses == old(userStatuses)[socket.userId := status]
      ensures io.emitted == old(io.emitted) + [Event(ToAll, UserStatusChanged, StatusPayload(socket.userId, status))]
      ensures rooms == old(rooms)
    {
      UpdateUserStatus(socket.userId, status);
    }

    /** The `disconnect` handler: the user is marked offline. */
    method OnDisconnect(socket: ClientSocket)
      modifies this, io
      ensures userStatuses == old(userStatuses)[socket.userId := Offline]
      ensures io.emitted == old(io.emitted) + [Event(ToAll, UserStatusChanged, StatusPayload(socket.userId, Offline))]
      ensures rooms == old(rooms)
    {
      UpdateUserStatus(socket.userId, Offline);
    }
  }

  /** A fresh service: create a room, then the same user joins it twice and is listed twice. */
  method JoinTwiceScenario(input: RoomInput, roomId: string, userId: string) returns (members: Option<seq<string>>)
    requires NewRoom(input, roomId).Some?
    ensures members == Some(GivenMembers(input) + [userId, userId])
  {
    var db := new Database();
    var io := new Server();
    var chat := new ChatService(io, db);
    var room := chat.CreateRoom(input, roomId);
    var created := db.rooms[roomId];
    assert GetMembers(created.members) == Some(GivenMembers(input));
    var first := chat.JoinRoom(roomId, userId, false);
    assert db.rooms[roomId] == Joined(created, userId);
    var once := db.rooms[roomId];
    var second := chat.JoinRoom(roomId, userId, false);
    assert db.rooms[roomId] == Joined(once, userId);
    JoinTwice(created, userId);
    members := GetMembers(db.rooms[roomId].members);
  }

  /** A fresh service: a client connects and joins a room that does not exist. Nothing is stored,
      yet `room_joined` goes to that room. */
  method JoinUnknownRoomScenario(socketId: string, userId: string, roomId: string)
    returns (events: seq<Event>, joined: set<string>, stored: map<string, Room>)
    ensures events == [Event(ToAll, UserStatusChanged, StatusPayload(userId, Online)),
                       Event(ToRoom(roomId), RoomJoined, RoomUserPayload(roomId, userId))]
    ensures roomId in joined && stored == map[]
  {
    var db := new Database();
    var io := new Server();
    var chat := new ChatService(io, db);
    var socket := new ClientSocket(socketId, userId);
    chat.OnConnect(socket);
    chat.OnJoinRoom(socket, roomId, false);
    events, joined, stored := io.emitted, socket.rooms, db.rooms;
  }

  /** A fresh service: a valid message sent over a socket reaches its room twice, as `newMessage`
      and then as `new_message`, and is listed for that room. */
  method SendMessageScenario(socketId: string, userId: string, input: MessageInput, messageId: string)
    returns (events: seq<Event>, listed: seq<Message>)
    requires CreateMessage(input, messageId).Some?
    ensures |events| == 2 && |listed| == 1
    ensures events[0].name == NewMessageCamel && events[1].name == NewMessageSnake
    ensures events[0].target == events[1].target == ToRoom(input.roomId.value)
    ensures events[0].payload == events[1].payload == MessagePayload(listed[0])
    ensures listed[0].id == messageId
    ensures input.status.None? ==> listed[0].status == Sent
  {
    var db := new Database();
    var io := new Server();
    var chat := new ChatService(io, db);
    var socket := new ClientSocket(socketId, userId);
    var m := CreateMessage(input, messageId).value;
    assert !HasMessageId(db.messages, messageId);
    chat.OnSendMessage(socket, input, messageId);
    assert db.messages == [m];
    events := io.emitted;
    assert events == [Event(ToRoom(m.roomId), NewMessageCamel, MessagePayload(m)),
                      Event(ToRoom(m.roomId), NewMessageSnake, MessagePayload(m))];
    InRoomAppend([], m);
    assert [] + [m] == [m];
    listed := chat.GetMessages(input.roomId.value);
    assert listed == [m];
  }

  /** A fresh service: connect, set a status, disconnect. Each change is broadcast and the last one
      wins. */
  method PresenceScenario(socketId: string, userId: string, status: string)
    returns (events: seq<Event>, finalStatus: string)
    ensures events == [Event(ToAll, UserStatusChanged, StatusPayload(userId, Online)),
                       Event(ToAll, UserStatusChanged, StatusPayload(userId, status)),
                       Event(ToAll, UserStatusChanged, StatusPayload(userId, Offline))]
    ensures finalStatus == Offline
  {
    var db := new Database();
    var io := new Server();
    var chat := new ChatService(io, db);
    var socket := new ClientSocket(socketId, userId);
    chat.OnConnect(socket);
    chat.OnUpdateStatus(socket, status);
    chat.OnDisconnect(socket);
    events, finalStatus := io.emitted, chat.userStatuses[userId];
  }

  /** A failing `join_room` tells only the socket, with the fixed message, and changes nothing. */
  method FailedJoinScenario(socketId: string, userId: string, input: RoomInput, roomId: string)
    returns (events: seq<Event>, members: Option<seq<string>>, joined: set<string>)
    requires NewRoom(input, roomId).Some?
    ensures events == [Event(ToSocket(socketId), ErrorEvent, ErrorPayload(JoinFailed))]
    ensures members == Some(GivenMembers(input)) && joined == {socketId}
  {
    var db := new Database();
    var io := new Server();
    var chat := new ChatService(io, db);
    var socket := new ClientSocket(socketId, userId);
    var room := chat.CreateRoom(input, roomId);
    chat.OnJoinRoom(socket, roomId, true);
    events, members, joined := io.emitted, GetMembers(db.rooms[roomId].members), socket.rooms;
  }
}
