# Signalling relay: room registry and message relay

This project models the signalling core of a small video-call server
(`backend/server.js`). Clients connect over socket.io and use the server to
find each other by a shared room id. The server then relays the WebRTC
negotiation messages between them. The core is the set of socket.io handlers:

- `create-room` puts the caller in a room under a newly generated id and
  sends it `room-created(id)`.
- `join-room(id)` decides on the room's current size. Size 0 means "Room does
  not exist". Size 1 admits the caller, sends it `room-joined(id)` and sends
  `initiate_call(id)` to the other member. Size 2 or more means "Room is full".
- `offer`, `answer` and `ice-candidate` pass their payload unchanged, under the
  same event name, to the members of the named room through
  `socket.to(room)`. From socket.io 4 on, `to` skips every member of the
  room named by the sender's own id. That is the sender alone unless another
  socket has joined that room (see below). The model follows socket.io 4.
  socket.io 3 skips only the sender (see "## Left out").
- `disconnect` is meant to send `user-disconnected(id)` to the other members of
  every room the closing socket is in, except the socket's personal room. As
  registered, it sends nothing (see "## Findings").

The shared state is socket.io's room table, a map from room id to the set of
connection ids in it. Two behaviours of socket.io's adapter are modelled as
explicit steps because the handlers rely on them. First, every connection is
put in a personal room named by its own id when it opens (`Connect`). Second,
when a connection closes, it is removed from every room, and a room left
empty is deleted (`RoomTable.Leave`, `Server.LeaveAll`).

Layout:

- `protocol.dfy` (`Protocol`): connection and room ids, opaque payloads, the
  events the server emits and their wire names.
- `room_table.dfy` (`RoomTable`): the room table. A room id missing from the
  table has no members, which is how `join-room` reads it (size 0). Also
  holds joining, leaving, and the capacity facts about them.
- `inbox.dfy` (`Inbox`): what each connection has received, in order.
  `Send` models `socket.emit`. `Deliver` models `socket.to(room).emit`.
- `handlers.dfy` (`Handlers`): the server state as a value, with one transition
  function per handler. The contracts say what each handler does to the rooms
  and to every connection's inbox.
- `server.dfy` (`SignalServer`): class `Server`, whose fields are the room
  table and the inboxes. It has one method per handler, updating the state in
  place. Broadcasts and the disconnect walk over the rooms are loops. Each
  method is proved to have exactly the effect of the matching transition
  function.
- `properties.dfy` (`Properties`): whole-run properties. These are the
  two-member capacity invariant, rooms ceasing to exist once empty, and the
  create / join / reject / offer / disconnect exchange between peers.

The code is modelled, including what it does not check:

- A generated room id is never checked against live rooms. `create-room` with
  an id already in use joins the existing room. The capacity invariant is
  proved only for runs whose new ids are fresh (`Properties.FreshRun`), and
  `CreateCollisionOverfills` shows it failing without that.
- A relay is not checked against the sender's membership. A non-member's
  `offer` still reaches every member of the named room outside its personal
  room.
- `join-room` decides only on the size. A socket that is the sole member of a
  room can "join" it again: it is told `room-joined`, the room is unchanged,
  and nobody gets `initiate_call` (`RejoinBySoleMember`). A socket's personal
  room has size 1, so another socket can join it, and the owner is told to
  start a call. From socket.io 4 on, every `socket.to` from the owner skips
  all members of its personal room, though. From then on the owner's relays
  and notices never reach the joiner (`IdRoomJoinSilencesRelay`).
- The relay sends to every member of the room outside the sender's personal
  room, not to a single peer.

## Model

| member | source | states |
|---|---|---|
| Protocol.WireFormInjective | backend/server.js:54-95 | an emitted event is determined by its event name and its argument, so the events in the model are exactly what reaches a client |
| RoomTable.Join | backend/server.js:53 | `socket.join(r)`: `r` gains the caller, every other room keeps its members, and a table without empty rooms stays without empty rooms |
| RoomTable.Leave | backend/server.js:91-98 | on close the connection is taken out of every room, a room whose only member it was is deleted, no other room is touched, and no empty room appears |
| RoomTable.JoinSingleWithinTwo | backend/server.js:63-64 | joining a room of size 1 leaves it with at most two members, and with exactly two when the caller was not its member |
| RoomTable.JoinEmptyWithinCapacity | backend/server.js:52-53 | joining a room with no members (a fresh id) keeps every room within two members |
| RoomTable.JoinSingleWithinCapacity | backend/server.js:63-64 | joining a room of size 1 keeps every room within two members |
| RoomTable.LeaveWithinCapacity | backend/server.js:91-98 | removing a closed connection from all rooms keeps every room within two members |
| RoomTable.LeaveRoomsOf | backend/server.js:93 | once the adapter has cleaned up after a closed connection, that connection is in no room, so a walk over its rooms finds none |
| Inbox.Send | backend/server.js:54 | `socket.emit`: the caller's received events grow by exactly that event, and no other connection receives anything |
| Inbox.Deliver | backend/server.js:66 | `socket.to(room).emit` with its recipients already worked out: each recipient's events grow by exactly one copy of the event, and no other connection receives anything |
| Inbox.DeliverStep | backend/server.js:66 | sending to one more recipient extends a partial broadcast to that recipient, so a broadcast can go out one recipient at a time |
| Handlers.Connect | backend/server.js:48 | a new connection becomes a member of the room named by its own id, nothing else changes, and nothing is sent |
| Handlers.CreateRoom | backend/server.js:51-55 | the caller joins room `r`, and is its sole member when `r` had none. Only the caller receives anything: exactly one `room-created(r)` |
| Handlers.JoinRoom | backend/server.js:57-70 | size 0: only the caller hears, `error("Room does not exist")`, rooms unchanged. Size 1: the caller is added (two members if new) and gets `room-joined(r)`. Each member of `r` outside the caller's personal room gets `initiate_call(r)`, and no one else does. Size 2 or more: only the caller hears, `error("Room is full")`, rooms unchanged |
| Handlers.Relay | backend/server.js:72-85 | the rooms are unchanged. Every member of `r` outside the sender's personal room receives the payload unchanged under the inbound event name, and nobody else receives anything. Sender membership is not required |
| Handlers.Notify | backend/server.js:93-97 | after the broadcast over a set of rooms, each connection outside `s`'s personal room has received one more `user-disconnected(s)` per room of the set it is in. Members of that personal room receive none |
| Handlers.NotifyStep | backend/server.js:93-97 | notifying one more room's members outside `s`'s personal room extends the notices by exactly that room, so the `forEach` can run room by room |
| Handlers.Disconnect | backend/server.js:91-98 | the intended handler. The closing socket leaves every room and empty rooms disappear. Members of its personal room, itself included, receive nothing. Every other connection receives one `user-disconnected(s)` per room it shared with `s`, other than `s`'s id room |
| Handlers.DisconnectAsWritten | backend/server.js:91-98 | the handler as registered on `disconnect`. The socket has already left every room, as with `Disconnect`, and no connection receives anything |
| SignalServer.Server.constructor | backend/server.js:48 | a started server has no rooms and has sent nothing |
| SignalServer.Server.Emit | backend/server.js:54 | updates the inboxes in place to `Send` of the old ones, rooms untouched |
| SignalServer.Server.EmitToRoom | backend/server.js:66 | loops over the members of the room outside the sender's personal room, and ends with the inboxes equal to `Deliver` over them, rooms untouched |
| SignalServer.Server.Connect | backend/server.js:48 | the new state is `Handlers.Connect` of the old, and the table keeps no empty room |
| SignalServer.Server.CreateRoom | backend/server.js:51-55 | the new state is `Handlers.CreateRoom` of the old, and the table keeps no empty room |
| SignalServer.Server.JoinRoom | backend/server.js:57-70 | the new state is `Handlers.JoinRoom` of the old, and the table keeps no empty room |
| SignalServer.Server.Relay | backend/server.js:72-85 | the new state is `Handlers.Relay` of the old, and the table keeps no empty room |
| SignalServer.Server.NotifyRooms | backend/server.js:93-97 | loops over the socket's rooms except its id room, and ends with the inboxes equal to `Handlers.Notify` over them, rooms untouched |
| SignalServer.Server.LeaveAll | backend/server.js:91-98 | loops over the socket's rooms, removing it and deleting each room that becomes empty, and ends with the table equal to `Leave` of the old one |
| SignalServer.Server.Disconnect | backend/server.js:91-98 | the new state is `Handlers.Disconnect` of the old, and the table keeps no empty room |
| Properties.StepWithinCapacity | backend/server.js:52-69 | any one handler, given fresh new ids, keeps every room within two members |
| Properties.StepLive | backend/server.js:58 | any one handler keeps the table free of empty rooms. No room id in the table maps to an empty set, so a room that empties is gone, and size 0 always means absent |
| Properties.RunWithinCapacity | backend/server.js:48-99 | over any run whose new ids are fresh, every room stays within two members and no empty room is kept |
| Properties.ReachableWithinCapacity | backend/server.js:48-99 | every state reached from a fresh start by a run with fresh ids has no room above two members |
| Properties.CreateCollisionOverfills | backend/server.js:52-53 | a generated id equal to a full room's id makes the creator a third member, breaking the capacity invariant |
| Properties.EmptyRoomActsAbsent | backend/server.js:58-62 | `join-room` treats a room with an empty member set and an absent room alike: `error("Room does not exist")` to the caller, and nothing else changes |
| Properties.DisconnectNotifiesOnce | backend/server.js:93-97 | a connection outside the closing socket's personal room that shares exactly one room with it gets exactly one `user-disconnected` |
| Properties.DisconnectAsWrittenMissesPeer | backend/server.js:91-98 | for such a connection, the handler as registered sends nothing, where the intended one sends a notice |
| Properties.IdRoomJoinSilencesRelay | backend/server.js:57-74 | under socket.io 4's skip rule: a second connection can join the personal room of a first. After that, an offer from the first naming that room reaches nobody |
| Properties.RelayToOwnRoomSilent | backend/server.js:72-85 | under socket.io 4's skip rule: a relay that names the sender's own personal room changes nothing, whoever has joined that room |
| Properties.RejoinBySoleMember | backend/server.js:63-66 | `join-room` by a room's only member, while it is connected, changes no room, sends it `room-joined`, and sends nobody `initiate_call` |
| Properties.StaleRoomMissing | backend/server.js:58-62 | after both members of a room disconnect the id names no room, and joining it yields `error("Room does not exist")` |
| Properties.CreateThenJoin | backend/server.js:51-66 | create then join, by a joiner alone in its personal room, pairs the two sockets. The creator receives `room-created` then `initiate_call`, the joiner `room-joined`, and nobody else anything |
| Properties.FullThenOffer | backend/server.js:67-85 | in a full room a third socket gets `error("Room is full")`. An offer from one member, alone in its personal room, reaches only the other, verbatim, and nobody else receives anything |
| Properties.LeaveAfterExchange | backend/server.js:91-98 | when one of two paired sockets closes, alone in its personal room, the other gets one `user-disconnected`, a third socket nothing, and the room keeps the other alone |
| Properties.TwoPeerExchange | backend/server.js:51-98 | the full exchange, in order, between two sockets each alone in its personal room: create, join, rejected third join, offer, disconnect. The receipts of all three sockets are exactly the expected sequences |

## Left out

- The PayPal order endpoint (`backend/server.js:20-44`) is a pass-through to a third-party SDK over HTTP, with no state of its own.
- Room-id generation (`backend/server.js:104-106`) uses `Math.random` and base-36 formatting. The generated id is an input of `create-room`. Freshness is a precondition of the capacity theorem, not a property of the generator.
- The socket.io transport, CORS, `server.listen`, logging and the `error` handler (`backend/server.js:8-18, 87-89, 101-102`) are I/O plumbing.
- Disconnect timing: the handler uses socket.io's Map-based room API (`adapter.rooms.get(..).size` at `backend/server.js:58-59`, `socket.rooms.forEach` at `backend/server.js:93`), which exists from socket.io 3 on. In those versions the adapter takes a socket out of all its rooms before `disconnect` fires, so the handler as written sends no notice (`Handlers.DisconnectAsWritten`, and "## Findings"). `Handlers.Disconnect` and `SignalServer.Server.Disconnect` model the intended order instead, which socket.io offers as the `disconnecting` event: first notify the other members, then leave all rooms. The one-notice properties hold only for that intended handler.
- SignalServer.Server.Disconnect: models the intended handler only. The as-written behaviour, where nothing is sent, exists only as the function `Handlers.DisconnectAsWritten`, not as a method.
- Order across connections: each connection's received events are kept in order. The interleaving of deliveries to different connections is not, because socket.io does not define it.
- Payload shape: an inbound relay message is modelled as a string room id and its payload. Three inputs are not modelled:
  - A message with no `roomId` field, where JavaScript reads `undefined`.
  - An `offer`, `answer` or `ice-candidate` sent with no argument or with `null`. Here the read of `event.roomId` (`backend/server.js:73, 78, 83`) throws a TypeError that nothing in the server catches. The handler fails rather than dropping the message.
  - An array-valued `roomId`, for which socket.io 4's `to` broadcasts to every room in the array.
- Sender exclusion under socket.io 3: there `socket.to` skips only the sending socket, not the other members of its personal room. The model uses socket.io 4's rule. The two agree whenever the sender is alone in its personal room, which holds for every property except `Properties.IdRoomJoinSilencesRelay` and `Properties.RelayToOwnRoomSilent`. Those two describe socket.io 4 only.
- Connection ids are assumed unique and not in use as room ids (`Properties.Fresh` for `Connect`). socket.io generates them.
- The client (`payment-app/src/components/VideoCall.js`, `PaymentForm.js`, `App.js`) is React UI, media capture and WebRTC. Its only check is the empty room-id test before `join-room`.
- SignalServer.Server.Connect, CreateRoom, JoinRoom, Relay, Disconnect: these require the object invariant `Valid()` (no empty room in the table). The constructor establishes it and every method keeps it. The code itself has no such precondition; the invariant is what socket.io's adapter guarantees.

## Findings

| source | as written | input that shows it | evidently intended | confidence | as-written member | corrected member |
|---|---|---|---|---|---|---|
| backend/server.js:91-98 | the notices are sent from the `disconnect` handler. With the socket.io 3+ API the code uses, the socket has already left every room by then, so `socket.rooms` is empty and nothing is sent | sockets A and B paired in room r. A closes. B receives nothing | B receives one `user-disconnected(A)` (register the walk on `disconnecting`) | not executed; rests on socket.io 3+ running the room clean-up before `disconnect` | Properties.DisconnectAsWrittenMissesPeer | Handlers.Disconnect |
