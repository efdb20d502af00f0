/**
 * The socket.io event handlers as transitions of the server's state: the room
 * table together with what each connection has received. Each function is the
 * effect of one inbound event from connection `c`.
 */
module Handlers {
  import opened Protocol
  import opened RoomTable
  import opened Inbox

  datatype State = State(rooms: Rooms, inbox: Inboxes)

  /** A freshly started server: no rooms, nothing sent. */
  const Initial: State := State(map[], map[])

  /** `n` copies of `e`. */
  function Repeat(e: Event, n: nat): (s: seq<Event>)
    ensures |s| == n
    ensures forall i :: 0 <= i < n ==> s[i] == e
  {
    if n == 0 then [] else Repeat(e, n - 1) + [e]
  }

  /** A connection opens: the adapter puts socket `c` in the room named by
      its own id. Nothing is sent. */
  function Connect(st: State, c: ClientId): (st': State)
    ensures Members(st'.rooms, c) == Members(st.rooms, c) + {c}
    ensures forall r :: r != c ==> Members(st'.rooms, r) == Members(st.rooms, r)
    ensures st'.inbox == st.inbox
  {
    State(Join(st.rooms, c, c), st.inbox)
  }

  /** create-room with the generated id `r`: `c` joins room `r` (joining
      whatever room already has that id, since the id is not checked) and
      alone receives room-created(r). */
  function CreateRoom(st: State, c: ClientId, r: RoomId): (st': State)
    ensures Members(st'.rooms, r) == Members(st.rooms, r) + {c}
    ensures Size(st.rooms, r) == 0 ==> Members(st'.rooms, r) == {c}
    ensures forall q :: q != r ==> Members(st'.rooms, q) == Members(st.rooms, q)
    ensures Received(st'.inbox, c) == Received(st.inbox, c) + [RoomCreated(r)]
    ensures forall x :: x != c ==> Received(st'.inbox, x) == Received(st.inbox, x)
  {
    State(Join(st.rooms, r, c), Send(st.inbox, c, RoomCreated(r)))
  }

  /** join-room(r), decided on the current size of room `r`: none means the
      room does not exist, one means admit `c` and tell the room's other member
      to start the call, two or more means the room is full. The call notice
      goes out through socket.to(r), which from socket.io 4 on skips every
      member of the room named by `c`'s own id, not only `c`. */
  function JoinRoom(st: State, c: ClientId, r: RoomId): (st': State)
    ensures Size(st.rooms, r) == 0 ==>
      && st'.rooms == st.rooms
      && Received(st'.inbox, c) == Received(st.inbox, c) + [Error(RoomMissing)]
      && forall x :: x != c ==> Received(st'.inbox, x) == Received(st.inbox, x)
    ensures Size(st.rooms, r) == 1 ==>
      && Members(st'.rooms, r) == Members(st.rooms, r) + {c}
      && (c !in Members(st.rooms, r) ==> Size(st'.rooms, r) == 2)
      && (forall q :: q != r ==> Members(st'.rooms, q) == Members(st.rooms, q))
      && (c in Members(st'.rooms, c) ==>
            Received(st'.inbox, c) == Received(st.inbox, c) + [RoomJoined(r)])
      && (c !in Members(st'.rooms, c) ==>
            Received(st'.inbox, c) == Received(st.inbox, c) + [RoomJoined(r), InitiateCall(r)])
      && (forall x :: x != c && x in Members(st.rooms, r) && x !in Members(st'.rooms, c) ==>
            Received(st'.inbox, x) == Received(st.inbox, x) + [InitiateCall(r)])
      && (forall x :: x != c && (x !in Members(st.rooms, r) || x in Members(st'.rooms, c)) ==>
            Received(st'.inbox, x) == Received(st.inbox, x))
    ensures Size(st.rooms, r) >= 2 ==>
      && st'.rooms == st.rooms
      && Received(st'.inbox, c) == Received(st.inbox, c) + [Error(RoomFull)]
      && forall x :: x != c ==> Received(st'.inbox, x) == Received(st.inbox, x)
  {
    var n := Size(st.rooms, r);
    if n == 0 then
      State(st.rooms, Send(st.inbox, c, Error(RoomMissing)))
    else if n == 1 then
      JoinSingleWithinTwo(st.rooms, r, c);
      var rooms' := Join(st.rooms, r, c);
      var box := Send(st.inbox, c, RoomJoined(r));
      State(rooms', Deliver(box, Members(rooms', r) - Members(rooms', c), InitiateCall(r)))
    else
      State(st.rooms, Send(st.inbox, c, Error(RoomFull)))
  }

  /** offer, answer and ice-candidate naming room `r`: the payload goes,
      unchanged and under the name it arrived with, to every member of `r`
      outside the room named by the sender's id (socket.io 4's rule; the
      sender itself, while it is connected, and no one else unless another
      socket joined that room), whether or not the sender is a member of
      `r`. */
  function Relay(st: State, c: ClientId, k: Kind, r: RoomId, p: Payload): (st': State)
    ensures st'.rooms == st.rooms
    ensures forall x :: x in Members(st.rooms, r) && x !in Members(st.rooms, c) ==>
      Received(st'.inbox, x) == Received(st.inbox, x) + [Relayed(k, p)]
    ensures forall x :: x !in Members(st.rooms, r) || x in Members(st.rooms, c) ==>
      Received(st'.inbox, x) == Received(st.inbox, x)
  {
    State(st.rooms, Deliver(st.inbox, Members(st.rooms, r) - Members(st.rooms, c), Relayed(k, p)))
  }

  /** The rooms, other than its personal room, through which `s` and `x`
      are together. */
  function SharedRooms(rooms: Rooms, s: ClientId, x: ClientId): (rs: set<RoomId>)
    ensures forall r :: r in rs <==> r != s && s in Members(rooms, r) && x in Members(rooms, r)
  {
    set r | r in RoomsOf(rooms, s) - {s} && x in Members(rooms, r)
  }

  /** How many user-disconnected(s) notices `x` gets when `s` closes, counting
      the rooms in `via` only. Members of `s`'s id room get none. */
  function NoticeCount(rooms: Rooms, via: set<RoomId>, s: ClientId, x: ClientId): nat
  {
    if x in Members(rooms, s) then 0 else |set r | r in via && x in Members(rooms, r)|
  }

  /** The connections outside `s`'s id room that are in one of the rooms in
      `via`. */
  function Peers(rooms: Rooms, via: set<RoomId>, s: ClientId): set<ClientId>
  {
    set r, x | r in via && x in Members(rooms, r) && x !in Members(rooms, s) :: x
  }

  /** The inboxes after every room in `via` has told its members outside
      `s`'s id room that `s` disconnected. */
  function Notify(box: Inboxes, rooms: Rooms, via: set<RoomId>, s: ClientId): (box': Inboxes)
    ensures forall x ::
              Received(box', x) == Received(box, x) + Repeat(UserDisconnected(s), NoticeCount(rooms, via, s, x))
    ensures box'.Keys == box.Keys + Peers(rooms, via, s)
  {
    map x | x in box.Keys + Peers(rooms, via, s) ::
      Received(box, x) + Repeat(UserDisconnected(s), NoticeCount(rooms, via, s, x))
  }

  /** disconnect of `s`, as intended: each room `s` is in, other than its
      personal room, tells its members outside that personal room that `s`
      left; then the adapter takes `s` out of every room and drops the rooms
      left empty. */
  function Disconnect(st: State, s: ClientId): (st': State)
    ensures forall r :: Members(st'.rooms, r) == Members(st.rooms, r) - {s}
    ensures Live(st.rooms) ==> Live(st'.rooms)
    ensures forall x :: x in Members(st.rooms, s) ==> Received(st'.inbox, x) == Received(st.inbox, x)
    ensures forall x :: x !in Members(st.rooms, s) ==>
              Received(st'.inbox, x) == Received(st.inbox, x) + Repeat(UserDisconnected(s), |SharedRooms(st.rooms, s, x)|)
  {
    var via := RoomsOf(st.rooms, s) - {s};
    var box' := Notify(st.inbox, st.rooms, via, s);
    assert forall x :: x !in Members(st.rooms, s) ==> NoticeCount(st.rooms, via, s, x) == |SharedRooms(st.rooms, s, x)| by {
      forall x | x !in Members(st.rooms, s) ensures NoticeCount(st.rooms, via, s, x) == |SharedRooms(st.rooms, s, x)| {
        assert (set r | r in via && x in Members(st.rooms, r)) == SharedRooms(st.rooms, s, x);
      }
    }
    State(Leave(st.rooms, s), box')
  }

  /** disconnect of `s` as the handler is registered. In the socket.io
      versions whose adapter API the join-room handler uses (3 and later),
      the adapter has already taken `s` out of every room when `disconnect`
      fires, so the walk over the socket's rooms finds none and nothing is
      sent. */
  function DisconnectAsWritten(st: State, s: ClientId): (st': State)
    ensures forall r :: Members(st'.rooms, r) == Members(st.rooms, r) - {s}
    ensures st'.inbox == st.inbox
  {
    var rooms' := Leave(st.rooms, s);
    var via := RoomsOf(rooms', s) - {s};
    LeaveRoomsOf(st.rooms, s);
    assert via == {};
    NotifyNone(st.inbox, rooms', s);
    State(rooms', Notify(st.inbox, rooms', via, s))
  }

  /** Nothing is sent before any room has been processed. */
  lemma NotifyNone(box: Inboxes, rooms: Rooms, s: ClientId)
    ensures Notify(box, rooms, {}, s) == box
  {
    var n := Notify(box, rooms, {}, s);
    assert Peers(rooms, {}, s) == {};
    assert n.Keys == box.Keys;
    forall y | y in box.Keys ensures n[y] == box[y] {
      assert Received(n, y) == Received(box, y);
    }
  }

  /** One more room adds its members outside `s`'s id room to the peers. */
  lemma PeersStep(rooms: Rooms, done: set<RoomId>, r: RoomId, s: ClientId)
    ensures Peers(rooms, done + {r}, s) == Peers(rooms, done, s) + (Members(rooms, r) - Members(rooms, s))
  {
    forall x | x in Peers(rooms, done + {r}, s)
      ensures x in Peers(rooms, done, s) + (Members(rooms, r) - Members(rooms, s))
    {
      var q :| q in done + {r} && x in Members(rooms, q) && x !in Members(rooms, s);
      if q != r { assert x in Peers(rooms, done, s); }
    }
  }

  /** One more room adds one notice for each of its members outside `s`'s id
      room. */
  lemma NoticeCountStep(rooms: Rooms, done: set<RoomId>, r: RoomId, s: ClientId, y: ClientId)
    requires r !in done
    ensures NoticeCount(rooms, done + {r}, s, y)
         == NoticeCount(rooms, done, s, y) + (if y !in Members(rooms, s) && y in Members(rooms, r) then 1 else 0)
  {
    var before := set q | q in done && y in Members(rooms, q);
    var after := set q | q in done + {r} && y in Members(rooms, q);
    if y in Members(rooms, r) {
      assert after == before + {r};
    } else {
      assert after == before;
    }
  }

  /** One more copy at the end. */
  lemma RepeatSnoc(e: Event, n: nat, prefix: seq<Event>)
    ensures prefix + Repeat(e, n) + [e] == prefix + Repeat(e, n + 1)
  {
    assert Repeat(e, n + 1) == Repeat(e, n) + [e];
  }

  /** The notice step, seen from one connection `y`. */
  lemma NotifyStepAt(box: Inboxes, rooms: Rooms, done: set<RoomId>, r: RoomId, s: ClientId, y: ClientId)
    requires r !in done
    ensures Received(Deliver(Notify(box, rooms, done, s), Members(rooms, r) - Members(rooms, s), UserDisconnected(s)), y)
         == Received(Notify(box, rooms, done + {r}, s), y)
  {
    var e := UserDisconnected(s);
    NoticeCountStep(rooms, done, r, s, y);
    if y !in Members(rooms, s) && y in Members(rooms, r) {
      RepeatSnoc(e, NoticeCount(rooms, done, s, y), Received(box, y));
    }
  }

  /** The notice step reaches exactly the connections it should. */
  lemma NotifyStepKeys(box: Inboxes, rooms: Rooms, done: set<RoomId>, r: RoomId, s: ClientId)
    ensures Deliver(Notify(box, rooms, done, s), Members(rooms, r) - Members(rooms, s), UserDisconnected(s)).Keys
         == Notify(box, rooms, done + {r}, s).Keys
  {
    PeersStep(rooms, done, r, s);
  }

  /** Broadcasting user-disconnected(s) to the members of one more room `r`
      outside `s`'s id room extends the notices by that room: the step of the disconnect loop. */
  lemma NotifyStep(box: Inboxes, rooms: Rooms, done: set<RoomId>, r: RoomId, s: ClientId)
    requires r !in done
    ensures Deliver(Notify(box, rooms, done, s), Members(rooms, r) - Members(rooms, s), UserDisconnected(s))
         == Notify(box, rooms, done + {r}, s)
  {
    var lhs := Deliver(Notify(box, rooms, done, s), Members(rooms, r) - Members(rooms, s), UserDisconnected(s));
    var rhs := Notify(box, rooms, done + {r}, s);
    NotifyStepKeys(box, rooms, done, r, s);
    forall y | y in lhs.Keys ensures lhs[y] == rhs[y] {
      NotifyStepAt(box, rooms, done, r, s, y);
    }
  }
}
