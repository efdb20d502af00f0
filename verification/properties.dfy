/**
 * Properties of the signalling server over whole runs: the two-member
 * capacity of a room, rooms that empty out ceasing to exist, and the
 * create / join / relay / disconnect exchange between two peers.
 */
module Properties {
  import opened Protocol
  import opened RoomTable
  import opened Inbox
  import opened Handlers

  /** An inbound event, with the connection it arrived on. A create-room
      request carries the id the server generated for it. */
  datatype Request =
    | ConnectReq(client: ClientId)
    | CreateReq(client: ClientId, room: RoomId)
    | JoinReq(client: ClientId, room: RoomId)
    | RelayReq(client: ClientId, kind: Kind, room: RoomId, payload: Payload)
    | DisconnectReq(client: ClientId)

  /** The handler for `q`. */
  function Step(st: State, q: Request): State
  {
    match q
    case ConnectReq(c) => Connect(st, c)
    case CreateReq(c, r) => CreateRoom(st, c, r)
    case JoinReq(c, r) => JoinRoom(st, c, r)
    case RelayReq(c, k, r, p) => Relay(st, c, k, r, p)
    case DisconnectReq(c) => Disconnect(st, c)
  }

  /** The requests handled one after another. */
  function Run(st: State, qs: seq<Request>): State
    decreases |qs|
  {
    if qs == [] then st else Run(Step(st, qs[0]), qs[1..])
  }

  /** New identifiers name no live room: a connection's socket id, and the id
      generated for a create-room request. */
  predicate Fresh(st: State, q: Request)
  {
    match q
    case ConnectReq(c) => Size(st.rooms, c) == 0
    case CreateReq(_, r) => Size(st.rooms, r) == 0
    case _ => true
  }

  /** Every request of the run is fresh in the state it meets. */
  predicate FreshRun(st: State, qs: seq<Request>)
    decreases |qs|
  {
    qs == [] || (Fresh(st, qs[0]) && FreshRun(Step(st, qs[0]), qs[1..]))
  }

  /** One handler keeps every room within two members, provided the ids it
      introduces are fresh; join-room only admits into a room of size 1. */
  lemma StepWithinCapacity(st: State, q: Request)
    requires WithinCapacity(st.rooms) && Fresh(st, q)
    ensures WithinCapacity(Step(st, q).rooms)
  {
    match q
    case ConnectReq(c) =>
      JoinEmptyWithinCapacity(st.rooms, c, c);
      assert Step(st, q).rooms == Join(st.rooms, c, c);
    case CreateReq(c, r) =>
      JoinEmptyWithinCapacity(st.rooms, r, c);
      assert Step(st, q).rooms == Join(st.rooms, r, c);
    case JoinReq(c, r) =>
      if Size(st.rooms, r) == 1 {
        JoinSingleWithinCapacity(st.rooms, r, c);
        assert Step(st, q).rooms == Join(st.rooms, r, c);
      } else {
        assert Step(st, q).rooms == st.rooms;
      }
    case RelayReq(c, k, r, p) =>
      assert Step(st, q).rooms == st.rooms;
    case DisconnectReq(s) =>
      LeaveWithinCapacity(st.rooms, s);
      assert Step(st, q).rooms == Leave(st.rooms, s);
  }

  /** One handler keeps the table free of empty rooms. */
  lemma StepLive(st: State, q: Request)
    requires Live(st.rooms)
    ensures Live(Step(st, q).rooms)
  {
  }

  /** Capacity invariant: from a fresh start, as long as identifiers are
      fresh, no room ever holds more than two connections, and no empty room
      is kept. */
  lemma {:induction false} RunWithinCapacity(st: State, qs: seq<Request>)
    requires WithinCapacity(st.rooms) && Live(st.rooms) && FreshRun(st, qs)
    ensures WithinCapacity(Run(st, qs).rooms) && Live(Run(st, qs).rooms)
    decreases |qs|
  {
    if qs != [] {
      StepWithinCapacity(st, qs[0]);
      StepLive(st, qs[0]);
      RunWithinCapacity(Step(st, qs[0]), qs[1..]);
    }
  }

  /** The invariant holds of every fresh run of a newly started server. */
  lemma ReachableWithinCapacity(qs: seq<Request>)
    requires FreshRun(Initial, qs)
    ensures WithinCapacity(Run(Initial, qs).rooms) && Live(Run(Initial, qs).rooms)
  {
    RunWithinCapacity(Initial, qs);
  }

  /** Without the freshness of generated ids the invariant fails: create-room
      with the id of a full room makes the creator its third member. */
  lemma CreateCollisionOverfills(st: State, c: ClientId, r: RoomId)
    requires Size(st.rooms, r) == 2 && c !in Members(st.rooms, r)
    ensures Size(CreateRoom(st, c, r).rooms, r) == 3
    ensures !WithinCapacity(CreateRoom(st, c, r).rooms)
  {
  }

  /** A room holding an empty member set and a room the table does not hold
      at all are answered alike by join-room: "Room does not exist", and no
      other change. */
  lemma EmptyRoomActsAbsent(st: State, c: ClientId, r: RoomId)
    ensures JoinRoom(State(st.rooms[r := {}], st.inbox), c, r)
         == State(st.rooms[r := {}], Send(st.inbox, c, Error(RoomMissing)))
    ensures JoinRoom(State(st.rooms - {r}, st.inbox), c, r)
         == State(st.rooms - {r}, Send(st.inbox, c, Error(RoomMissing)))
  {
  }

  /** When `x`, outside the personal room of `s`, shares with `s` exactly one
      room besides that personal room, the disconnect of `s` sends `x`
      exactly one user-disconnected(s). */
  lemma DisconnectNotifiesOnce(st: State, s: ClientId, x: ClientId, r: RoomId)
    requires x !in Members(st.rooms, s) && SharedRooms(st.rooms, s, x) == {r}
    ensures Received(Disconnect(st, s).inbox, x) == Received(st.inbox, x) + [UserDisconnected(s)]
  {
    assert Repeat(UserDisconnected(s), 1) == [UserDisconnected(s)];
  }

  /** The handler as registered loses that notice: by the time `disconnect`
      fires the socket is in no room, so `x` hears nothing, while the
      intended handler tells it once. */
  lemma DisconnectAsWrittenMissesPeer(st: State, s: ClientId, x: ClientId, r: RoomId)
    requires x !in Members(st.rooms, s) && SharedRooms(st.rooms, s, x) == {r}
    ensures Received(DisconnectAsWritten(st, s).inbox, x) == Received(st.inbox, x)
    ensures Received(Disconnect(st, s).inbox, x) != Received(DisconnectAsWritten(st, s).inbox, x)
  {
    DisconnectNotifiesOnce(st, s, x, r);
    assert |Received(Disconnect(st, s).inbox, x)| == |Received(st.inbox, x)| + 1;
  }

  /** A second connection can join the personal room of a first, since that
      room has size 1. From then on the relay of the first skips the second
      too: from socket.io 4 on, socket.to excludes every member of the
      sender's personal room, so an offer from `s1` naming that room reaches
      nobody. */
  lemma IdRoomJoinSilencesRelay(st: State, s1: ClientId, s2: ClientId, sdp: Payload)
    requires s1 != s2 && Members(st.rooms, s1) == {s1} && Members(st.rooms, s2) == {s2}
    ensures var st' := JoinRoom(st, s2, s1);
      && Members(st'.rooms, s1) == {s1, s2}
      && Received(st'.inbox, s2) == Received(st.inbox, s2) + [RoomJoined(s1)]
      && Relay(st', s1, OfferMsg, s1, sdp).inbox == st'.inbox
  {
    assert Size(st.rooms, s1) == 1;
    RelayToOwnRoomSilent(JoinRoom(st, s2, s1), s1, OfferMsg, sdp);
  }

  /** Under socket.io 4's rule, a relay that names the sender's own personal
      room reaches nobody, whoever else has joined that room. */
  lemma RelayToOwnRoomSilent(st: State, c: ClientId, k: Kind, p: Payload)
    ensures Relay(st, c, k, c, p) == st
  {
    assert Members(st.rooms, c) - Members(st.rooms, c) == {};
    DeliverNone(st.inbox, Relayed(k, p));
  }

  /** join-room from the sole member of a room: the room is left as it
      was, the caller is still told it joined, and no one is told to start a
      call, since the room has no other member to tell. */
  lemma RejoinBySoleMember(st: State, c: ClientId, r: RoomId)
    requires Members(st.rooms, r) == {c} && c in Members(st.rooms, c)
    ensures forall q :: Members(JoinRoom(st, c, r).rooms, q) == Members(st.rooms, q)
    ensures Received(JoinRoom(st, c, r).inbox, c) == Received(st.inbox, c) + [RoomJoined(r)]
    ensures forall x :: x != c ==> Received(JoinRoom(st, c, r).inbox, x) == Received(st.inbox, x)
  {
    assert Size(st.rooms, r) == 1;
  }

  /** Once every member of a room has disconnected the room is gone: a
      join under the stale id is told "Room does not exist". */
  lemma StaleRoomMissing(st: State, a: ClientId, b: ClientId, c: ClientId, r: RoomId)
    requires Members(st.rooms, r) <= {a, b}
    ensures Size(Disconnect(Disconnect(st, a), b).rooms, r) == 0
    ensures JoinRoom(Disconnect(Disconnect(st, a), b), c, r).rooms == Disconnect(Disconnect(st, a), b).rooms
    ensures Received(JoinRoom(Disconnect(Disconnect(st, a), b), c, r).inbox, c)
         == Received(Disconnect(Disconnect(st, a), b).inbox, c) + [Error(RoomMissing)]
  {
    var st2 := Disconnect(Disconnect(st, a), b);
    assert Members(st2.rooms, r) == {};
  }

  /** Creating a room and then joining it with a second connection pairs
      the two: the joiner is told it joined, the creator is told to start the
      call, and no one else hears anything. */
  lemma CreateThenJoin(st: State, p1: ClientId, p2: ClientId, r: RoomId)
    requires p1 != p2 && Size(st.rooms, r) == 0 && Members(st.rooms, p2) == {p2}
    ensures var st' := JoinRoom(CreateRoom(st, p1, r), p2, r);
      && Members(st'.rooms, r) == {p1, p2}
      && (forall q :: q != r ==> Members(st'.rooms, q) == Members(st.rooms, q))
      && Received(st'.inbox, p1) == Received(st.inbox, p1) + [RoomCreated(r), InitiateCall(r)]
      && Received(st'.inbox, p2) == Received(st.inbox, p2) + [RoomJoined(r)]
      && (forall x :: x != p1 && x != p2 ==> Received(st'.inbox, x) == Received(st.inbox, x))
  {
    var st1 := CreateRoom(st, p1, r);
    assert Members(st1.rooms, r) == {p1};
    var st2 := JoinRoom(st1, p2, r);
    assert Received(st2.inbox, p1) == Received(st.inbox, p1) + [RoomCreated(r)] + [InitiateCall(r)];
  }

  /** In a full room {p1, p2}, p1 alone in its personal room: a third
      connection is turned away, and an offer from p1 reaches p2 alone. */
  lemma FullThenOffer(st: State, p1: ClientId, p2: ClientId, p3: ClientId, r: RoomId, sdp: Payload)
    requires p1 != p2 && p2 != p3 && p1 != p3
    requires Members(st.rooms, r) == {p1, p2} && Members(st.rooms, p1) == {p1}
    ensures var st' := Relay(JoinRoom(st, p3, r), p1, OfferMsg, r, sdp);
      && st'.rooms == st.rooms
      && Received(st'.inbox, p1) == Received(st.inbox, p1)
      && Received(st'.inbox, p2) == Received(st.inbox, p2) + [Relayed(OfferMsg, sdp)]
      && Received(st'.inbox, p3) == Received(st.inbox, p3) + [Error(RoomFull)]
      && (forall x :: x != p2 && x != p3 ==> Received(st'.inbox, x) == Received(st.inbox, x))
  {
    assert Size(st.rooms, r) == 2;
  }

  /** p1, alone in its personal room, leaves after sharing room r, and only
      r, with p2 and no room with p3: p2 hears of it once, p1 and p3 hear
      nothing, and r keeps p2. */
  lemma LeaveAfterExchange(st: State, p1: ClientId, p2: ClientId, p3: ClientId, r: RoomId)
    requires p1 != p2 && p2 != p3 && p1 != p3
    requires Members(st.rooms, r) == {p1, p2} && Members(st.rooms, p1) == {p1}
    requires SharedRooms(st.rooms, p1, p2) == {r} && SharedRooms(st.rooms, p1, p3) == {}
    ensures var st' := Disconnect(st, p1);
      && Members(st'.rooms, r) == {p2}
      && Received(st'.inbox, p1) == Received(st.inbox, p1)
      && Received(st'.inbox, p2) == Received(st.inbox, p2) + [UserDisconnected(p1)]
      && Received(st'.inbox, p3) == Received(st.inbox, p3)
  {
    var st' := Disconnect(st, p1);
    assert Members(st'.rooms, r) == {p1, p2} - {p1} == {p2};
    DisconnectNotifiesOnce(st, p1, p2, r);
    assert |SharedRooms(st.rooms, p1, p3)| == 0;
    assert Received(st'.inbox, p3) == Received(st.inbox, p3) + Repeat(UserDisconnected(p1), 0);
  }

  /** When only room `r` has changed members, `a` and `x` shared no room
      before, and `r` now holds both, `r` is the one room they share. */
  lemma SharedAfterPairing(rooms: Rooms, rooms': Rooms, a: ClientId, x: ClientId, r: RoomId)
    requires forall q :: q != r ==> Members(rooms', q) == Members(rooms, q)
    requires SharedRooms(rooms, a, x) == {} && r != a
    ensures a in Members(rooms', r) && x in Members(rooms', r) ==> SharedRooms(rooms', a, x) == {r}
    ensures a in Members(rooms', r) && x !in Members(rooms', r) ==> SharedRooms(rooms', a, x) == {}
  {
    forall q | q != r ensures q !in SharedRooms(rooms', a, x) {
      assert q !in SharedRooms(rooms, a, x);
    }
  }

  /** The two-peer exchange, p1 and p2 each alone in their personal rooms:
      p1 creates room r, p2 joins it, p3 is turned away, p1 sends an offer,
      then p1 disconnects. p1 is told the room was created and then to start
      the call; p2 that it joined, then the offer verbatim, then one notice
      that p1 left; p3 that the room is full. */
  lemma TwoPeerExchange(st: State, p1: ClientId, p2: ClientId, p3: ClientId, r: RoomId, sdp: Payload)
    requires p1 != p2 && p2 != p3 && p1 != p3
    requires Size(st.rooms, r) == 0 && Members(st.rooms, p1) == {p1} && Members(st.rooms, p2) == {p2}
    requires SharedRooms(st.rooms, p1, p2) == {} && SharedRooms(st.rooms, p1, p3) == {}
    ensures var st' := Disconnect(Relay(JoinRoom(JoinRoom(CreateRoom(st, p1, r), p2, r), p3, r), p1, OfferMsg, r, sdp), p1);
      && Received(st'.inbox, p1) == Received(st.inbox, p1) + [RoomCreated(r), InitiateCall(r)]
      && Received(st'.inbox, p2) == Received(st.inbox, p2) + [RoomJoined(r), Relayed(OfferMsg, sdp), UserDisconnected(p1)]
      && Received(st'.inbox, p3) == Received(st.inbox, p3) + [Error(RoomFull)]
      && Members(st'.rooms, r) == {p2}
  {
    assert r != p1 && r != p2;
    CreateThenJoin(st, p1, p2, r);
    var st2 := JoinRoom(CreateRoom(st, p1, r), p2, r);
    assert Members(st2.rooms, p1) == {p1};
    FullThenOffer(st2, p1, p2, p3, r, sdp);
    var st4 := Relay(JoinRoom(st2, p3, r), p1, OfferMsg, r, sdp);
    assert Members(st4.rooms, p1) == {p1};
    SharedAfterPairing(st.rooms, st4.rooms, p1, p2, r);
    SharedAfterPairing(st.rooms, st4.rooms, p1, p3, r);
    LeaveAfterExchange(st4, p1, p2, p3, r);
    AppendThree(Received(st.inbox, p2), RoomJoined(r), Relayed(OfferMsg, sdp), UserDisconnected(p1));
  }

  lemma AppendThree(s: seq<Event>, a: Event, b: Event, c: Event)
    ensures s + [a] + [b] + [c] == s + [a, b, c]
  {
  }
}
