/**
 * The room table that socket.io's adapter keeps for the server: each room id
 * maps to the set of connections in that room. The handlers read it to size a
 * room and grow it with socket.join; the adapter shrinks it when a connection
 * closes, and a room whose last member leaves is deleted from the table.
 */
module RoomTable {
  import opened Protocol

  type Rooms = map<RoomId, set<ClientId>>

  /** The members of room `r`. A room the table does not hold has none, which
      is how the join handler reads a missing room (as size 0). */
  function Members(rooms: Rooms, r: RoomId): set<ClientId>
  {
    if r in rooms then rooms[r] else {}
  }

  /** The number of connections in room `r`. */
  function Size(rooms: Rooms, r: RoomId): nat
  {
    |Members(rooms, r)|
  }

  /** The adapter never keeps a room without members. */
  ghost predicate Live(rooms: Rooms)
  {
    forall r :: r in rooms ==> rooms[r] != {}
  }

  /** No room holds more than two connections. */
  ghost predicate WithinCapacity(rooms: Rooms)
  {
    forall r :: Size(rooms, r) <= 2
  }

  /** The rooms connection `c` belongs to. */
  function RoomsOf(rooms: Rooms, c: ClientId): (rs: set<RoomId>)
    ensures forall r :: r in rs <==> c in Members(rooms, r)
  {
    set r | r in rooms && c in rooms[r]
  }

  /** socket.join(r): put `c` in room `r`, creating the room when it has no
      members; every other room is left as it was. */
  function Join(rooms: Rooms, r: RoomId, c: ClientId): (rooms': Rooms)
    ensures Members(rooms', r) == Members(rooms, r) + {c}
    ensures forall q :: q != r ==> Members(rooms', q) == Members(rooms, q)
    ensures Live(rooms) ==> Live(rooms')
  {
    rooms[r := Members(rooms, r) + {c}]
  }

  /** The adapter's clean-up when `c` closes: `c` is taken out of every room
      it is in, and a room that this leaves without members is deleted. */
  function Leave(rooms: Rooms, c: ClientId): (rooms': Rooms)
    ensures forall r :: Members(rooms', r) == Members(rooms, r) - {c}
    ensures forall r :: r in rooms' <==> r in rooms && rooms[r] != {c}
    ensures Live(rooms) ==> Live(rooms')
  {
    map r | r in rooms && rooms[r] != {c} :: rooms[r] - {c}
  }

  /** A table that has exactly the rooms of `rooms` other than those whose
      only member is `c`, each with `c` taken out, is `Leave(rooms, c)`. */
  lemma LeaveCharacterized(rooms: Rooms, rooms': Rooms, c: ClientId)
    requires forall q :: q in rooms' <==> q in rooms && rooms[q] != {c}
    requires forall q :: q in rooms' ==> rooms'[q] == rooms[q] - {c}
    ensures rooms' == Leave(rooms, c)
  {
    var gone := Leave(rooms, c);
    assert rooms'.Keys == gone.Keys;
    forall q | q in rooms' ensures rooms'[q] == gone[q] {
      assert Members(rooms', q) == Members(gone, q);
    }
  }

  /** After the clean-up for `c`, `c` is in no room. */
  lemma LeaveRoomsOf(rooms: Rooms, c: ClientId)
    ensures RoomsOf(Leave(rooms, c), c) == {}
  {
    var gone := Leave(rooms, c);
    forall r ensures r !in RoomsOf(gone, c) {
      assert c !in Members(gone, r);
    }
  }

  /** Joining never takes a room of size 1 past two members. */
  lemma JoinSingleWithinTwo(rooms: Rooms, r: RoomId, c: ClientId)
    requires Size(rooms, r) == 1
    ensures Size(Join(rooms, r, c), r) <= 2
    ensures c !in Members(rooms, r) ==> Size(Join(rooms, r, c), r) == 2
  {
    var m := Members(rooms, r);
    var a :| a in m;
    assert m == {a} by {
      assert |m - {a}| == 0;
    }
    if c == a {
      assert m + {c} == {a};
    } else {
      assert m + {c} == {a, c};
    }
  }

  /** Joining a room that has no members keeps every room within two. */
  lemma JoinEmptyWithinCapacity(rooms: Rooms, r: RoomId, c: ClientId)
    requires WithinCapacity(rooms) && Size(rooms, r) == 0
    ensures WithinCapacity(Join(rooms, r, c))
  {
    var rooms' := Join(rooms, r, c);
    forall q ensures Size(rooms', q) <= 2 {
      if q == r {
        assert Members(rooms', r) == {c};
      } else {
        assert Size(rooms, q) <= 2;
        assert Members(rooms', q) == Members(rooms, q);
      }
    }
  }

  /** Joining a room of size 1 keeps every room within two. */
  lemma JoinSingleWithinCapacity(rooms: Rooms, r: RoomId, c: ClientId)
    requires WithinCapacity(rooms) && Size(rooms, r) == 1
    ensures WithinCapacity(Join(rooms, r, c))
  {
    var rooms' := Join(rooms, r, c);
    forall q ensures Size(rooms', q) <= 2 {
      if q == r {
        JoinSingleWithinTwo(rooms, r, c);
      } else {
        assert Size(rooms, q) <= 2;
        assert Members(rooms', q) == Members(rooms, q);
      }
    }
  }

  /** Taking a connection out of every room keeps every room within two. */
  lemma LeaveWithinCapacity(rooms: Rooms, c: ClientId)
    requires WithinCapacity(rooms)
    ensures WithinCapacity(Leave(rooms, c))
  {
    var rooms' := Leave(rooms, c);
    forall q ensures Size(rooms', q) <= 2 {
      assert Size(rooms, q) <= 2;
      assert Members(rooms', q) <= Members(rooms, q);
      SubsetSize(Members(rooms', q), Members(rooms, q));
    }
  }

  lemma {:induction false} SubsetSize(a: set<ClientId>, b: set<ClientId>)
    requires a <= b
    ensures |a| <= |b|
    decreases |b|
  {
    if a != {} {
      var x :| x in a;
      SubsetSize(a - {x}, b - {x});
    }
  }
}
