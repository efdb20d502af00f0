/**
 * The server object: the room table the socket.io adapter keeps and what has
 * been sent to each connection, updated in place by one method per inbound
 * event. Each method is proved to have exactly the effect of the matching
 * transition in module Handlers.
 */
module SignalServer {
  import opened Protocol
  import opened RoomTable
  import opened Inbox
  import Handlers

  class Server {
    var rooms: Rooms
    var inbox: Inboxes

    /** The adapter keeps no room without members. */
    ghost predicate Valid()
      reads this
    {
      Live(rooms)
    }

    /** The server's state as a value. */
    ghost function Snapshot(): Handlers.State
      reads this
    {
      Handlers.State(rooms, inbox)
    }

    constructor ()
      ensures Valid() && Snapshot() == Handlers.Initial
    {
      rooms := map[];
      inbox := map[];
    }

    /** socket.emit(e) on connection `c`. */
    method Emit(c: ClientId, e: Event)
      modifies this
      ensures rooms == old(rooms) && inbox == Send(old(inbox), c, e)
    {
      inbox := inbox[c := Received(inbox, c) + [e]];
    }

    /** socket.to(r).emit(e) from `sender`: one copy to each member of room
        `r` outside the room named by the sender's id (socket.io 4's rule),
        one recipient at a time. */
    method EmitToRoom(sender: ClientId, r: RoomId, e: Event)
      modifies this
      ensures rooms == old(rooms)
      ensures inbox == Deliver(old(inbox), Members(old(rooms), r) - Members(old(rooms), sender), e)
    {
      var todo := Members(rooms, r) - Members(rooms, sender);
      ghost var done: set<ClientId> := {};
      DeliverNone(inbox, e);
      while todo != {}
        invariant done + todo == Members(old(rooms), r) - Members(old(rooms), sender) && done !! todo
        invariant rooms == old(rooms)
        invariant inbox == Deliver(old(inbox), done, e)
        decreases todo
      {
        var x :| x in todo;
        DeliverStep(old(inbox), done, x, e);
        inbox := inbox[x := Received(inbox, x) + [e]];
        done, todo := done + {x}, todo - {x};
      }
    }

    /** A connection opens: socket.io puts it in its personal room. */
    method Connect(c: ClientId)
      requires Valid()
      modifies this
      ensures Valid() && Snapshot() == Handlers.Connect(old(Snapshot()), c)
    {
      rooms := rooms[c := Members(rooms, c) + {c}];
    }

    /** create-room, with `r` the id the server generated. */
    method CreateRoom(c: ClientId, r: RoomId)
      requires Valid()
      modifies this
      ensures Valid() && Snapshot() == Handlers.CreateRoom(old(Snapshot()), c, r)
    {
      rooms := rooms[r := Members(rooms, r) + {c}];
      Emit(c, RoomCreated(r));
    }

    /** join-room(r). */
    method JoinRoom(c: ClientId, r: RoomId)
      requires Valid()
      modifies this
      ensures Valid() && Snapshot() == Handlers.JoinRoom(old(Snapshot()), c, r)
    {
      var numberOfClients := |Members(rooms, r)|;
      if numberOfClients == 0 {
        Emit(c, Error(RoomMissing));
      } else if numberOfClients == 1 {
        rooms := rooms[r := Members(rooms, r) + {c}];
        Emit(c, RoomJoined(r));
        EmitToRoom(c, r, InitiateCall(r));
      } else {
        Emit(c, Error(RoomFull));
      }
    }

    /** offer, answer or ice-candidate from `c`, naming room `r`. */
    method Relay(c: ClientId, k: Kind, r: RoomId, p: Payload)
      requires Valid()
      modifies this
      ensures Valid() && Snapshot() == Handlers.Relay(old(Snapshot()), c, k, r, p)
    {
      EmitToRoom(c, r, Relayed(k, p));
    }

    /** disconnect of `s`: notify the other members of each room of `s`
        except its personal room, then take `s` out of every room. */
    method Disconnect(s: ClientId)
      requires Valid()
      modifies this
      ensures Valid() && Snapshot() == Handlers.Disconnect(old(Snapshot()), s)
    {
      NotifyRooms(s);
      LeaveAll(s);
    }

    /** socket.rooms.forEach on disconnect: every room of `s` other than its
        personal room sends user-disconnected(s) to its members outside that
        personal room. */
    method NotifyRooms(s: ClientId)
      modifies this
      ensures rooms == old(rooms)
      ensures inbox == Handlers.Notify(old(inbox), rooms, RoomsOf(rooms, s) - {s}, s)
    {
      var todo := RoomsOf(rooms, s) - {s};
      ghost var done: set<RoomId> := {};
      Handlers.NotifyNone(inbox, rooms, s);
      while todo != {}
        invariant done + todo == RoomsOf(rooms, s) - {s} && done !! todo
        invariant rooms == old(rooms)
        invariant inbox == Handlers.Notify(old(inbox), rooms, done, s)
        decreases todo
      {
        var r :| r in todo;
        Handlers.NotifyStep(old(inbox), rooms, done, r, s);
        EmitToRoom(s, r, UserDisconnected(s));
        done, todo := done + {r}, todo - {r};
      }
    }

    /** The adapter's clean-up for a closed connection: remove `s` from each
        of its rooms in turn and delete a room once it is empty. */
    method LeaveAll(s: ClientId)
      requires Valid()
      modifies this
      ensures Valid()
      ensures inbox == old(inbox) && rooms == Leave(old(rooms), s)
    {
      var todo := RoomsOf(rooms, s);
      ghost var done: set<RoomId> := {};
      while todo != {}
        invariant done + todo == RoomsOf(old(rooms), s) && done !! todo
        invariant inbox == old(inbox)
        invariant forall q :: q in todo ==> q in rooms && rooms[q] == old(rooms)[q]
        invariant forall q :: q in rooms <==> q in old(rooms) && (q in done ==> old(rooms)[q] != {s})
        invariant forall q :: q in rooms ==> rooms[q] == if q in done then old(rooms)[q] - {s} else old(rooms)[q]
        decreases todo
      {
        var r :| r in todo;
        var left := rooms[r] - {s};
        if left == {} {
          rooms := rooms - {r};
        } else {
          rooms := rooms[r := left];
        }
        done, todo := done + {r}, todo - {r};
      }
      forall q | q in old(rooms) && q !in done ensures s !in old(rooms)[q] {
        assert q !in RoomsOf(old(rooms), s);
      }
      LeaveCharacterized(old(rooms), rooms, s);
    }
  }
}
