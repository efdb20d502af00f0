/**
 * What the server has sent so far, kept per connection: the ordered sequence
 * of events each connection has received. socket.io delivers in order on one
 * connection and promises no order across connections, so nothing more is kept.
 */
module Inbox {
  import opened Protocol

  type Inboxes = map<ClientId, seq<Event>>

  /** The events connection `c` has received, oldest first. */
  function Received(box: Inboxes, c: ClientId): seq<Event>
  {
    if c in box then box[c] else []
  }

  /** socket.emit: `e` goes to connection `c` alone. */
  function Send(box: Inboxes, c: ClientId, e: Event): (box': Inboxes)
    ensures Received(box', c) == Received(box, c) + [e]
    ensures forall x :: x != c ==> Received(box', x) == Received(box, x)
  {
    box[c := Received(box, c) + [e]]
  }

  /** socket.to(room).emit: `e` goes once to each connection in `to` and to
      no one else. */
  function Deliver(box: Inboxes, to: set<ClientId>, e: Event): (box': Inboxes)
    ensures forall x :: x in to ==> Received(box', x) == Received(box, x) + [e]
    ensures forall x :: x !in to ==> Received(box', x) == Received(box, x)
    ensures box'.Keys == box.Keys + to
  {
    map x | x in box.Keys + to :: if x in to then Received(box, x) + [e] else Received(box, x)
  }

  /** Delivering to one more recipient is sending it the event: the step a
      broadcast loop takes. */
  lemma DeliverStep(box: Inboxes, done: set<ClientId>, x: ClientId, e: Event)
    requires x !in done
    ensures Send(Deliver(box, done, e), x, e) == Deliver(box, done + {x}, e)
  {
    var lhs := Send(Deliver(box, done, e), x, e);
    var rhs := Deliver(box, done + {x}, e);
    assert lhs.Keys == rhs.Keys;
    forall y | y in lhs.Keys ensures lhs[y] == rhs[y] {
      assert Received(lhs, y) == Received(rhs, y);
    }
  }

  /** Delivering to no one changes nothing. */
  lemma DeliverNone(box: Inboxes, e: Event)
    ensures Deliver(box, {}, e) == box
  {
    var d := Deliver(box, {}, e);
    assert d.Keys == box.Keys;
    forall y | y in box.Keys ensures d[y] == box[y] {
      assert Received(d, y) == Received(box, y);
    }
  }
}
