/**
 * The signalling protocol: connection and room identifiers, and the events the
 * server sends to a connection. Socket ids and room ids live in one namespace:
 * every connection is also the sole member of a room named after its own id.
 */
module Protocol {

  /** A connection's runtime identity (the socket id). */
  type ClientId = string

  /** A room identifier. A socket id is also a room identifier (its personal room). */
  type RoomId = string

  /** A negotiation payload (session description or connectivity candidate),
      as received. The server never looks inside it. */
  type Payload = string

  /** The three negotiation messages the server relays. */
  datatype Kind = OfferMsg | AnswerMsg | IceCandidateMsg

  /** Events the server emits to a connection, each with its argument. */
  datatype Event =
    | RoomCreated(room: RoomId)
    | RoomJoined(room: RoomId)
    | InitiateCall(room: RoomId)
    | Error(message: string)
    | Relayed(kind: Kind, payload: Payload)
    | UserDisconnected(client: ClientId)

  const RoomMissing: string := "Room does not exist"
  const RoomFull: string := "Room is full"

  /** The event name of a relayed message: the same name it arrived under. */
  function KindName(k: Kind): string
  {
    match k
    case OfferMsg => "offer"
    case AnswerMsg => "answer"
    case IceCandidateMsg => "ice-candidate"
  }

  /** The name an event carries on the wire. */
  function Name(e: Event): string
  {
    match e
    case RoomCreated(_) => "room-created"
    case RoomJoined(_) => "room-joined"
    case InitiateCall(_) => "initiate_call"
    case Error(_) => "error"
    case Relayed(k, _) => KindName(k)
    case UserDisconnected(_) => "user-disconnected"
  }

  /** The argument an event carries on the wire. */
  function Argument(e: Event): string
  {
    match e
    case RoomCreated(r) => r
    case RoomJoined(r) => r
    case InitiateCall(r) => r
    case Error(m) => m
    case Relayed(_, p) => p
    case UserDisconnected(c) => c
  }

  /** Name and argument together identify an event: nothing is lost on the wire. */
  lemma WireFormInjective(a: Event, b: Event)
    requires Name(a) == Name(b) && Argument(a) == Argument(b)
    ensures a == b
  {
  }
}
