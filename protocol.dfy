/** The wire protocol shared by the relay server and its browser clients.

    Event tags are a closed datatype: each constructor is one tag of the
    action table, carrying exactly the payload fields its emitters send.
    `Event` is what the server emits to clients; `Request` is what a client
    emits to the server. */
module Protocol {

  datatype Option<+T> = None | Some(value: T) {
    function GetOr(default: T): T {
      match this
      case Some(v) => v
      case None => default
    }
  }

  /** Connection ids and room names. Both are strings in the system, and
      socket.io names each connection's own room after its id, so one type
      serves for both; the model only ever compares them for equality. */
  type Id(==, !new)

  /** Transport-assigned connection id. */
  type SocketId = Id

  /** A room name chosen by the users. */
  type RoomId = Id

  /** A cursor position in the shared document. */
  datatype Position = Position(line: int, ch: int)

  /** One entry of the member list the server computes for a room: a member
      that never joined has neither a username nor a member id. */
  datatype ClientInfo = ClientInfo(socketId: SocketId, username: Option<string>, memberId: Option<nat>)

  /** Server -> client. */
  datatype Event =
    | Joined(clients: seq<ClientInfo>, username: string, socketId: SocketId)
    | Disconnected(socketId: SocketId, knownName: Option<string>)
    | CodeChange(code: Option<string>)
    | ChatMessage(username: string, message: string, timestamp: int)
    | TypingStart(username: string)
    | TypingStop(username: string)
    | CursorMove(position: Option<Position>, username: string, socketId: SocketId)
    | UserIdle(socketId: SocketId)
    | UserActive(socketId: SocketId)
    | SyncOutput(output: string)

  /** Client -> server. The room a relayed request is aimed at is the one
      named in its own payload. */
  datatype Request =
    | JoinReq(roomId: RoomId, username: string)
    | CodeChangeReq(roomId: RoomId, code: string)
    | SyncCodeReq(target: SocketId, snapshot: Option<string>)
    | ChatMessageReq(roomId: RoomId, username: string, message: string, timestamp: int)
    | TypingStartReq(roomId: RoomId, username: string)
    | TypingStopReq(roomId: RoomId, username: string)
    | CursorMoveReq(roomId: RoomId, position: Option<Position>, username: string)
    | UserIdleReq(roomId: RoomId)
    | UserActiveReq(roomId: RoomId)
    | SyncOutputReq(roomId: RoomId, output: string)

  /** One message handed to the transport for one connection. */
  datatype Delivery = Delivery(to: SocketId, event: Event)

  /** The events, in order, that a list of deliveries hands to connection `s`. */
  function DeliveriesTo(ds: seq<Delivery>, s: SocketId): seq<Event> {
    if ds == [] then []
    else (if ds[0].to == s then [ds[0].event] else []) + DeliveriesTo(ds[1..], s)
  }

  lemma {:induction false} DeliveriesToAppend(a: seq<Delivery>, b: seq<Delivery>, s: SocketId)
    ensures DeliveriesTo(a + b, s) == DeliveriesTo(a, s) + DeliveriesTo(b, s)
  {
    if a == [] {
      assert a + b == b;
    } else {
      var head := if a[0].to == s then [a[0].event] else [];
      assert (a + b)[0] == a[0];
      assert (a + b)[1..] == a[1..] + b;
      calc {
        DeliveriesTo(a + b, s);
        head + DeliveriesTo(a[1..] + b, s);
        { DeliveriesToAppend(a[1..], b, s); }
        head + (DeliveriesTo(a[1..], s) + DeliveriesTo(b, s));
        (head + DeliveriesTo(a[1..], s)) + DeliveriesTo(b, s);
      }
    }
  }

  ghost predicate NoDup<T>(xs: seq<T>) {
    forall i, j :: 0 <= i < j < |xs| ==> xs[i] != xs[j]
  }

  lemma NoDupTail<T>(xs: seq<T>)
    requires NoDup(xs) && xs != []
    ensures NoDup(xs[1..]) && xs[0] !in xs[1..]
  {
    forall i, j | 0 <= i < j < |xs[1..]| ensures xs[1..][i] != xs[1..][j] {
      assert xs[1..][i] == xs[i + 1] && xs[1..][j] == xs[j + 1];
    }
    forall k | 0 <= k < |xs[1..]| ensures xs[1..][k] != xs[0] {
      assert xs[1..][k] == xs[k + 1];
    }
  }
}
