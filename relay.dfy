/** The socket.io room/presence relay of backend/index.js.

    Server state: the registry (socket id -> username and member id), the
    per-room member counters, and socket.io's adapter membership in both
    directions (room -> members, in join order; socket -> its rooms, in join
    order, starting with the socket's own room). Every handler is one atomic
    step that appends what it emits to `outbox`.

    Emission primitives, as socket.io resolves them:
    - `io.to(x).emit(e)` reaches every member of the room named `x`
      (`ToRoom`); for a socket id `x` that is the socket's own room, so a
      single connection.
    - `socket.in(r).emit(e)` reaches every member of `r` except the members
      of the sender's own room (`ToOthers`), which is the sender alone. */
module Relay {
  import opened Protocol

  datatype Entry = Entry(username: string, memberId: nat)

  type Registry = map<SocketId, Entry>
  type Rooms = map<RoomId, seq<SocketId>>
  type SocketRooms = map<SocketId, seq<RoomId>>

  // ---------------------------------------------------------------------
  // Room membership

  /** The members of room `r`, in the order they joined; an unknown room has none. */
  function Members(rooms: Rooms, r: RoomId): seq<SocketId> {
    if r in rooms then rooms[r] else []
  }

  /** `xs` without `s`, the rest in order. */
  function Without(xs: seq<SocketId>, s: SocketId): (ys: seq<SocketId>)
    ensures forall x :: x in ys <==> x in xs && x != s
    ensures |ys| <= |xs|
  {
    if xs == [] then []
    else (if xs[0] == s then [] else [xs[0]]) + Without(xs[1..], s)
  }

  lemma {:induction false} WithoutNoDup(xs: seq<SocketId>, s: SocketId)
    requires NoDup(xs)
    ensures NoDup(Without(xs, s))
  {
    if xs != [] {
      NoDupTail(xs);
      WithoutNoDup(xs[1..], s);
    }
  }

  /** socket.io's leave-all after the disconnecting handler: `s` leaves every
      room, and a room left without members is dropped. */
  function LeaveAll(rooms: Rooms, s: SocketId): (rooms': Rooms)
    ensures forall r :: r in rooms' ==> r in rooms && rooms'[r] == Without(rooms[r], s)
    ensures forall r :: r in rooms && Without(rooms[r], s) != [] ==> r in rooms'
    ensures forall r :: r in rooms' ==> rooms'[r] != []
  {
    map r | r in rooms && Without(rooms[r], s) != [] :: Without(rooms[r], s)
  }

  /** Every room lists distinct members. */
  ghost predicate RoomsDistinct(rooms: Rooms) {
    forall r :: r in rooms ==> NoDup(rooms[r])
  }

  /** Every connection lists distinct rooms, its own among them. */
  ghost predicate SocketsWellFormed(joined: SocketRooms) {
    forall s :: s in joined ==> NoDup(joined[s]) && s in joined[s]
  }

  /** Whoever a room lists is a connection that lists the room. */
  ghost predicate MembersListed(rooms: Rooms, joined: SocketRooms) {
    forall r, s :: r in rooms && s in rooms[r] ==> s in joined && r in joined[s]
  }

  /** Whatever room a connection lists lists the connection. */
  ghost predicate RoomsListed(rooms: Rooms, joined: SocketRooms) {
    forall s, r :: s in joined && r in joined[s] ==> r in rooms && s in rooms[r]
  }

  /** The registry only holds connected sockets. */
  ghost predicate RegistryConnected(registry: Registry, joined: SocketRooms) {
    forall s :: s in registry ==> s in joined
  }

  /** Whoever is in a room other than its own has registered. */
  ghost predicate MembersRegistered(rooms: Rooms, registry: Registry) {
    forall r, s :: r in rooms && s in rooms[r] && s != r ==> s in registry
  }

  /** Adapter membership as socket.io keeps it, both directions agreeing,
      together with the registry. */
  ghost predicate Consistent(rooms: Rooms, joined: SocketRooms, registry: Registry) {
    && RoomsDistinct(rooms)
    && SocketsWellFormed(joined)
    && MembersListed(rooms, joined)
    && RoomsListed(rooms, joined)
    && RegistryConnected(registry, joined)
    && MembersRegistered(rooms, registry)
  }

  /** Each connection's own room holds that connection only. This is what
      makes `io.to(socketId)` point-to-point; it fails only when a client
      joins a room whose name is another live connection's id, which the
      handlers do not prevent. */
  ghost predicate SelfRoomsPrivate(rooms: Rooms, joined: SocketRooms) {
    forall s :: s in joined ==> Members(rooms, s) == [s]
  }

  // ---------------------------------------------------------------------
  // The member list (getAllConnectedClients)

  /** One member's entry: a socket with no registry entry yields no username
      and no member id rather than an error. */
  function Describe(registry: Registry, s: SocketId): ClientInfo {
    if s in registry then ClientInfo(s, Some(registry[s].username), Some(registry[s].memberId))
    else ClientInfo(s, None, None)
  }

  function RosterOf(ids: seq<SocketId>, registry: Registry): (cs: seq<ClientInfo>)
    ensures |cs| == |ids|
    ensures forall i :: 0 <= i < |cs| ==> cs[i].socketId == ids[i]
    ensures forall i :: 0 <= i < |cs| ==> (cs[i].username.Some? <==> ids[i] in registry)
    ensures forall i :: 0 <= i < |cs| && ids[i] in registry ==>
              cs[i].username == Some(registry[ids[i]].username) && cs[i].memberId == Some(registry[ids[i]].memberId)
    ensures forall i :: 0 <= i < |cs| && ids[i] !in registry ==> cs[i].memberId.None?
  {
    if ids == [] then [] else [Describe(registry, ids[0])] + RosterOf(ids[1..], registry)
  }

  /** getAllConnectedClients(roomId): one entry per member, in membership order. */
  function Roster(rooms: Rooms, registry: Registry, r: RoomId): (cs: seq<ClientInfo>)
    ensures |cs| == |Members(rooms, r)|
    ensures r !in rooms ==> cs == []
  {
    RosterOf(Members(rooms, r), registry)
  }

  // ---------------------------------------------------------------------
  // Fan-out

  /** One delivery of `ev` to each of `members` that is not in `except`, in
      membership order. */
  function FanOut(members: seq<SocketId>, except: seq<SocketId>, ev: Event): (ds: seq<Delivery>)
  {
    if members == [] then []
    else (if members[0] in except then [] else [Delivery(members[0], ev)]) + FanOut(members[1..], except, ev)
  }

  /** `io.to(x).emit(ev)` */
  function ToRoom(rooms: Rooms, x: RoomId, ev: Event): seq<Delivery> {
    FanOut(Members(rooms, x), [], ev)
  }

  /** `socket.in(r).emit(ev)` from `sender` */
  function ToOthers(rooms: Rooms, sender: SocketId, r: RoomId, ev: Event): seq<Delivery> {
    FanOut(Members(rooms, r), Members(rooms, sender), ev)
  }

  /** A fan-out hands `ev` exactly once to each member outside `except`, and
      nothing to anybody else. */
  lemma {:induction false} FanOutTo(members: seq<SocketId>, except: seq<SocketId>, ev: Event, t: SocketId)
    requires NoDup(members)
    ensures DeliveriesTo(FanOut(members, except, ev), t) == if t in members && t !in except then [ev] else []
  {
    if members != [] {
      var head := if members[0] in except then [] else [Delivery(members[0], ev)];
      DeliveriesToAppend(head, FanOut(members[1..], except, ev), t);
      NoDupTail(members);
      FanOutTo(members[1..], except, ev, t);
      assert t in members <==> t == members[0] || t in members[1..] by {
        assert members == [members[0]] + members[1..];
      }
    }
  }

  /** A broadcast to a room (chat messages, shared output) reaches every
      member of the room named in the payload exactly once, the sender
      included when it is a member, and nobody else. */
  lemma BroadcastToAllOnce(rooms: Rooms, joined: SocketRooms, registry: Registry, r: RoomId, ev: Event, t: SocketId)
    requires Consistent(rooms, joined, registry)
    ensures DeliveriesTo(ToRoom(rooms, r, ev), t) == if t in Members(rooms, r) then [ev] else []
  {
    FanOutTo(Members(rooms, r), [], ev, t);
  }

  /** A relay to the others in a room reaches every member of the room named
      in the payload exactly once, except the sender, which it never reaches;
      whether the sender is a member of that room plays no part. */
  lemma BroadcastToOthersOnce(rooms: Rooms, joined: SocketRooms, registry: Registry, sender: SocketId, r: RoomId, ev: Event, t: SocketId)
    requires Consistent(rooms, joined, registry) && SelfRoomsPrivate(rooms, joined)
    requires sender in joined
    ensures DeliveriesTo(ToOthers(rooms, sender, r, ev), t) == if t in Members(rooms, r) && t != sender then [ev] else []
  {
    FanOutTo(Members(rooms, r), Members(rooms, sender), ev, t);
  }

  /** `io.to(target)` for a live connection reaches that connection alone,
      whatever the rooms hold; for an id with no room it reaches nobody. */
  lemma PointToPoint(rooms: Rooms, joined: SocketRooms, target: SocketId, ev: Event)
    requires SelfRoomsPrivate(rooms, joined)
    ensures target in joined ==> ToRoom(rooms, target, ev) == [Delivery(target, ev)]
    ensures target !in rooms ==> ToRoom(rooms, target, ev) == []
  {
    if target in joined {
      assert Members(rooms, target) == [target];
      assert [target][1..] == [];
      assert ToRoom(rooms, target, ev) == [Delivery(target, ev)] + FanOut([], [], ev);
    }
  }

  /** The JOIN handler's loop: for each listed client, `io.to(client.socketId)`. */
  function JoinedFanOut(rooms: Rooms, clients: seq<ClientInfo>, ev: Event): seq<Delivery> {
    if clients == [] then []
    else JoinedFanOut(rooms, clients[..|clients| - 1], ev) + ToRoom(rooms, clients[|clients| - 1].socketId, ev)
  }

  /** One delivery of `ev` to each listed client, in list order. */
  function Direct(clients: seq<ClientInfo>, ev: Event): seq<Delivery> {
    if clients == [] then []
    else Direct(clients[..|clients| - 1], ev) + [Delivery(clients[|clients| - 1].socketId, ev)]
  }

  /** With private own rooms, the JOIN loop's `io.to(socketId)` calls are
      point-to-point deliveries to the listed clients. */
  lemma {:induction false} JoinedFanOutDirect(rooms: Rooms, joined: SocketRooms, clients: seq<ClientInfo>, ev: Event)
    requires SelfRoomsPrivate(rooms, joined)
    requires forall i :: 0 <= i < |clients| ==> clients[i].socketId in joined
    ensures JoinedFanOut(rooms, clients, ev) == Direct(clients, ev)
  {
    if clients != [] {
      var n := |clients| - 1;
      var last := clients[n].socketId;
      assert forall i :: 0 <= i < n ==> clients[..n][i].socketId in joined;
      JoinedFanOutDirect(rooms, joined, clients[..n], ev);
      assert ToRoom(rooms, last, ev) == [Delivery(last, ev)] by {
        PointToPoint(rooms, joined, last, ev);
      }
    }
  }

  /** Direct deliveries to distinct clients reach each of them once. */
  lemma {:induction false} DirectTo(clients: seq<ClientInfo>, ids: seq<SocketId>, ev: Event, t: SocketId)
    requires |clients| == |ids| && NoDup(ids)
    requires forall i :: 0 <= i < |ids| ==> clients[i].socketId == ids[i]
    ensures DeliveriesTo(Direct(clients, ev), t) == if t in ids then [ev] else []
  {
    if clients != [] {
      var n := |clients| - 1;
      var last := ids[n];
      DeliveriesToAppend(Direct(clients[..n], ev), [Delivery(last, ev)], t);
      assert NoDup(ids[..n]);
      DirectTo(clients[..n], ids[..n], ev, t);
      assert ids == ids[..n] + [last];
      assert last !in ids[..n] by {
        forall k | 0 <= k < n ensures ids[..n][k] != last { assert ids[k] != ids[n]; }
      }
      assert DeliveriesTo([Delivery(last, ev)], t) == (if last == t then [ev] else []) + DeliveriesTo([], t);
    }
  }

  /** After a JOIN to `r`, every connection then in `r`, the joiner
      included, receives exactly one JOINED, and no other connection does. */
  lemma JoinedReachesEachMemberOnce(rooms: Rooms, joined: SocketRooms, registry: Registry, r: RoomId, ev: Event, t: SocketId)
    requires Consistent(rooms, joined, registry) && SelfRoomsPrivate(rooms, joined)
    ensures DeliveriesTo(JoinedFanOut(rooms, Roster(rooms, registry, r), ev), t) == if t in Members(rooms, r) then [ev] else []
  {
    var clients, ids := Roster(rooms, registry, r), Members(rooms, r);
    forall i | 0 <= i < |clients| ensures clients[i].socketId in joined {
      assert clients[i].socketId == ids[i] && ids[i] in rooms[r];
    }
    JoinedFanOutDirect(rooms, joined, clients, ev);
    assert NoDup(ids);
    DirectTo(clients, ids, ev, t);
  }

  /** The disconnecting handler's loop: for each room of the leaving socket,
      `socket.in(room)`. */
  function DisconnectFanOut(rooms: Rooms, s: SocketId, rs: seq<RoomId>, ev: Event): seq<Delivery> {
    if rs == [] then []
    else DisconnectFanOut(rooms, s, rs[..|rs| - 1], ev) + ToOthers(rooms, s, rs[|rs| - 1], ev)
  }

  /** How many of the rooms `rs` have `t` as a member. */
  function RoomsWith(rooms: Rooms, rs: seq<RoomId>, t: SocketId): nat {
    if rs == [] then 0
    else RoomsWith(rooms, rs[..|rs| - 1], t) + (if t in Members(rooms, rs[|rs| - 1]) then 1 else 0)
  }

  function Copies(ev: Event, n: nat): (es: seq<Event>)
    ensures |es| == n && forall e :: e in es ==> e == ev
  {
    if n == 0 then [] else Copies(ev, n - 1) + [ev]
  }

  /** On disconnect, one DISCONNECTED goes to the other members of each room
      of the leaving socket: a connection gets one copy per room it shares
      with the leaver, and the leaver gets none. */
  lemma {:induction false} DisconnectFanOutTo(rooms: Rooms, joined: SocketRooms, registry: Registry, s: SocketId, rs: seq<RoomId>, ev: Event, t: SocketId)
    requires Consistent(rooms, joined, registry) && SelfRoomsPrivate(rooms, joined)
    requires s in joined
    ensures DeliveriesTo(DisconnectFanOut(rooms, s, rs, ev), t) == Copies(ev, if t == s then 0 else RoomsWith(rooms, rs, t))
  {
    if rs != [] {
      var n := |rs| - 1;
      DeliveriesToAppend(DisconnectFanOut(rooms, s, rs[..n], ev), ToOthers(rooms, s, rs[n], ev), t);
      DisconnectFanOutTo(rooms, joined, registry, s, rs[..n], ev, t);
      BroadcastToOthersOnce(rooms, joined, registry, s, rs[n], ev, t);
    }
  }

  /** socket.io's clean-up after the disconnecting handler, with the
      registry entry gone, keeps the membership consistent. */
  lemma LeaveAllConsistent(rooms: Rooms, joined: SocketRooms, registry: Registry, s: SocketId)
    requires Consistent(rooms, joined, registry)
    ensures Consistent(LeaveAll(rooms, s), joined - {s}, registry - {s})
  {
    LeaveAllNoDup(rooms, s);
    LeaveAllMembersListed(rooms, joined, s);
    LeaveAllRoomsListed(rooms, joined, s);
    LeaveAllMembersRegistered(rooms, registry, s);
  }

  lemma LeaveAllNoDup(rooms: Rooms, s: SocketId)
    requires RoomsDistinct(rooms)
    ensures RoomsDistinct(LeaveAll(rooms, s))
  {
    forall r | r in LeaveAll(rooms, s) ensures NoDup(LeaveAll(rooms, s)[r]) {
      WithoutNoDup(rooms[r], s);
    }
  }

  lemma LeaveAllMembersListed(rooms: Rooms, joined: SocketRooms, s: SocketId)
    requires MembersListed(rooms, joined)
    ensures MembersListed(LeaveAll(rooms, s), joined - {s})
  {
    var rooms' := LeaveAll(rooms, s);
    forall r, x | r in rooms' && x in rooms'[r] ensures x in joined - {s} && r in (joined - {s})[x] {
      assert rooms'[r] == Without(rooms[r], s);
      assert x in rooms[r] && x != s;
    }
  }

  lemma LeaveAllRoomsListed(rooms: Rooms, joined: SocketRooms, s: SocketId)
    requires RoomsListed(rooms, joined)
    ensures RoomsListed(LeaveAll(rooms, s), joined - {s})
  {
    forall x, r | x in joined - {s} && r in (joined - {s})[x] ensures r in LeaveAll(rooms, s) && x in LeaveAll(rooms, s)[r] {
      assert x in Without(rooms[r], s);
    }
  }

  lemma LeaveAllMembersRegistered(rooms: Rooms, registry: Registry, s: SocketId)
    requires MembersRegistered(rooms, registry)
    ensures MembersRegistered(LeaveAll(rooms, s), registry - {s})
  {
    forall r, x | r in LeaveAll(rooms, s) && x in LeaveAll(rooms, s)[r] && x != r ensures x in registry - {s} {
      assert x in rooms[r] && x != s;
    }
  }

  /** ... and keeps every remaining connection's own room private. */
  lemma LeaveAllPrivate(rooms: Rooms, joined: SocketRooms, s: SocketId)
    ensures SelfRoomsPrivate(rooms, joined) ==> SelfRoomsPrivate(LeaveAll(rooms, s), joined - {s})
  {
    forall x | SelfRoomsPrivate(rooms, joined) && x in joined - {s} ensures Members(LeaveAll(rooms, s), x) == [x] {
      assert Members(rooms, x) == [x];
      assert Without([x], s) == [x] + Without([], s);
    }
  }

  /** `socket.join(r)`: `s` is appended to the room unless already there. */
  function AddMember(rooms: Rooms, r: RoomId, s: SocketId): (rooms': Rooms)
    ensures s in Members(rooms', r)
    ensures forall q :: q != r ==> Members(rooms', q) == Members(rooms, q)
    ensures s !in Members(rooms, r) ==> Members(rooms', r) == Members(rooms, r) + [s]
    ensures s in Members(rooms, r) ==> rooms' == rooms
  {
    if s in Members(rooms, r) then rooms else rooms[r := Members(rooms, r) + [s]]
  }

  /** The other direction of `socket.join(r)`: `r` is appended to the rooms of `s`. */
  function AddRoom(joined: SocketRooms, rooms: Rooms, s: SocketId, r: RoomId): (joined': SocketRooms)
    requires s in joined
    ensures s in joined' && joined'.Keys == joined.Keys
    ensures forall x :: x in joined && x != s ==> joined'[x] == joined[x]
  {
    if s in Members(rooms, r) then joined else joined[s := joined[s] + [r]]
  }

  /** A new connection in its own room keeps the membership consistent. */
  lemma ConnectConsistent(rooms: Rooms, joined: SocketRooms, registry: Registry, s: SocketId)
    requires Consistent(rooms, joined, registry) && s !in joined
    ensures Consistent(AddMember(rooms, s, s), joined[s := [s]], registry)
  {
    assert s !in Members(rooms, s);
    assert NoDup(Members(rooms, s) + [s]);
    assert RoomsDistinct(AddMember(rooms, s, s));
    ConnectMembersListed(rooms, joined, s);
    ConnectRoomsListed(rooms, joined, s);
    ConnectMembersRegistered(rooms, registry, s);
  }

  lemma ConnectMembersListed(rooms: Rooms, joined: SocketRooms, s: SocketId)
    requires MembersListed(rooms, joined) && s !in joined
    ensures MembersListed(AddMember(rooms, s, s), joined[s := [s]])
  {
    var rooms', joined' := AddMember(rooms, s, s), joined[s := [s]];
    forall q, x | q in rooms' && x in rooms'[q]
      ensures x in joined' && q in joined'[x]
    {
      if q != s || x != s {
        assert q in rooms && x in rooms[q];
      }
    }
  }

  lemma ConnectRoomsListed(rooms: Rooms, joined: SocketRooms, s: SocketId)
    requires RoomsListed(rooms, joined) && s !in joined
    ensures RoomsListed(AddMember(rooms, s, s), joined[s := [s]])
  {
    var rooms', joined' := AddMember(rooms, s, s), joined[s := [s]];
    forall x, q | x in joined' && q in joined'[x]
      ensures q in rooms' && x in rooms'[q]
    {
      if x != s {
        assert q in rooms && x in rooms[q];
      }
    }
  }

  lemma ConnectMembersRegistered(rooms: Rooms, registry: Registry, s: SocketId)
    requires MembersRegistered(rooms, registry)
    ensures MembersRegistered(AddMember(rooms, s, s), registry)
  {
    var rooms' := AddMember(rooms, s, s);
    forall q, x | q in rooms' && x in rooms'[q] && x != q
      ensures x in registry
    {
      if q != s {
        assert q in rooms && x in rooms[q];
      } else {
        assert x in Members(rooms, s);
      }
    }
  }

  /** A JOIN keeps the membership consistent: the joiner registers and its
      room lists and the room's member list grow together. */
  lemma JoinConsistent(rooms: Rooms, joined: SocketRooms, registry: Registry, s: SocketId, r: RoomId, e: Entry)
    requires Consistent(rooms, joined, registry) && s in joined
    ensures Consistent(AddMember(rooms, r, s), AddRoom(joined, rooms, s, r), registry[s := e])
  {
    JoinNoDup(rooms, joined, registry, s, r);
    JoinMembersListed(rooms, joined, s, r);
    JoinRoomsListed(rooms, joined, s, r);
    JoinMembersRegistered(rooms, registry, s, r, e);
  }

  lemma JoinNoDup(rooms: Rooms, joined: SocketRooms, registry: Registry, s: SocketId, r: RoomId)
    requires Consistent(rooms, joined, registry) && s in joined
    ensures RoomsDistinct(AddMember(rooms, r, s))
    ensures SocketsWellFormed(AddRoom(joined, rooms, s, r))
  {
    if s !in Members(rooms, r) {
      assert r !in joined[s];
      assert NoDup(Members(rooms, r) + [s]);
      assert NoDup(joined[s] + [r]);
    }
  }

  lemma JoinMembersListed(rooms: Rooms, joined: SocketRooms, s: SocketId, r: RoomId)
    requires MembersListed(rooms, joined) && s in joined
    ensures MembersListed(AddMember(rooms, r, s), AddRoom(joined, rooms, s, r))
  {
    var rooms', joined' := AddMember(rooms, r, s), AddRoom(joined, rooms, s, r);
    forall q, x | q in rooms' && x in rooms'[q]
      ensures x in joined' && q in joined'[x]
    {
      if q != r || x != s {
        assert q in rooms && x in rooms[q];
      }
    }
  }

  lemma JoinRoomsListed(rooms: Rooms, joined: SocketRooms, s: SocketId, r: RoomId)
    requires RoomsListed(rooms, joined) && s in joined
    ensures RoomsListed(AddMember(rooms, r, s), AddRoom(joined, rooms, s, r))
  {
    var rooms', joined' := AddMember(rooms, r, s), AddRoom(joined, rooms, s, r);
    forall x, q | x in joined' && q in joined'[x]
      ensures q in rooms' && x in rooms'[q]
    {
      if q != r || x != s {
        assert q in joined[x];
      }
    }
  }

  lemma JoinMembersRegistered(rooms: Rooms, registry: Registry, s: SocketId, r: RoomId, e: Entry)
    requires MembersRegistered(rooms, registry)
    ensures MembersRegistered(AddMember(rooms, r, s), registry[s := e])
  {
    var rooms' := AddMember(rooms, r, s);
    forall q, x | q in rooms' && x in rooms'[q] && x != q
      ensures x in registry[s := e]
    {
      if x != s {
        assert q in rooms && x in rooms[q];
      }
    }
  }

  /** A JOIN keeps own rooms private unless the room named is another live
      connection's own room. */
  lemma JoinPrivate(rooms: Rooms, joined: SocketRooms, s: SocketId, r: RoomId)
    requires s in joined
    ensures SelfRoomsPrivate(rooms, joined) && (r == s || r !in joined) ==>
              SelfRoomsPrivate(AddMember(rooms, r, s), AddRoom(joined, rooms, s, r))
  {
    if SelfRoomsPrivate(rooms, joined) && r == s {
      assert Members(rooms, s) == [s];
    }
  }

  /** The roster a JOIN announces keeps every earlier member's entry as it
      was, member id included, and lists the joiner with its new entry. */
  lemma JoinKeepsEarlierEntries(rooms: Rooms, registry: Registry, s: SocketId, r: RoomId, e: Entry)
    ensures |Roster(rooms, registry, r)| <= |Roster(AddMember(rooms, r, s), registry[s := e], r)|
    ensures forall i :: 0 <= i < |Roster(rooms, registry, r)| && Roster(rooms, registry, r)[i].socketId != s ==>
              Roster(AddMember(rooms, r, s), registry[s := e], r)[i] == Roster(rooms, registry, r)[i]
    ensures ClientInfo(s, Some(e.username), Some(e.memberId)) in Roster(AddMember(rooms, r, s), registry[s := e], r)
  {
    var before := Roster(rooms, registry, r);
    var after := Roster(AddMember(rooms, r, s), registry[s := e], r);
    var ids := Members(rooms, r);
    var ids' := Members(AddMember(rooms, r, s), r);
    assert forall i :: 0 <= i < |ids| ==> ids'[i] == ids[i];
    var j :| 0 <= j < |ids'| && ids'[j] == s;
    assert after[j] == ClientInfo(s, Some(e.username), Some(e.memberId));
  }

  // ---------------------------------------------------------------------
  // Member ids

  /** The id the next JOIN to `r` is given: the stored counter, or 1 when
      there is none (or it is 0, which the counter never is). */
  function NextId(counters: map<RoomId, nat>, r: RoomId): (id: nat)
    ensures id >= 1
    ensures r !in counters ==> id == 1
  {
    if r in counters && counters[r] != 0 then counters[r] else 1
  }

  /** The counters after one JOIN to `r`. */
  function Bump(counters: map<RoomId, nat>, r: RoomId): (counters': map<RoomId, nat>)
    ensures NextId(counters', r) == NextId(counters, r) + 1
    ensures forall q :: q != r ==> NextId(counters', q) == NextId(counters, q)
    ensures counters'.Keys == counters.Keys + {r}
  {
    counters[r := NextId(counters, r) + 1]
  }

  /** The ids `k` successive JOINs to room `r` are given. */
  function MintMany(counters: map<RoomId, nat>, r: RoomId, k: nat): seq<nat>
    decreases k
  {
    if k == 0 then [] else [NextId(counters, r)] + MintMany(Bump(counters, r), r, k - 1)
  }

  /** Successive JOINs to one room are given consecutive ids starting at the
      room's counter, so no id repeats; a room never joined before starts at 1. */
  lemma {:induction false} MintManyConsecutive(counters: map<RoomId, nat>, r: RoomId, k: nat)
    decreases k
    ensures |MintMany(counters, r, k)| == k
    ensures forall i :: 0 <= i < k ==> MintMany(counters, r, k)[i] == NextId(counters, r) + i
    ensures r !in counters ==> forall i :: 0 <= i < k ==> MintMany(counters, r, k)[i] == i + 1
  {
    if k > 0 {
      MintManyConsecutive(Bump(counters, r), r, k - 1);
    }
  }

  // ---------------------------------------------------------------------
  // Member ids on the counter object as written

  /** A value the counter object `roomMemberCounters` can yield for a room:
      nothing, a number, NaN, or an object or function (which is truthy and
      not a number). */
  datatype JsValue = Undefined | Num(n: int) | NotANumber | Object

  /** JavaScript truthiness. */
  predicate Truthy(v: JsValue) {
    match v
    case Num(n) => n != 0
    case Object => true
    case _ => false
  }

  /** `++`: the numeric value plus one; anything that is not a number
      converts to NaN. */
  function Increment(v: JsValue): (w: JsValue)
    ensures v.Num? <==> w.Num?
    ensures v.Num? ==> w.n == v.n + 1
  {
    if v.Num? then Num(v.n + 1) else NotANumber
  }

  /** The counter object as written is a plain object, whose own properties
      are `own`. A room id in `inherited` names an `Object.prototype` member
      ("constructor", "toString", "__proto__", ...), which a lookup finds
      when there is no own property of that name. */
  function Lookup(own: map<RoomId, JsValue>, inherited: set<RoomId>, r: RoomId): (v: JsValue)
    ensures r !in own && r in inherited ==> v == Object
    ensures r !in own && r !in inherited ==> v == Undefined
  {
    if r in own then own[r] else if r in inherited then Object else Undefined
  }

  /** An assignment to the counter object. Room ids in `accessors` name the
      `__proto__` accessor, for which assigning a number changes nothing. */
  function Store(own: map<RoomId, JsValue>, accessors: set<RoomId>, r: RoomId, v: JsValue): (own': map<RoomId, JsValue>)
    ensures r in accessors ==> own' == own
    ensures r !in accessors ==> own' == own[r := v]
  {
    if r in accessors then own else own[r := v]
  }

  /** The counter steps of the JOIN handler as written: reset to 1 when the
      looked-up value is falsy, read the member id, then `++`. */
  function JoinCounterAsWritten(own: map<RoomId, JsValue>, inherited: set<RoomId>, accessors: set<RoomId>, r: RoomId)
    : (result: (map<RoomId, JsValue>, JsValue))
    ensures Truthy(Lookup(own, inherited, r)) ==> result.1 == Lookup(own, inherited, r)
    ensures !Truthy(Lookup(own, inherited, r)) && r !in accessors ==> result.1 == Num(1)
  {
    var own1 := if !Truthy(Lookup(own, inherited, r)) then Store(own, accessors, r, Num(1)) else own;
    var id := Lookup(own1, inherited, r);
    (Store(own1, accessors, r, Increment(id)), id)
  }

  /** The member number a client receives: a number survives, anything else
      is no member number. */
  function SentNumber(v: JsValue): Option<int> {
    if v.Num? then Some(v.n) else None
  }

  /** The member numbers `k` successive JOINs to room `r` hand out as written. */
  function MintManyAsWritten(own: map<RoomId, JsValue>, inherited: set<RoomId>, accessors: set<RoomId>, r: RoomId, k: nat)
    : seq<Option<int>>
    decreases k
  {
    if k == 0 then []
    else
      var (own', id) := JoinCounterAsWritten(own, inherited, accessors, r);
      [SentNumber(id)] + MintManyAsWritten(own', inherited, accessors, r, k - 1)
  }

  /** The counter object holds exactly the counters, as numbers. */
  ghost predicate Mirrors(own: map<RoomId, JsValue>, counters: map<RoomId, nat>) {
    own.Keys == counters.Keys && forall q :: q in own ==> own[q] == Num(counters[q])
  }

  /** For a room id that names no `Object.prototype` member, the counter as
      written hands out `NextId` and moves to `Bump`. */
  lemma JoinCounterAgrees(own: map<RoomId, JsValue>, counters: map<RoomId, nat>, inherited: set<RoomId>,
                          accessors: set<RoomId>, r: RoomId)
    requires Mirrors(own, counters) && r !in inherited && r !in accessors
    ensures JoinCounterAsWritten(own, inherited, accessors, r).1 == Num(NextId(counters, r))
    ensures Mirrors(JoinCounterAsWritten(own, inherited, accessors, r).0, Bump(counters, r))
  {
    var (own', id) := JoinCounterAsWritten(own, inherited, accessors, r);
    var c' := Bump(counters, r);
    assert own'.Keys == c'.Keys;
    forall q | q in own'
      ensures own'[q] == Num(c'[q])
    {
      if q != r {
        assert own'[q] == own[q];
      }
    }
  }

  /** As written, a room named after an inherited member ("constructor",
      "toString", ...) gives its first joiner no member number, because the
      lookup finds the inherited function, and the `++` leaves NaN behind;
      the next joiners get 1 and 2. */
  lemma {:induction false} InheritedRoomRenumbers(own: map<RoomId, JsValue>, inherited: set<RoomId>,
                                                  accessors: set<RoomId>, r: RoomId)
    requires r !in own && r in inherited && r !in accessors
    ensures MintManyAsWritten(own, inherited, accessors, r, 3) == [None, Some(1), Some(2)]
  {
    var (own1, id1) := JoinCounterAsWritten(own, inherited, accessors, r);
    assert id1 == Object && own1 == own[r := NotANumber];
    var (own2, id2) := JoinCounterAsWritten(own1, inherited, accessors, r);
    assert id2 == Num(1) && own2 == own[r := Num(2)];
    var (own3, id3) := JoinCounterAsWritten(own2, inherited, accessors, r);
    assert id3 == Num(2);
    assert MintManyAsWritten(own2, inherited, accessors, r, 1) == [Some(2)];
    assert MintManyAsWritten(own1, inherited, accessors, r, 2) == [Some(1), Some(2)];
  }

  /** As written, a room named "__proto__" gives every joiner
      `Object.prototype` and never moves its counter. */
  lemma ProtoRoomNeverCounts(own: map<RoomId, JsValue>, inherited: set<RoomId>, accessors: set<RoomId>, r: RoomId)
    requires r !in own && r in inherited && r in accessors
    ensures JoinCounterAsWritten(own, inherited, accessors, r) == (own, Object)
  {
  }

  // ---------------------------------------------------------------------
  // The server

  class Server {
    var registry: Registry
    var counters: map<RoomId, nat>
    var rooms: Rooms
    var joined: SocketRooms
    var outbox: seq<Delivery>

    ghost predicate Valid()
      reads this`rooms, this`joined, this`registry
    {
      Consistent(rooms, joined, registry)
    }

    constructor ()
      ensures Valid() && SelfRoomsPrivate(rooms, joined)
      ensures registry == map[] && counters == map[] && rooms == map[] && joined == map[] && outbox == []
    {
      registry, counters, rooms, joined, outbox := map[], map[], map[], map[], [];
    }

    /** The transport connects socket `s`: it is placed in its own room. */
    method Connect(s: SocketId)
      requires Valid() && s !in joined
      modifies this`rooms, this`joined
      ensures Valid()
      ensures joined == old(joined)[s := [s]]
      ensures rooms == AddMember(old(rooms), s, s)
      ensures old(SelfRoomsPrivate(rooms, joined)) && s !in old(rooms) ==> SelfRoomsPrivate(rooms, joined)
    {
      ConnectConsistent(rooms, joined, registry, s);
      rooms, joined := AddMember(rooms, s, s), joined[s := [s]];
    }

    /** JOIN {roomId, username} from `s`: take the room's next member id and
        bump its counter, record the registry entry, join the room, then send
        JOINED with the room's member list to every member. */
    method Join(s: SocketId, roomId: RoomId, username: string)
      requires Valid() && s in joined
      modifies this
      ensures Valid()
      ensures counters == Bump(old(counters), roomId)
      ensures registry == old(registry)[s := Entry(username, NextId(old(counters), roomId))]
      ensures rooms == AddMember(old(rooms), roomId, s)
      ensures joined == AddRoom(old(joined), old(rooms), s, roomId)
      ensures outbox == old(outbox) + JoinedFanOut(rooms, Roster(rooms, registry, roomId),
                                                   Joined(Roster(rooms, registry, roomId), username, s))
    {
      Enroll(s, roomId, username);
      var clients := Roster(rooms, registry, roomId);
      var sent := JoinedDeliveries(rooms, clients, Joined(clients, username, s));
      outbox := outbox + sent;
    }

    /** The state change of JOIN, before anything is sent. */
    method Enroll(s: SocketId, roomId: RoomId, username: string)
      requires Valid() && s in joined
      modifies this`registry, this`counters, this`rooms, this`joined
      ensures Valid()
      ensures counters == Bump(old(counters), roomId)
      ensures registry == old(registry)[s := Entry(username, NextId(old(counters), roomId))]
      ensures rooms == AddMember(old(rooms), roomId, s)
      ensures joined == AddRoom(old(joined), old(rooms), s, roomId)
    {
      var entry := Entry(username, NextId(counters, roomId));
      JoinConsistent(rooms, joined, registry, s, roomId, entry);
      registry, counters, rooms, joined :=
        registry[s := entry], Bump(counters, roomId), AddMember(rooms, roomId, s), AddRoom(joined, rooms, s, roomId);
    }

    /** The JOIN handler's loop: JOINED to each listed client, one at a time. */
    static method JoinedDeliveries(rooms: Rooms, clients: seq<ClientInfo>, ev: Event) returns (sent: seq<Delivery>)
      ensures sent == JoinedFanOut(rooms, clients, ev)
    {
      sent := [];
      var i := 0;
      while i < |clients|
        invariant 0 <= i <= |clients|
        invariant sent == JoinedFanOut(rooms, clients[..i], ev)
      {
        assert clients[..i + 1][..i] == clients[..i];
        sent := sent + ToRoom(rooms, clients[i].socketId, ev);
        i := i + 1;
      }
      assert clients[..i] == clients;
    }

    /** CODE_CHANGE {roomId, code}: relayed to the others in the payload's room. */
    method CodeChange(s: SocketId, roomId: RoomId, code: string)
      requires Valid() && s in joined
      modifies this`outbox
      ensures Valid()
      ensures outbox == old(outbox) + ToOthers(rooms, s, roomId, Protocol.CodeChange(Some(code)))
    {
      outbox := outbox + ToOthers(rooms, s, roomId, Protocol.CodeChange(Some(code)));
    }

    /** SYNC_CODE {socketId, code}: re-tagged as CODE_CHANGE and sent to the
        named connection only. */
    method SyncCode(s: SocketId, target: SocketId, code: Option<string>)
      requires Valid() && s in joined
      modifies this`outbox
      ensures Valid()
      ensures outbox == old(outbox) + ToRoom(rooms, target, Protocol.CodeChange(code))
    {
      outbox := outbox + ToRoom(rooms, target, Protocol.CodeChange(code));
    }

    /** CHAT_MESSAGE: to every member of the payload's room, sender included. */
    method ChatMessage(s: SocketId, roomId: RoomId, username: string, message: string, timestamp: int)
      requires Valid() && s in joined
      modifies this`outbox
      ensures Valid()
      ensures outbox == old(outbox) + ToRoom(rooms, roomId, Protocol.ChatMessage(username, message, timestamp))
    {
      outbox := outbox + ToRoom(rooms, roomId, Protocol.ChatMessage(username, message, timestamp));
    }

    /** TYPING_START: to the others in the payload's room. */
    method TypingStart(s: SocketId, roomId: RoomId, username: string)
      requires Valid() && s in joined
      modifies this`outbox
      ensures Valid()
      ensures outbox == old(outbox) + ToOthers(rooms, s, roomId, Protocol.TypingStart(username))
    {
      outbox := outbox + ToOthers(rooms, s, roomId, Protocol.TypingStart(username));
    }

    /** TYPING_STOP: to the others in the payload's room. */
    method TypingStop(s: SocketId, roomId: RoomId, username: string)
      requires Valid() && s in joined
      modifies this`outbox
      ensures Valid()
      ensures outbox == old(outbox) + ToOthers(rooms, s, roomId, Protocol.TypingStop(username))
    {
      outbox := outbox + ToOthers(rooms, s, roomId, Protocol.TypingStop(username));
    }

    /** CURSOR_MOVE: to the others, with the sender's socket id added. */
    method CursorMove(s: SocketId, roomId: RoomId, position: Option<Position>, username: string)
      requires Valid() && s in joined
      modifies this`outbox
      ensures Valid()
      ensures outbox == old(outbox) + ToOthers(rooms, s, roomId, Protocol.CursorMove(position, username, s))
    {
      outbox := outbox + ToOthers(rooms, s, roomId, Protocol.CursorMove(position, username, s));
    }

    /** USER_IDLE: to the others, carrying only the sender's socket id. */
    method UserIdle(s: SocketId, roomId: RoomId)
      requires Valid() && s in joined
      modifies this`outbox
      ensures Valid()
      ensures outbox == old(outbox) + ToOthers(rooms, s, roomId, Protocol.UserIdle(s))
    {
      outbox := outbox + ToOthers(rooms, s, roomId, Protocol.UserIdle(s));
    }

    /** USER_ACTIVE: to the others, carrying only the sender's socket id. */
    method UserActive(s: SocketId, roomId: RoomId)
      requires Valid() && s in joined
      modifies this`outbox
      ensures Valid()
      ensures outbox == old(outbox) + ToOthers(rooms, s, roomId, Protocol.UserActive(s))
    {
      outbox := outbox + ToOthers(rooms, s, roomId, Protocol.UserActive(s));
    }

    /** SYNC_OUTPUT: to every member of the payload's room, sender included. */
    method SyncOutput(s: SocketId, roomId: RoomId, output: string)
      requires Valid() && s in joined
      modifies this`outbox
      ensures Valid()
      ensures outbox == old(outbox) + ToRoom(rooms, roomId, Protocol.SyncOutput(output))
    {
      outbox := outbox + ToRoom(rooms, roomId, Protocol.SyncOutput(output));
    }

    /** The transport reports that `s` is going away: the disconnecting
        handler notifies the others of each of its rooms (its own room
        first) and drops its registry entry; socket.io then takes it out of
        every room. The counters are left as they are. */
    method Disconnect(s: SocketId)
      requires Valid() && s in joined
      modifies this`registry, this`rooms, this`joined, this`outbox
      ensures Valid()
      ensures outbox == old(outbox) + DisconnectFanOut(old(rooms), s, old(joined[s]),
                                                       Disconnected(s, if s in old(registry) then Some(old(registry[s]).username) else None))
      ensures registry == old(registry) - {s} && s !in registry
      ensures joined == old(joined) - {s}
      ensures rooms == LeaveAll(old(rooms), s)
      ensures old(SelfRoomsPrivate(rooms, joined)) ==> SelfRoomsPrivate(rooms, joined)
    {
      var name := if s in registry then Some(registry[s].username) else None;
      var sent := DisconnectDeliveries(rooms, s, joined[s], Disconnected(s, name));
      outbox := outbox + sent;
      Depart(s);
    }

    /** What follows the disconnecting handler: its registry entry goes, and
        socket.io takes the socket out of every room. */
    method Depart(s: SocketId)
      requires Consistent(rooms, joined, registry) && s in joined
      modifies this`registry, this`rooms, this`joined
      ensures Consistent(rooms, joined, registry)
      ensures registry == old(registry) - {s}
      ensures joined == old(joined) - {s}
      ensures rooms == LeaveAll(old(rooms), s)
      ensures old(SelfRoomsPrivate(rooms, joined)) ==> SelfRoomsPrivate(rooms, joined)
    {
      LeaveAllConsistent(rooms, joined, registry, s);
      LeaveAllPrivate(rooms, joined, s);
      registry, rooms, joined := registry - {s}, LeaveAll(rooms, s), joined - {s};
    }

    /** The disconnecting handler's loop over the socket's rooms. */
    static method DisconnectDeliveries(rooms: Rooms, s: SocketId, rs: seq<RoomId>, ev: Event) returns (sent: seq<Delivery>)
      ensures sent == DisconnectFanOut(rooms, s, rs, ev)
    {
      sent := [];
      var i := 0;
      while i < |rs|
        invariant 0 <= i <= |rs|
        invariant sent == DisconnectFanOut(rooms, s, rs[..i], ev)
      {
        assert rs[..i + 1][..i] == rs[..i];
        sent := sent + ToOthers(rooms, s, rs[i], ev);
        i := i + 1;
      }
      assert rs[..i] == rs;
    }

    /** Dispatch of one request from connection `s` to its handler: what each
        request appends to the outbox, and, for JOIN, the new state. Only JOIN
        touches the registry, the counters and the membership. */
    method Handle(s: SocketId, req: Request)
      requires Valid() && s in joined
      modifies this
      ensures Valid()
      ensures |old(outbox)| <= |outbox| && outbox[..|old(outbox)|] == old(outbox)
      ensures !req.JoinReq? ==> registry == old(registry) && counters == old(counters) &&
                                 rooms == old(rooms) && joined == old(joined)
      ensures req.JoinReq? ==>
                && counters == Bump(old(counters), req.roomId)
                && registry == old(registry)[s := Entry(req.username, NextId(old(counters), req.roomId))]
                && rooms == AddMember(old(rooms), req.roomId, s)
                && joined == AddRoom(old(joined), old(rooms), s, req.roomId)
                && outbox == old(outbox) + JoinedFanOut(rooms, Roster(rooms, registry, req.roomId),
                                                        Joined(Roster(rooms, registry, req.roomId), req.username, s))
      ensures req.CodeChangeReq? ==> outbox == old(outbox) + ToOthers(rooms, s, req.roomId, Protocol.CodeChange(Some(req.code)))
      ensures req.SyncCodeReq? ==> outbox == old(outbox) + ToRoom(rooms, req.target, Protocol.CodeChange(req.snapshot))
      ensures req.ChatMessageReq? ==>
                outbox == old(outbox) + ToRoom(rooms, req.roomId, Protocol.ChatMessage(req.username, req.message, req.timestamp))
      ensures req.TypingStartReq? ==> outbox == old(outbox) + ToOthers(rooms, s, req.roomId, Protocol.TypingStart(req.username))
      ensures req.TypingStopReq? ==> outbox == old(outbox) + ToOthers(rooms, s, req.roomId, Protocol.TypingStop(req.username))
      ensures req.CursorMoveReq? ==>
                outbox == old(outbox) + ToOthers(rooms, s, req.roomId, Protocol.CursorMove(req.position, req.username, s))
      ensures req.UserIdleReq? ==> outbox == old(outbox) + ToOthers(rooms, s, req.roomId, Protocol.UserIdle(s))
      ensures req.UserActiveReq? ==> outbox == old(outbox) + ToOthers(rooms, s, req.roomId, Protocol.UserActive(s))
      ensures req.SyncOutputReq? ==> outbox == old(outbox) + ToRoom(rooms, req.roomId, Protocol.SyncOutput(req.output))
    {
      match req
      case JoinReq(r, u) => Join(s, r, u);
      case CodeChangeReq(r, c) => CodeChange(s, r, c);
      case SyncCodeReq(t, c) => SyncCode(s, t, c);
      case ChatMessageReq(r, u, m, ts) => ChatMessage(s, r, u, m, ts);
      case TypingStartReq(r, u) => TypingStart(s, r, u);
      case TypingStopReq(r, u) => TypingStop(s, r, u);
      case CursorMoveReq(r, p, u) => CursorMove(s, r, p, u);
      case UserIdleReq(r) => UserIdle(s, r);
      case UserActiveReq(r) => UserActive(s, r);
      case SyncOutputReq(r, o) => SyncOutput(s, r, o);
    }
  }
}
