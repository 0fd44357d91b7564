/**
 * The room registry as a value: a map from room id to the set of connection
 * handles subscribed to that room, and what `connect`, `remove` and
 * `send_to_room` each make of it. WebSocketManager (module Manager) keeps one
 * such map and is proved to update it exactly as these functions say.
 */
module Rooms {
  /** Room ids are the store's ids, used here only as lookup keys. */
  type RoomId = string

  /**
   * A live connection. Python compares WebSocket objects by identity; here
   * each accepted connection carries a distinct handle number instead.
   */
  datatype WebSocket = WebSocket(handle: nat)

  type Registry = map<RoomId, set<WebSocket>>

  /** The connections subscribed to `room`; none when the room has no entry. */
  function Members(rooms: Registry, room: RoomId): set<WebSocket>
  {
    if room in rooms then rooms[room] else {}
  }

  /** No room is mapped to an empty set: entries live only as long as their members. */
  predicate NoEmptyRoom(rooms: Registry)
  {
    forall room :: room in rooms ==> rooms[room] != {}
  }

  /** Every connection is subscribed to at most one room. */
  predicate OneRoomEach(rooms: Registry)
  {
    forall r1, r2, c :: r1 in rooms && r2 in rooms && c in rooms[r1] && c in rooms[r2] ==> r1 == r2
  }

  /** `connect`: create the room's entry if needed and add the connection to it. */
  function Joined(rooms: Registry, room: RoomId, c: WebSocket): (res: Registry)
    ensures res.Keys == rooms.Keys + {room}
    ensures forall x :: x in res[room] <==> x == c || x in Members(rooms, room)
    ensures forall r :: r in rooms && r != room ==> res[r] == rooms[r]
  {
    rooms[room := Members(rooms, room) + {c}]
  }

  /**
   * `remove`: take the connection out of the room if it is there, and drop
   * the room's entry once its set is empty; otherwise change nothing.
   */
  function Left(rooms: Registry, room: RoomId, c: WebSocket): (res: Registry)
    ensures c !in Members(rooms, room) ==> res == rooms
    ensures c !in Members(res, room)
    ensures forall x :: x != c ==> (x in Members(res, room) <==> x in Members(rooms, room))
    ensures c in Members(rooms, room) ==> (room in res <==> rooms[room] != {c})
    ensures forall r :: r != room ==> (r in res <==> r in rooms)
    ensures forall r :: r in rooms && r != room ==> res[r] == rooms[r]
  {
    if room in rooms && c in rooms[room] then
      var rest := rooms[room] - {c};
      if rest == {} then rooms - {room} else rooms[room := rest]
    else
      rooms
  }

  /**
   * What `send_to_room` leaves behind once it discards the connections whose
   * send failed: the room keeps exactly its other members; an emptied entry
   * is kept, not deleted.
   */
  function Pruned(rooms: Registry, room: RoomId, dead: set<WebSocket>): (res: Registry)
    ensures room !in rooms ==> res == rooms
    ensures res.Keys == rooms.Keys
    ensures room in rooms ==> forall c :: c in res[room] <==> c in rooms[room] && c !in dead
    ensures forall r :: r in rooms && r != room ==> res[r] == rooms[r]
  {
    if room in rooms then rooms[room := rooms[room] - dead] else rooms
  }

  lemma JoinedKeepsNoEmptyRoom(rooms: Registry, room: RoomId, c: WebSocket)
    requires NoEmptyRoom(rooms)
    ensures NoEmptyRoom(Joined(rooms, room, c))
  {
  }

  lemma LeftKeepsNoEmptyRoom(rooms: Registry, room: RoomId, c: WebSocket)
    requires NoEmptyRoom(rooms)
    ensures NoEmptyRoom(Left(rooms, room, c))
  {
  }

  /** One registry call: a `connect` or a `remove`. */
  datatype Call = Connect(room: RoomId, c: WebSocket) | Remove(room: RoomId, c: WebSocket)

  function Replay(rooms: Registry, calls: seq<Call>): Registry
    decreases |calls|
  {
    if calls == [] then rooms
    else
      var next := match calls[0]
        case Connect(room, c) => Joined(rooms, room, c)
        case Remove(room, c) => Left(rooms, room, c);
      Replay(next, calls[1..])
  }

  /** Any sequence of `connect` and `remove` calls keeps every room non-empty. */
  lemma {:induction false} ReplayKeepsNoEmptyRoom(rooms: Registry, calls: seq<Call>)
    requires NoEmptyRoom(rooms)
    ensures NoEmptyRoom(Replay(rooms, calls))
    decreases |calls|
  {
    if calls != [] {
      match calls[0]
      case Connect(room, c) =>
        JoinedKeepsNoEmptyRoom(rooms, room, c);
        ReplayKeepsNoEmptyRoom(Joined(rooms, room, c), calls[1..]);
      case Remove(room, c) =>
        LeftKeepsNoEmptyRoom(rooms, room, c);
        ReplayKeepsNoEmptyRoom(Left(rooms, room, c), calls[1..]);
    }
  }

  /** Removing twice is the same as removing once. */
  lemma LeftIdempotent(rooms: Registry, room: RoomId, c: WebSocket)
    ensures Left(Left(rooms, room, c), room, c) == Left(rooms, room, c)
  {
  }

  /** Connecting twice is the same as connecting once. */
  lemma JoinedIdempotent(rooms: Registry, room: RoomId, c: WebSocket)
    ensures Joined(Joined(rooms, room, c), room, c) == Joined(rooms, room, c)
  {
  }

  /** `remove` undoes a `connect` of a new member to a room with a non-empty (or no) entry. */
  lemma LeftUndoesJoined(rooms: Registry, room: RoomId, c: WebSocket)
    requires c !in Members(rooms, room)
    requires room in rooms ==> rooms[room] != {}
    ensures Left(Joined(rooms, room, c), room, c) == rooms
  {
    var after := Left(Joined(rooms, room, c), room, c);
    if room in rooms {
      assert after[room] == rooms[room];
    }
    assert after.Keys == rooms.Keys;
  }

  /** A broadcast to a room never adds members and never touches other rooms' members. */
  lemma PrunedOnlyShrinks(rooms: Registry, room: RoomId, dead: set<WebSocket>)
    ensures forall r :: Members(Pruned(rooms, room, dead), r) <= Members(rooms, r)
  {
  }

  /**
   * A broadcast in which every send fails leaves the room mapped to an empty
   * set: `send_to_room` discards dead connections but never deletes the entry.
   */
  lemma AllFailedLeavesEmptyRoom(rooms: Registry, room: RoomId, dead: set<WebSocket>)
    requires room in rooms
    requires rooms[room] <= dead
    ensures room in Pruned(rooms, room, dead)
    ensures Pruned(rooms, room, dead)[room] == {}
    ensures !NoEmptyRoom(Pruned(rooms, room, dead))
  {
    var res := Pruned(rooms, room, dead);
    assert res[room] == {};
  }

  /**
   * The lone subscriber of a new room whose own echo fails is discarded by the
   * broadcast; its later `remove` finds nothing to remove, so the emptied
   * entry stays until another connection joins that room.
   */
  lemma LoneFailedEchoLeavesEmptyRoom(rooms: Registry, room: RoomId, c: WebSocket, dead: set<WebSocket>)
    requires room !in rooms
    requires c in dead
    ensures var res := Left(Pruned(Joined(rooms, room, c), room, dead), room, c);
      room in res && res[room] == {}
  {
    var joined := Joined(rooms, room, c);
    assert joined[room] == {c};
    var pruned := Pruned(joined, room, dead);
    assert pruned[room] == {};
  }

  lemma LeftKeepsOneRoomEach(rooms: Registry, room: RoomId, c: WebSocket)
    requires OneRoomEach(rooms)
    ensures OneRoomEach(Left(rooms, room, c))
  {
  }

  lemma PrunedKeepsOneRoomEach(rooms: Registry, room: RoomId, dead: set<WebSocket>)
    requires OneRoomEach(rooms)
    ensures OneRoomEach(Pruned(rooms, room, dead))
  {
  }

  /** `connect` keeps one room per connection only when the connection is new. */
  lemma JoinedKeepsOneRoomEach(rooms: Registry, room: RoomId, c: WebSocket)
    requires OneRoomEach(rooms)
    requires forall r :: r in rooms && r != room ==> c !in rooms[r]
    ensures OneRoomEach(Joined(rooms, room, c))
  {
  }
}
