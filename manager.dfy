/**
 * WebSocketManager: the process-wide registry of live connections per room,
 * and the fan-out of one message to every connection of a room.
 */
module Manager {
  import opened Wrappers
  import opened Documents
  import opened Rooms

  /** One send attempt, `ws.send_json(message)`. */
  datatype Delivery = Delivery(to: WebSocket, payload: Option<Doc>)

  /** The connections a sequence of send attempts went to. */
  function Recipients(sent: seq<Delivery>): set<WebSocket>
  {
    set d | d in sent :: d.to
  }

  /** No connection is sent to twice. */
  predicate EachOnce(sent: seq<Delivery>)
  {
    forall j, k :: 0 <= j < k < |sent| ==> sent[j].to != sent[k].to
  }

  /** One more attempt, to a connection not yet sent to, keeps every connection sent to once. */
  lemma AppendNewRecipient(sent: seq<Delivery>, d: Delivery)
    requires EachOnce(sent)
    requires d.to !in Recipients(sent)
    ensures Recipients(sent + [d]) == Recipients(sent) + {d.to}
    ensures EachOnce(sent + [d])
  {
    assert forall e :: e in sent + [d] <==> e in sent || e == d;
    forall k | 0 <= k < |sent|
      ensures sent[k].to != d.to
    {
      assert sent[k] in sent;
    }
  }

  /**
   * The first loop of `send_to_room`: one send attempt of the same message to
   * each connection of the snapshot, a failure caught per connection and
   * recorded in `dead`. `sendOk` says which attempts the transport accepts.
   */
  method TrySends(snapshot: set<WebSocket>, message: Option<Doc>, sendOk: (WebSocket, Option<Doc>) -> bool)
    returns (sent: seq<Delivery>, dead: seq<WebSocket>)
    ensures Recipients(sent) == snapshot
    ensures EachOnce(sent)
    ensures forall k :: 0 <= k < |sent| ==> sent[k].payload == message
    ensures forall c :: c in dead <==> c in snapshot && !sendOk(c, message)
  {
    var pending := snapshot;
    sent, dead := [], [];
    while pending != {}
      invariant Recipients(sent) + pending == snapshot
      invariant Recipients(sent) !! pending
      invariant EachOnce(sent)
      invariant forall k :: 0 <= k < |sent| ==> sent[k].payload == message
      invariant forall c :: c in dead <==> c in Recipients(sent) && !sendOk(c, message)
      decreases pending
    {
      var ws :| ws in pending;
      var attempt := Delivery(ws, message);
      AppendNewRecipient(sent, attempt);
      sent := sent + [attempt];
      if !sendOk(ws, message) {
        dead := dead + [ws];
      }
      pending := pending - {ws};
    }
  }

  /** The connections of `snapshot` that `message` could not be sent to. */
  function Failed(snapshot: set<WebSocket>, message: Option<Doc>, sendOk: (WebSocket, Option<Doc>) -> bool): set<WebSocket>
  {
    set c | c in snapshot && !sendOk(c, message)
  }

  class WebSocketManager {
    /** room id -> the connections subscribed to it */
    var rooms: Registry

    /** The registry starts empty when the process starts. */
    constructor ()
      ensures rooms == map[]
    {
      rooms := map[];
    }

    /** `connect`, after the connection was accepted. */
    method Connect(room: RoomId, ws: WebSocket)
      modifies this
      ensures rooms == Joined(old(rooms), room, ws)
    {
      if room !in rooms {
        rooms := rooms[room := {}];
      }
      rooms := rooms[room := rooms[room] + {ws}];
    }

    /** `remove`: a no-op unless the connection is in the room. */
    method Remove(room: RoomId, ws: WebSocket)
      modifies this
      ensures rooms == Left(old(rooms), room, ws)
    {
      if room in rooms && ws in rooms[room] {
        rooms := rooms[room := rooms[room] - {ws}];
        if rooms[room] == {} {
          rooms := rooms - {room};
        }
      }
    }

    /**
     * `send_to_room`: nothing for a room without an entry; otherwise one send
     * attempt per connection of a snapshot of the room, then every connection
     * whose send failed is discarded from the live set.
     */
    method SendToRoom(room: RoomId, message: Option<Doc>, sendOk: (WebSocket, Option<Doc>) -> bool)
      returns (sent: seq<Delivery>)
      modifies this
      ensures room !in old(rooms) ==> sent == []
      ensures Recipients(sent) == Members(old(rooms), room)
      ensures EachOnce(sent)
      ensures forall k :: 0 <= k < |sent| ==> sent[k].payload == message
      ensures rooms == Pruned(old(rooms), room, Failed(Members(old(rooms), room), message, sendOk))
    {
      if room !in rooms {
        return [];
      }
      var dead;
      sent, dead := TrySends(rooms[room], message, sendOk);
      var i := 0;
      while i < |dead|
        invariant 0 <= i <= |dead|
        invariant rooms.Keys == old(rooms).Keys
        invariant forall r :: r in rooms && r != room ==> rooms[r] == old(rooms)[r]
        invariant forall c :: c in rooms[room] <==> c in old(rooms)[room] && c !in dead[..i]
      {
        rooms := rooms[room := rooms[room] - {dead[i]}];
        i := i + 1;
      }
      assert dead[..i] == dead;
      assert rooms[room] == Pruned(old(rooms), room, Failed(Members(old(rooms), room), message, sendOk))[room];
    }
  }
}
