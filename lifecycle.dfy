/**
 * The life of one real-time connection (`websocket_endpoint`): accept and
 * subscribe, then receive frames, persist each as a message and broadcast the
 * stored document to the room, until the client disconnects or something
 * fails; on every way out the connection is removed from its room.
 */
module Lifecycle {
  import opened Wrappers
  import opened Documents
  import opened Rooms
  import opened Manager

  /** A chat message as validated before it is stored: every field a string. */
  datatype Message = Message(roomId: RoomId, sender: string, content: string)

  /** What one `receive_json` gives the loop. */
  datatype Received =
    | Frame(data: Doc)     // a JSON object
    | NotAnObject          // valid JSON that is not an object: `data.get` raises
    | Disconnect           // `WebSocketDisconnect`
    | ReceiveError         // any other failure of the transport or of JSON decoding

  /**
   * The store's answer to persisting one message: the insert raised, or it
   * returned an id and reading it back found the document (or nothing).
   */
  datatype Stored = StoreFailed | Stored(found: Option<Doc>)

  /** How the receive loop ended: by `WebSocketDisconnect`, or by any other exception. */
  datatype Exit = Disconnected | Errored

  /** `data.get(key, default)`. */
  function FieldOr(data: Doc, key: string, default: string): Value
  {
    if key in data then data[key] else Str(default)
  }

  /**
   * The message built from one frame: a missing `sender` becomes "Anon", a
   * missing `content` the empty string; a present field that is not a string
   * fails validation of the string-typed message field.
   */
  function MessageFrom(room: RoomId, data: Doc): (r: Option<Message>)
    ensures r.Some? <==> ("sender" !in data || data["sender"].Str?) && ("content" !in data || data["content"].Str?)
    ensures r.Some? ==> r.value.roomId == room
    ensures r.Some? && "sender" in data ==> data["sender"] == Str(r.value.sender)
    ensures r.Some? && "sender" !in data ==> r.value.sender == "Anon"
    ensures r.Some? && "content" in data ==> data["content"] == Str(r.value.content)
    ensures r.Some? && "content" !in data ==> r.value.content == ""
  {
    match (FieldOr(data, "sender", "Anon"), FieldOr(data, "content", ""))
    case (Str(sender), Str(content)) => Some(Message(room, sender, content))
    case _ => None
  }

  /** What one turn of the loop does: broadcast a stored document, or end the loop. */
  datatype Turn = Broadcast(payload: Option<Doc>) | Stop(exit: Exit)

  /** Turn `i` of the loop, on what `receive_json` gave. */
  function TurnOf(room: RoomId, received: Received, store: (nat, Message) -> Stored, i: nat): Turn
  {
    match received
    case Disconnect => Stop(Disconnected)
    case ReceiveError => Stop(Errored)
    case NotAnObject => Stop(Errored)
    case Frame(data) =>
      match MessageFrom(room, data)
      case None => Stop(Errored)
      case Some(msg) =>
        match store(i, msg)
        case StoreFailed => Stop(Errored)
        case Stored(found) => Broadcast(Serialized(found))
  }

  /**
   * A turn broadcasts only for a frame that gave a message the store kept,
   * and carries the serialized stored document; only `WebSocketDisconnect`
   * ends the loop as a disconnect, every other failure as an error.
   */
  lemma TurnOfBroadcastsStored(room: RoomId, received: Received, store: (nat, Message) -> Stored, i: nat)
    ensures var t := TurnOf(room, received, store, i);
      && (t.Broadcast? ==> received.Frame? && MessageFrom(room, received.data).Some?)
      && (t.Broadcast? ==> store(i, MessageFrom(room, received.data).value).Stored?)
      && (t.Broadcast? ==> t.payload == Serialized(store(i, MessageFrom(room, received.data).value).found))
      && (t == Stop(Disconnected) <==> received == Disconnect)
  {
  }

  /**
   * One turn of the loop body on what `receive_json` gave: build the message
   * with defaults, persist it, read the stored document back and serialize it.
   */
  method ProcessFrame(room: RoomId, received: Received, store: (nat, Message) -> Stored, i: nat)
    returns (turn: Turn)
    ensures turn == TurnOf(room, received, store, i)
  {
    match received {
    case Disconnect =>
      turn := Stop(Disconnected);
    case ReceiveError =>
      turn := Stop(Errored);
    case NotAnObject =>
      turn := Stop(Errored);
    case Frame(data) =>
      var msg := MessageFrom(room, data);
      if msg.None? {
        turn := Stop(Errored);
      } else {
        var stored := store(i, msg.value);
        if stored.StoreFailed? {
          turn := Stop(Errored);
        } else {
          var payload := SerializeDoc(stored.found);
          turn := Broadcast(payload);
        }
      }
    }
  }

  /**
   * The receive loop from frame `i` on, over the frames a client sends before
   * its connection closes: how it ends and the payloads it broadcasts, in
   * order. `store(i, m)` is the store's answer when frame `i` gives `m`.
   */
  function Session(room: RoomId, inbound: seq<Received>, store: (nat, Message) -> Stored, i: nat): (r: (Exit, seq<Option<Doc>>))
    requires i <= |inbound|
    ensures |r.1| <= |inbound| - i
    decreases |inbound| - i
  {
    if i == |inbound| then (Disconnected, [])
    else
      match TurnOf(room, inbound[i], store, i)
      case Stop(e) => (e, [])
      case Broadcast(payload) =>
        var rest := Session(room, inbound, store, i + 1);
        (rest.0, [payload] + rest.1)
  }

  /**
   * The registry after the broadcasts of the receive loop from frame `i` on:
   * each broadcast of turn `k` discards the room's members whose send of
   * that payload failed; the loop's first stop ends it.
   */
  function Fanned(rooms: Registry, room: RoomId, inbound: seq<Received>, store: (nat, Message) -> Stored,
                  sendOk: (nat, WebSocket, Option<Doc>) -> bool, i: nat): Registry
    requires i <= |inbound|
    decreases |inbound| - i
  {
    if i == |inbound| then rooms
    else
      match TurnOf(room, inbound[i], store, i)
      case Stop(_) => rooms
      case Broadcast(payload) =>
        Fanned(Pruned(rooms, room, FailedAt(rooms, room, sendOk, i, payload)), room, inbound, store, sendOk, i + 1)
  }

  /**
   * The fan-out only shrinks the room: it keeps the same keys, leaves other
   * rooms as they were, adds nobody to `room`, and keeps every member whose
   * sends never fail.
   */
  lemma {:induction false} FannedOnlyShrinks(rooms: Registry, room: RoomId, inbound: seq<Received>, store: (nat, Message) -> Stored,
                                             sendOk: (nat, WebSocket, Option<Doc>) -> bool, i: nat)
    requires i <= |inbound|
    ensures var res := Fanned(rooms, room, inbound, store, sendOk, i);
      && res.Keys == rooms.Keys
      && (forall r :: r in rooms && r != room ==> res[r] == rooms[r])
      && Members(res, room) <= Members(rooms, room)
      && (forall c :: c in Members(rooms, room) && AlwaysReachable(sendOk, c) ==> c in Members(res, room))
    decreases |inbound| - i
  {
    if i < |inbound| {
      var turn := TurnOf(room, inbound[i], store, i);
      if turn.Broadcast? {
        var pruned := Pruned(rooms, room, FailedAt(rooms, room, sendOk, i, turn.payload));
        FannedOnlyShrinks(pruned, room, inbound, store, sendOk, i + 1);
        forall c | c in Members(rooms, room) && AlwaysReachable(sendOk, c)
          ensures c in Members(pruned, room)
        {
          assert sendOk(i, c, turn.payload);
        }
      }
    }
  }

  /** One turn of the fan-out: a stop leaves the registry, a broadcast prunes it and goes on. */
  lemma FannedStep(rooms: Registry, room: RoomId, inbound: seq<Received>, store: (nat, Message) -> Stored,
                   sendOk: (nat, WebSocket, Option<Doc>) -> bool, i: nat)
    requires i <= |inbound|
    ensures var turn := TurnOf(room, if i < |inbound| then inbound[i] else Disconnect, store, i);
      && (turn.Stop? ==> Fanned(rooms, room, inbound, store, sendOk, i) == rooms)
      && (turn.Broadcast? ==> i < |inbound|)
      && (turn.Broadcast? ==> Fanned(rooms, room, inbound, store, sendOk, i) == Fanned(Pruned(rooms, room, FailedAt(rooms, room, sendOk, i, turn.payload)), room, inbound, store, sendOk, i + 1))
  {
  }

  /**
   * The lone subscriber of a new room sends one frame that is stored, and its
   * own echo fails: once the endpoint removes it, the room is still mapped to
   * the empty set.
   */
  lemma LoneFailedEchoEndpoint(rooms: Registry, room: RoomId, ws: WebSocket, data: Doc,
                               store: (nat, Message) -> Stored, sendOk: (nat, WebSocket, Option<Doc>) -> bool)
    requires room !in rooms
    requires TurnOf(room, Frame(data), store, 0).Broadcast?
    requires !sendOk(0, ws, TurnOf(room, Frame(data), store, 0).payload)
    ensures var res := Left(Fanned(Joined(rooms, room, ws), room, [Frame(data)], store, sendOk, 0), room, ws);
      room in res && res[room] == {}
  {
    var joined := Joined(rooms, room, ws);
    assert Members(joined, room) == {ws};
    var payload := TurnOf(room, Frame(data), store, 0).payload;
    var dead := FailedAt(joined, room, sendOk, 0, payload);
    assert dead == {ws};
    var pruned := Pruned(joined, room, dead);
    assert pruned[room] == {};
    assert Fanned(joined, room, [Frame(data)], store, sendOk, 0) == Fanned(pruned, room, [Frame(data)], store, sendOk, 1);
  }

  /** Frame `k` gave a message, the store kept it, and `payload` is the serialized stored document. */
  predicate StoredAt(room: RoomId, inbound: seq<Received>, store: (nat, Message) -> Stored, k: nat, payload: Option<Doc>)
  {
    && k < |inbound|
    && inbound[k].Frame?
    && match MessageFrom(room, inbound[k].data)
       case None => false
       case Some(msg) => store(k, msg).Stored? && payload == Serialized(store(k, msg).found)
  }

  /**
   * Persist before broadcast: the j-th broadcast of a session is the stored
   * form of its j-th frame, so nothing is broadcast for a frame that was not
   * stored, and broadcasts follow the order of receipt.
   */
  lemma {:induction false} BroadcastsFollowStores(room: RoomId, inbound: seq<Received>, store: (nat, Message) -> Stored, i: nat)
    requires i <= |inbound|
    ensures forall j :: 0 <= j < |Session(room, inbound, store, i).1| ==>
      StoredAt(room, inbound, store, i + j, Session(room, inbound, store, i).1[j])
    decreases |inbound| - i
  {
    if i < |inbound| {
      SessionStep(room, inbound, store, i);
      var turn := TurnOf(room, inbound[i], store, i);
      if turn.Broadcast? {
        BroadcastsFollowStores(room, inbound, store, i + 1);
        var ps := Session(room, inbound, store, i).1;
        var rest := Session(room, inbound, store, i + 1).1;
        assert ps == [turn.payload] + rest;
        forall j | 0 <= j < |ps|
          ensures StoredAt(room, inbound, store, i + j, ps[j])
        {
          if j > 0 {
            assert ps[j] == rest[j - 1];
            assert i + j == (i + 1) + (j - 1);
          }
        }
      }
    }
  }

  /** A frame whose `sender` and `content` are strings or missing. */
  predicate Lenient(received: Received)
  {
    && received.Frame?
    && ("sender" !in received.data || received.data["sender"].Str?)
    && ("content" !in received.data || received.data["content"].Str?)
  }

  /**
   * Missing fields are defaulted, never rejected: when every frame is an
   * object whose fields are strings or missing and the store keeps
   * everything, the session broadcasts once per frame and ends only by
   * disconnect.
   */
  lemma {:induction false} LenientFramesAllBroadcast(room: RoomId, inbound: seq<Received>, store: (nat, Message) -> Stored, i: nat)
    requires i <= |inbound|
    requires forall k :: i <= k < |inbound| ==> Lenient(inbound[k])
    requires forall k, m :: store(k, m).Stored?
    ensures Session(room, inbound, store, i).0 == Disconnected
    ensures |Session(room, inbound, store, i).1| == |inbound| - i
    decreases |inbound| - i
  {
    if i < |inbound| {
      var msg := MessageFrom(room, inbound[i].data);
      assert msg.Some?;
      assert store(i, msg.value).Stored?;
      LenientFramesAllBroadcast(room, inbound, store, i + 1);
    }
  }

  /** One turn of the session: a stop ends it, a broadcast goes on with the next frame. */
  lemma SessionStep(room: RoomId, inbound: seq<Received>, store: (nat, Message) -> Stored, i: nat)
    requires i <= |inbound|
    ensures var turn := TurnOf(room, if i < |inbound| then inbound[i] else Disconnect, store, i);
      && (turn.Stop? ==> Session(room, inbound, store, i) == (turn.exit, []))
      && (turn.Broadcast? ==> i < |inbound|)
      && (turn.Broadcast? ==> Session(room, inbound, store, i) == Resumed([turn.payload], Session(room, inbound, store, i + 1)))
  {
  }

  /** A session outcome after `earlier` broadcasts were already made. */
  function Resumed(earlier: seq<Option<Doc>>, later: (Exit, seq<Option<Doc>>)): (Exit, seq<Option<Doc>>)
  {
    (later.0, earlier + later.1)
  }

  /** A connection whose sends never fail. */
  ghost predicate AlwaysReachable(sendOk: (nat, WebSocket, Option<Doc>) -> bool, c: WebSocket)
  {
    forall k, m :: sendOk(k, c, m)
  }

  /** The members of `room` whose send of `payload` during turn `i` fails. */
  function FailedAt(rooms: Registry, room: RoomId, sendOk: (nat, WebSocket, Option<Doc>) -> bool, i: nat,
                    payload: Option<Doc>): set<WebSocket>
  {
    set c | c in Members(rooms, room) && !sendOk(i, c, payload)
  }

  /** The `send_to_room` call of turn `i`, with that turn's send outcomes. */
  method SendTurn(manager: WebSocketManager, room: RoomId, payload: Option<Doc>,
                  sendOk: (nat, WebSocket, Option<Doc>) -> bool, i: nat)
    modifies manager
    ensures manager.rooms == Pruned(old(manager.rooms), room, FailedAt(old(manager.rooms), room, sendOk, i, payload))
  {
    var sendNow := (c, m) => sendOk(i, c, m);
    assert Failed(Members(manager.rooms, room), payload, sendNow) == FailedAt(manager.rooms, room, sendOk, i, payload);
    var _ := manager.SendToRoom(room, payload, sendNow);
  }

  /**
   * The receive loop of `websocket_endpoint`: it broadcasts what `Session`
   * says and leaves the registry as `Fanned` says.
   */
  method ReceiveLoop(manager: WebSocketManager, room: RoomId, inbound: seq<Received>, store: (nat, Message) -> Stored,
                     sendOk: (nat, WebSocket, Option<Doc>) -> bool)
    returns (exit: Exit, broadcasts: seq<Option<Doc>>)
    modifies manager
    ensures (exit, broadcasts) == Session(room, inbound, store, 0)
    ensures manager.rooms == Fanned(old(manager.rooms), room, inbound, store, sendOk, 0)
  {
    exit, broadcasts := Disconnected, [];
    ghost var fanned := Fanned(manager.rooms, room, inbound, store, sendOk, 0);
    ghost var whole := Session(room, inbound, store, 0);
    assert [] + whole.1 == whole.1;
    assert Resumed([], whole) == whole;
    var i := 0;
    var done := false;
    while !done
      invariant 0 <= i <= |inbound|
      invariant done ==> (exit, broadcasts) == whole && manager.rooms == fanned
      invariant !done ==> whole == Resumed(broadcasts, Session(room, inbound, store, i))
      invariant !done ==> Fanned(manager.rooms, room, inbound, store, sendOk, i) == fanned
      decreases if done then 0 else |inbound| + 1 - i
    {
      var received := if i < |inbound| then inbound[i] else Disconnect;
      var turn := ProcessFrame(room, received, store, i);
      SessionStep(room, inbound, store, i);
      FannedStep(manager.rooms, room, inbound, store, sendOk, i);
      match turn {
      case Stop(e) =>
        exit, done := e, true;
        assert broadcasts + [] == broadcasts;
      case Broadcast(payload) =>
        SendTurn(manager, room, payload, sendOk, i);
        ghost var later := Session(room, inbound, store, i + 1);
        assert (broadcasts + [payload]) + later.1 == broadcasts + ([payload] + later.1);
        broadcasts := broadcasts + [payload];
        i := i + 1;
      }
    }
  }

  /**
   * `websocket_endpoint` for connection `ws` on `room`. `accepted` says whether
   * the handshake succeeded, `inbound` lists what `receive_json` gives before
   * the client disconnects, `store` answers persistence, and `sendOk(i, c, m)`
   * says whether sending `m` to `c` during frame `i`'s broadcast succeeds.
   */
  method WebSocketEndpoint(manager: WebSocketManager, ws: WebSocket, room: RoomId, accepted: bool,
                           inbound: seq<Received>, store: (nat, Message) -> Stored,
                           sendOk: (nat, WebSocket, Option<Doc>) -> bool)
    returns (exit: Exit, broadcasts: seq<Option<Doc>>)
    modifies manager
    ensures ws !in Members(manager.rooms, room)
    ensures forall r :: r != room ==> (r in manager.rooms <==> r in old(manager.rooms))
    ensures forall r :: r in old(manager.rooms) && r != room ==> manager.rooms[r] == old(manager.rooms)[r]
    ensures Members(manager.rooms, room) <= Members(old(manager.rooms), room) - {ws}
    ensures forall c :: c in Members(old(manager.rooms), room) && c != ws && AlwaysReachable(sendOk, c) ==>
      c in Members(manager.rooms, room)
    ensures !accepted ==> exit == Errored && broadcasts == [] && manager.rooms == Left(old(manager.rooms), room, ws)
    ensures accepted ==> (exit, broadcasts) == Session(room, inbound, store, 0)
    ensures accepted ==> manager.rooms == Left(Fanned(Joined(old(manager.rooms), room, ws), room, inbound, store, sendOk, 0), room, ws)
  {
    if !accepted {
      manager.Remove(room, ws);
      return Errored, [];
    }
    manager.Connect(room, ws);
    FannedOnlyShrinks(manager.rooms, room, inbound, store, sendOk, 0);
    exit, broadcasts := ReceiveLoop(manager, room, inbound, store, sendOk);
    manager.Remove(room, ws);
  }
}
