# Chat backend: room registry, fan-out and connection lifecycle

A Dafny model of the real-time core of a small chat backend (`main.py`):

- **WebSocketManager**, the process-wide registry `rooms: room id -> set of
  connections`, with `connect`, `remove` and `send_to_room` (the fan-out of
  one message to every connection of a room, discarding connections whose
  send failed);
- **serialize_doc**, which turns a stored document into the dictionary sent
  to clients (`_id` renamed to `id`, top-level ObjectIds stringified);
- **websocket_endpoint**, the per-connection loop: subscribe, receive frames,
  default missing `sender`/`content`, persist, broadcast the stored document,
  and remove the connection from its room however the loop ends.

Modules, one per component of `main.py`:

| file | module | what |
|---|---|---|
| wrappers.dfy | Wrappers | `Option` (Python's `None`) |
| documents.dfy | Documents | values, documents, `str(ObjectId)` and its parse, `serialize_doc` |
| rooms.dfy | Rooms | the registry as a map value; what `connect`, `remove`, `send_to_room` make of it; invariants |
| manager.dfy | Manager | class `WebSocketManager` with the field `rooms`, updated in place |
| lifecycle.dfy | Lifecycle | frame defaulting, the receive loop as a session function, `websocket_endpoint` |

The class methods `Connect`, `Remove` and `SendToRoom` are proved to update
`rooms` exactly as the functions `Joined`, `Left` and `Pruned` say, and the
lemmas about those functions carry the properties: entries are created and
deleted as the code says, `remove` is idempotent and undoes `connect`, any
sequence of `connect`/`remove` keeps every room non-empty, while a broadcast in
which every send fails leaves a room mapped to an empty set (the code
discards dead connections but never deletes the entry; a lone client whose
own echo fails leaves such an entry behind until another connection joins
that room, since its later `remove` finds nothing to remove). This is modelled as the code does it.

Modelling choices:

- A connection handle is a value `WebSocket(handle)`; the handle number stands
  for Python's identity comparison of WebSocket objects.
- Transport, store and handshake are parameters: `sendOk(i, c, m)` says
  whether sending `m` to `c` during the broadcast of frame `i` succeeds,
  `store(i, msg)` is the store's answer for frame `i` (the insert raised, or
  the document read back, possibly none), `accepted` whether the handshake
  succeeded, and `inbound` the frames a client sends before it disconnects
  (receiving past its end raises `WebSocketDisconnect`).
- `str(ObjectId)` is the 24-digit lower-case hexadecimal text of its twelve
  bytes, as BSON defines it. `ParseObjectId` is its inverse on 24 hexadecimal
  digits, used to prove that distinct ObjectIds give distinct texts; the bson
  library itself is not part of this model.
- A value that is neither an ObjectId nor a string is kept as the text `str`
  renders it as; nested dictionaries are such values, and `serialize_doc` does
  not look inside them. The comment above `serialize_doc` says
  "recursively", but the code converts top-level values only, and so does the
  model.
- A frame field that is present but not a string (a number, `null`) fails
  validation of the string-typed `Message` field, which raises and ends the
  loop like any other exception. Only missing fields are defaulted.
- Python dictionaries are values here, so "the input document is not
  mutated" holds by construction.

Three behaviours of the code are easy to misread, and the model keeps them:
a room entry is not removed when a broadcast empties it;
a persistence failure ends the receive loop (the exception reaches the
`except Exception` handler) rather than skipping the frame; and nothing
enforces one room per connection (`JoinedKeepsOneRoomEach` needs the
connection to be in no other room).

## Model

| member | source | states |
|---|---|---|
| Documents.DigitValue | main.py:136 | a character read as a hexadecimal digit has a value below 16 |
| Documents.Hexlify | main.py:28 | two hexadecimal digits per byte |
| Documents.Unhexlify | main.py:136 | a successful parse has half as many bytes as the text has characters |
| Documents.ByteDigits | main.py:28 | the two digits written for a byte read back as its high and low halves |
| Documents.UnhexlifyHexlify | main.py:28 | parsing the hexadecimal text of any bytes gives those bytes back |
| Documents.ObjectIdStr | main.py:28 | `str(ObjectId)` is 24 characters long |
| Documents.ParseObjectId | main.py:136 | the parse of an ObjectId text, as `ObjectId(text)` on 24 hexadecimal digits, accepts only 24-character texts |
| Documents.ParseObjectIdStr | main.py:136 | `ObjectId(str(id)) == id` |
| Documents.ObjectIdStrInjective | main.py:28 | distinct ObjectIds give distinct `id` strings |
| Documents.Serialized | main.py:23-33 | a falsy document is returned as is; otherwise no `_id` key, `id = str(old _id)` when `_id` was present, no top-level ObjectId, the keys are the old ones with `_id` renamed, every other value kept unless it was an ObjectId, which becomes its text |
| Documents.SerializedIdempotent | main.py:23-33 | serializing a serialized document changes nothing |
| Documents.SerializeDoc | main.py:26-33 | the copy-rename-convert loop over a snapshot of the items computes `Serialized` |
| Rooms.Joined | main.py:95-97 | after `connect` the room's entry exists, holds the connection and every earlier member and nothing else; every other entry is unchanged |
| Rooms.Left | main.py:100-104 | `remove` changes nothing when the connection is not in the room; otherwise the connection is gone, every other member stays, the entry is deleted exactly when the connection was its last member, and other entries are unchanged |
| Rooms.Pruned | main.py:116-117 | discarding the dead connections keeps exactly the room's other members; no entry is created or deleted, other entries are unchanged, and an absent room is left absent |
| Rooms.JoinedKeepsNoEmptyRoom | main.py:95-97 | `connect` keeps every room non-empty |
| Rooms.LeftKeepsNoEmptyRoom | main.py:100-104 | `remove` keeps every room non-empty |
| Rooms.ReplayKeepsNoEmptyRoom | main.py:95-104 | any sequence of `connect` and `remove` calls keeps every room non-empty |
| Rooms.LeftIdempotent | main.py:100-104 | removing twice equals removing once |
| Rooms.JoinedIdempotent | main.py:95-97 | connecting twice equals connecting once |
| Rooms.LeftUndoesJoined | main.py:95-104 | `remove` after `connect` of a new member restores the registry, provided the room had a non-empty entry or none |
| Rooms.PrunedOnlyShrinks | main.py:116-117 | a broadcast never adds a member to any room |
| Rooms.AllFailedLeavesEmptyRoom | main.py:116-117 | when every member is dead the room stays mapped to the empty set, so "no empty room" no longer holds |
| Rooms.LoneFailedEchoLeavesEmptyRoom | main.py:129-141 | a lone subscriber of a new room whose echo fails, then removed, leaves the room mapped to the empty set |
| Rooms.LeftKeepsOneRoomEach | main.py:100-104 | `remove` keeps each connection in at most one room |
| Rooms.PrunedKeepsOneRoomEach | main.py:116-117 | a broadcast keeps each connection in at most one room |
| Rooms.JoinedKeepsOneRoomEach | main.py:95-97 | `connect` keeps each connection in at most one room when the connection is in no other room |
| Manager.AppendNewRecipient | main.py:111-113 | an attempt to a connection not yet sent to adds it to the recipients and keeps every connection sent to once |
| Manager.TrySends | main.py:110-115 | every connection of the snapshot gets exactly one attempt, all with the same message, and `dead` holds exactly those whose send failed |
| Manager.WebSocketManager.constructor | main.py:90 | the registry starts empty |
| Manager.WebSocketManager.Connect | main.py:95-97 | the new registry is `Joined` of the old one |
| Manager.WebSocketManager.Remove | main.py:100-104 | the new registry is `Left` of the old one |
| Manager.WebSocketManager.SendToRoom | main.py:107-117 | an absent room gets no sends; otherwise each member of the pre-send snapshot gets exactly one attempt of the same message; the new registry is the old one `Pruned` of exactly the members whose send failed |
| Lifecycle.MessageFrom | main.py:133 | a missing `sender` becomes "Anon" and a missing `content` ""; a message is built exactly when each field is missing or a string, with the frame's strings and the connection's room |
| Lifecycle.ProcessFrame | main.py:131-137 | one pass of the loop body (build the message, persist, read back, serialize) computes the turn `TurnOf` describes |
| Lifecycle.Session | main.py:128-141 | a session broadcasts at most once per frame |
| Lifecycle.BroadcastsFollowStores | main.py:133-137 | the j-th broadcast is the serialized stored document of the j-th frame: nothing is broadcast for a frame that was not stored, and order of receipt is kept |
| Lifecycle.LenientFramesAllBroadcast | main.py:130-137 | frames whose fields are missing or strings are never rejected: with a store that keeps everything, every frame is broadcast and the loop ends only by disconnect |
| Lifecycle.TurnOfBroadcastsStored | main.py:130-137 | a turn broadcasts only for an object frame that gives a message the store kept, and then broadcasts the serialized stored document; the turn stops with a disconnect exactly when the client disconnected |
| Lifecycle.FannedOnlyShrinks | main.py:107-137 | the broadcasts of the receive loop keep the registry's keys and other rooms, add nobody to the room, and keep every member whose sends never fail |
| Lifecycle.LoneFailedEchoEndpoint | main.py:127-141 | the lone subscriber of a new room whose one stored frame's echo fails leaves, once removed, the room mapped to the empty set |
| Lifecycle.SendTurn | main.py:137 | the broadcast of one turn leaves the registry `Pruned` of exactly the members whose send of that turn failed |
| Lifecycle.ReceiveLoop | main.py:130-137 | the receive loop ends the way `Session` says, with the broadcasts it lists, and leaves the registry as `Fanned` says |
| Lifecycle.WebSocketEndpoint | main.py:127-141 | on every way out the connection is no longer in its room; other rooms are unchanged; the room loses members but gains none; members whose sends never fail stay; a failed handshake only runs `remove`; otherwise the way out and the broadcasts are those of `Session`, and the final registry is exactly `Left(Fanned(Joined(old registry)))`, the subscribe, the loop's prunes and the final `remove` in turn |

## Left out

- `broadcast_to_room` (main.py:120-123): it only schedules `send_to_room` on the event loop; fire-and-forget scheduling is concurrency, not sequential behaviour.
- Interleavings at `await` points: the code takes no lock, so a concurrent `remove` between the two loops of `send_to_room` is outside a sequential model.
- A `BaseException` that is not an `Exception` (task cancellation at shutdown) skips both handlers of `websocket_endpoint`, so `remove` is not run; cancellation is not modelled.
- The REST handlers, app setup, CORS middleware and the `/test` diagnostics (main.py:10-85, 144-178): HTTP plumbing, configuration and I/O.
- The document store (`create_document`, `get_documents`, `find_one`, `find().sort().limit()`): database.py is not part of this model; persistence is the `store` parameter.
- WebSocket transport (`accept`, `receive_json`, `send_json`): the parameters `accepted`, `inbound` and `sendOk`.
- schemas.py declares data shapes only; `Message` gives the fields of the `Message` datatype.
- Lifecycle.WebSocketEndpoint: does not return the individual send attempts of each broadcast; `SendToRoom` states them for one broadcast.
- Documents.ParseObjectId: `bytes.fromhex`, which bson's `ObjectId(text)` relies on, also skips whitespace between digit pairs; the model's parse accepts digits only, as the inverse of `ObjectIdStr`.
- Lifecycle.Session: states a bound on the number of broadcasts; which broadcasts they are is stated by `BroadcastsFollowStores`.
