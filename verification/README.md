# The conferencing control plane, verified

A Dafny model of the media control plane of this repository: the C++ signaling engine, the Node.js
mediasoup server it commands, and the stateful parts around them that decide who may speak and how fast.

- `MediaTypes`: commands, events and backend answers.
- `SfuEngine`, `SfuEngineObject`, `SfuEngineRuns`: the engine's five maps. `Perform` says what one command
  does; the class does it on fields with the source's loops and is proved to do the same; the run theorems
  give the ownership graph and an event log that replays to the state. `SfuEngineEffects` says of each command
  when it succeeds and what holds then, which disconnects count, and who is told what.
- `SfuBackend`, `SfuBackendClosing`, `SfuBackendOps`, `SfuBackendOpsSound`, `SfuBackendEffects`,
  `SfuBackendServer`: the mediasoup
  server's tables over a library of handles that live on one another. Closing anything kills what lives on
  it and makes callbacks due, which come back in any order, also from inside a `close()`.
- `SfuMirror`, `SfuMirrorEquality`: both sides together, over whole runs with worker deaths and DTLS closes:
  the server is always contained in the engine, and when exactly the two are equal.
- `WorkerPool`, `InterleavedJoins`, `JoinLimits`: load, the pick of a worker, joins split at their awaits, and
  which limits survive that.
- `SocketQueue`: queues, drains and the two shared counters.
- `RatePolicy`, `SignalingGateway`: the sliding and the fixed window, and the gateway's peer names.
- `SessionAuth`, `AuthenticatedDispatch`: the session store with its indexes, and what a connection must have
  done before a request of its reaches a module.
- `OutboundQueue`: a WebSocket session's single writer.
- `OfflineOutbox`: the retry machine for messages to recipients who are offline.

Where the source changes state in place the model is a class; each method is tied to a function of the old
state, and the theorems are about that function. `dafny verify dfyconfig.toml` checks everything.

Assumptions the theorems rest on:

- A backend call takes effect and its answer arrives, or it has no effect. `SfuMirror.LostAnswerBreaksContainment`
  shows what happens otherwise.
- The engine is the server's only client, and identifiers carry no surrounding whitespace (the server trims
  them, the engine does not).
- In `SfuBackendServer` handlers run one at a time. The library runs every callback registered for a close
  once the handle is dead, whatever it died of; a callback run from inside a `close()` is for a dead entry.
  A callback that comes so late that its id is in use again closes the new entry, as in the source.
- Handlers of one WebSocket connection run one after the other, on its strand.

What the code does, where one might expect something else:

- `TrackPublished` carries the command's room id, not the transport's; tracks are therefore replayed by
  producer id. Pausing emits `TrackClosed` and resuming emits `TrackPublished`.
- A peer that has joined two rooms has only the later one in `peers_`; the invariant runs from `peers_` to
  rooms, not back.
- The limits per room and in total are checked before an await and not after it, and interleaving breaks them
  (`InterleavedJoins.RoomLimitDoesNotHold`, `TotalLimitDoesNotHold`). A check that also counted the joins
  under way would keep them, and nothing less would (`JoinLimits.RoomLimitHolds`, `JoinSafeIff`). Only the
  limit per worker is checked again, and holds.
- The engine and the server part company without any failure when an id is taken again while the close
  callback of its former bearer is still due (`SfuMirrorEquality.LateCallbackDisagrees`,
  `AgreementSurvivesIff`).
- Closing a WebSocket session empties the queue without waiting for the write in progress, which is sending
  from the queue's head; so the write in progress is the queue head's only until then
  (`OutboundQueue.CloseTakesTheHeadAway`, `HeadIffNotClosing`).
- An outbox row whose dispatcher stops between claim and mark stays claimed for good
  (`OfflineOutbox.ClaimedWaitsForItsMark`).
- The claim query answers a null target peer for every row it can claim, and the dispatcher reads that field as
  a string. If the JSON library refuses to make a string of null, the round ends at its first row, and with it
  the thread; `OfflineOutbox.MessengerRepository.DispatchBatch` then deals with no row.

## Model

| member | source | states |
|---|---|---|
| `SfuEngineObject.MediasoupSfuEngine.ExecuteIntent` | EDS_serverNew/Bridge/Mediasoup/service/MediasoupSfuEngine.cpp:1064-1609 | One command on the five maps, with its status and its events: validation and its messages in order, the backend call, and the update made only when the backend accepts, are those of `Perform`, about which the run theorems below speak. |
| `SfuEngineObject.MediasoupSfuEngine.OnSessionDisconnected` | EDS_serverNew/Bridge/Mediasoup/service/MediasoupSfuEngine.cpp:206-232 | A lost session leaves its latest room, unless its peer is unknown or has since joined under another session handle. |
| `SfuEngineObject.MediasoupSfuEngine.LeaveSession` | EDS_serverNew/Bridge/Mediasoup/service/MediasoupSfuEngine.cpp:967-1062 | Leaving: the peer, its transports, producers and consumers, and all consumers of its producers go; one TrackClosed per producer in the order they were collected, then PeerLeft, SessionClosed and, if the room is empty, SessionEnded; refused or rejected, nothing changes. |
| `SfuEngineObject.MediasoupSfuEngine.ClearPeerRuntime` | EDS_serverNew/Bridge/Mediasoup/service/MediasoupSfuEngine.cpp:932-965 | The three erase loops drop exactly the transports and producers of that room and peer, and the consumers that are its own or of a closing producer. |
| `SfuEngineObject.MediasoupSfuEngine.CollectClosingProducers` | EDS_serverNew/Bridge/Mediasoup/service/MediasoupSfuEngine.cpp:986-994 | The scan lists each producer of that room and peer once. |
| `SfuEngineObject.MediasoupSfuEngine.CollectRoomPeers` | EDS_serverNew/Bridge/Mediasoup/service/MediasoupSfuEngine.cpp:907-919 | The copied member list is the room's membership. |
| `SfuEngineObject.MediasoupSfuEngine.CollectProducerSnapshots` | EDS_serverNew/Bridge/Mediasoup/service/MediasoupSfuEngine.cpp:921-930 | The snapshot holds the producers of the room and no others. |
| `SfuEngineObject.MediasoupSfuEngine.ChangeTrackFor` | EDS_serverNew/Bridge/Mediasoup/service/MediasoupSfuEngine.cpp:1286-1382 | Pause, resume and close: the checks, then on acceptance one event; only a close changes the maps, dropping the producer and its consumers of the same room. |
| `SfuEngineObject.MediasoupSfuEngine.ConsumeTrackFor` | EDS_serverNew/Bridge/Mediasoup/service/MediasoupSfuEngine.cpp:1383-1457 | The checks of transport and producer, then a consumer under the id the backend answers with, or none if no id is known. |
| `SfuEngineObject.MediasoupSfuEngine.PublishTrackFor` | EDS_serverNew/Bridge/Mediasoup/service/MediasoupSfuEngine.cpp:1224-1285 | The new producer belongs to its transport's room and peer, with kind and track type as the backend answers; the event carries the command's room id. |
| `SfuEngineObject.MediasoupSfuEngine.ApplySignalFor` | EDS_serverNew/Bridge/Mediasoup/service/MediasoupSfuEngine.cpp:1507-1567 | An offer is checked against the transport and forwarded with the room filled in; an ICE candidate is checked and goes nowhere. |
| `SfuEngineRuns.PerformKeepsGraph` | EDS_serverNew/Bridge/Mediasoup/service/MediasoupSfuEngine.cpp:1064-1609 | Every command, with any backend answer, keeps the ownership graph. |
| `SfuEngineRuns.LeaveKeepsGraph` | EDS_serverNew/Bridge/Mediasoup/service/MediasoupSfuEngine.cpp:932-965 | Removing a peer leaves no producer without its transport and no consumer without its transport or producer. |
| `SfuEngineRuns.ConsumeKeepsGraph` | EDS_serverNew/Bridge/Mediasoup/service/MediasoupSfuEngine.cpp:1383-1457 | A new consumer is linked to a transport of its own room and peer and to a producer of its room, whose owner it names. |
| `SfuEngineRuns.GraphAlways` | EDS_serverNew/Bridge/Mediasoup/service/MediasoupSfuEngine.cpp:932-1609 | After every run: each `peers_` entry names a room that has the peer, each transport's peer is a member of its room, each producer's transport has its room and peer, each consumer's transport has its room and peer and its producer is in the same room, owned by `producerPeerId`. |
| `SfuEngineRuns.PerformExplained` | EDS_serverNew/Bridge/Mediasoup/service/MediasoupSfuEngine.cpp:995-1059 | The events of one command account exactly for the change of each room's members, of the tracks on air and of the room's being occupied. |
| `SfuEngineRuns.MembershipReplays` | EDS_serverNew/Bridge/Mediasoup/service/MediasoupSfuEngine.cpp:995-1059 | Folding all PeerJoined and PeerLeft events ever emitted gives each room's membership, and every one of them carries the membership as of that moment. |
| `SfuEngineRuns.TracksReplay` | EDS_serverNew/Bridge/Mediasoup/service/MediasoupSfuEngine.cpp:1264-1379 | Folding TrackPublished and TrackClosed by producer id gives exactly the producers whose last pause, resume or publication was not a pause. |
| `SfuEngineRuns.LifecycleAlternates` | EDS_serverNew/Bridge/Mediasoup/service/MediasoupSfuEngine.cpp:1048-1171 | Per room, SessionStarted and SessionEnded strictly alternate from a start, over re-creations too, and the room has members iff the last was a start. |
| `SfuEngineRuns.FailedCommandsAreNoOps` | EDS_serverNew/Bridge/Mediasoup/service/MediasoupSfuEngine.cpp:967-1609 | A command that is not ok leaves all five maps as they were and emits exactly one event, a TransportError with the status's message; one that is ok emits none. |
| `SfuEngineEffects.DisconnectRemoves` | EDS_serverNew/Bridge/Mediasoup/service/MediasoupSfuEngine.cpp:206-232 | Over every run: the loss of the connection under which a peer last joined, or one where either handle is unknown, takes the peer out of its latest room, with everything it held there and the consumers of its producers, and logs one departure, with reason "disconnected". |
| `SfuEngineEffects.StaleDisconnectIgnored` | EDS_serverNew/Bridge/Mediasoup/service/MediasoupSfuEngine.cpp:221-223 | The late loss of an older connection of a peer that has joined again changes nothing and emits nothing. |
| `SfuEngineEffects.UnknownDisconnectIgnored` | EDS_serverNew/Bridge/Mediasoup/service/MediasoupSfuEngine.cpp:215-219 | So does the loss of a peer without an entry. |
| `SfuEngineEffects.PeersRemember` | EDS_serverNew/Bridge/Mediasoup/service/MediasoupSfuEngine.cpp:1135-1138 | A peer's entry is that of its last successful join: its room and its handle. |
| `SfuEngineEffects.CreateEffects` | EDS_serverNew/Bridge/Mediasoup/service/MediasoupSfuEngine.cpp:1082-1108 | A room is created exactly if it is named and new, and the backend accepts or says that it exists already. |
| `SfuEngineEffects.AlreadyExistsMeans` | EDS_serverNew/Bridge/Mediasoup/service/MediasoupSfuEngine.cpp:1097-1100 | That is, if the refusal contains "already exists" in any capitals. |
| `SfuEngineEffects.JoinEffects` | EDS_serverNew/Bridge/Mediasoup/service/MediasoupSfuEngine.cpp:1109-1138 | A join succeeds exactly if room and peer are named, the room exists and the backend accepts; then the peer is a member and has its entry. |
| `SfuEngineEffects.OpenEffects` | EDS_serverNew/Bridge/Mediasoup/service/MediasoupSfuEngine.cpp:1177-1223 | A transport is opened exactly for a member, under a new id, if the backend accepts; it belongs to that room and peer. |
| `SfuEngineEffects.PublishEffects` | EDS_serverNew/Bridge/Mediasoup/service/MediasoupSfuEngine.cpp:1224-1285 | A producer is published exactly under a new id on a known transport, if the backend accepts; it belongs to the transport's room and peer, and has the backend's kind and track type, or else the command's. |
| `SfuEngineEffects.PauseResumeEffects` | EDS_serverNew/Bridge/Mediasoup/service/MediasoupSfuEngine.cpp:1286-1382 | Pausing and resuming succeed exactly for the peer's own producer in the room named, if any, when the backend accepts, and change no map. |
| `SfuEngineEffects.CloseEffects` | EDS_serverNew/Bridge/Mediasoup/service/MediasoupSfuEngine.cpp:1327-1350 | A close removes exactly the producer and its consumers of the same room. |
| `SfuEngineEffects.ConsumeEffects` | EDS_serverNew/Bridge/Mediasoup/service/MediasoupSfuEngine.cpp:1383-1457 | A consumer needs the peer's own transport and a producer of the same room; it is recorded under the backend's id, or else the command's. |
| `SfuEngineEffects.ResumeConsumerEffects` | EDS_serverNew/Bridge/Mediasoup/service/MediasoupSfuEngine.cpp:1458-1506 | Only the peer's own consumer is resumed, and nothing else changes. |
| `SfuEngineEffects.SignalEffects` | EDS_serverNew/Bridge/Mediasoup/service/MediasoupSfuEngine.cpp:1507-1567 | Offers and candidates are for the peer's own transport in the room named, if any; only the offer needs the backend. |
| `SfuEngineEffects.StatsEffects` | EDS_serverNew/Bridge/Mediasoup/service/MediasoupSfuEngine.cpp:1568-1576 | Statistics are the backend's to give and change nothing. |
| `SfuEngineEffects.LeaveSucceeds` | EDS_serverNew/Bridge/Mediasoup/service/MediasoupSfuEngine.cpp:967-1062 | A leave succeeds exactly for a member, if the backend accepts; it strips the peer of all it held in the room and logs one departure, with reason "left". |
| `SfuEngineEffects.CloseSessionSucceeds` | EDS_serverNew/Bridge/Mediasoup/service/MediasoupSfuEngine.cpp:1577-1603 | A close leaves the room it names, or the latest; without an entry there is nothing to close. |
| `SfuEngineEffects.EventsAddressed` | EDS_serverNew/Bridge/Mediasoup/service/MediasoupSfuEngine.cpp:995-1500 | Every event of every run says what is so and goes to those concerned: a newcomer's room state lists exactly the members and the producers of the room; departures, joins and tracks go to the others; what is a peer's own goes to it alone. |
| `SfuEngineEffects.JoinAnnounced` | EDS_serverNew/Bridge/Mediasoup/service/MediasoupSfuEngine.cpp:1140-1171 | A join emits the room state, the joining and, if the room was empty, the start of its session, in that order. |
| `SfuEngineEffects.BackendAsked` | EDS_serverNew/Bridge/Mediasoup/service/MediasoupSfuEngine.cpp:330-365 | Each intent calls its own operation, with the command as it came but for the room the engine fills in. |
| `SfuBackendServer.MediasoupServer.CloseEntry` | apps/mediasoup-server/src/server.js:1906-1953 | Closing by id takes the entry out first and then closes the handle; an absent id is a no-op. |
| `SfuBackendServer.MediasoupServer.Reenter` | apps/mediasoup-server/src/server.js:1217-1225 | Close callbacks that run from inside a close find dead entries or none, remove only those, and end. |
| `SfuBackendServer.MediasoupServer.SafeCloseById` | apps/mediasoup-server/src/server.js:1906-1953 | Closing one entry, with callbacks running from inside the close: exactly what lived on its handle is dead, no live entry is lost, no entry's handle is closed twice, and no callback is due but those of what died. |
| `SfuBackendServer.MediasoupServer.ClosePeerResources` | apps/mediasoup-server/src/server.js:1955-1972 | The three loops over snapshots leave the peer nothing in the room and kill nothing that does not live on what it held. |
| `SfuBackendServer.MediasoupServer.CloseRoom` | apps/mediasoup-server/src/server.js:1974-1992 | Afterwards no transport, producer or consumer of the room remains, and its peers, router and assignment are gone; other rooms keep theirs, and no router is closed twice. |
| `SfuBackendServer.MediasoupServer.RemovePeer` | apps/mediasoup-server/src/server.js:1127-1187 | What the peer held is closed and it leaves the room; the last peer takes the room along. |
| `SfuBackendServer.MediasoupServer.OpLeavePeer` | apps/mediasoup-server/src/server.js:1127-1187 | Leaving, and `closePeer`, which does the same: an empty room or peer id is refused and changes nothing. |
| `SfuBackendServer.MediasoupServer.OpCloseProducer` | apps/mediasoup-server/src/server.js:1412-1456 | The producer and every consumer of it are closed; an unknown producer or a foreign peer is refused and changes nothing. |
| `SfuBackendServer.MediasoupServer.RunCallback` | apps/mediasoup-server/src/server.js:1321-1326 | A late callback closes whatever bears its id by then; either handles die or fewer callbacks are due. |
| `SfuBackendServer.MediasoupServer.DrainCallbacks` | apps/mediasoup-server/src/server.js:1500-1508 | Callbacks taken in any order run dry, and then every entry's links lead to entries of the same room and peer. |
| `SfuBackendServer.MediasoupServer.CloseRooms` | apps/mediasoup-server/src/server.js:1692-1700 | The rooms of a dead worker are closed one by one, whatever the order. |
| `SfuBackendServer.MediasoupServer.WorkerDied` | apps/mediasoup-server/src/server.js:1672-1705 | A worker's death removes it from the pool, with everything that lived on it, and closes exactly the rooms whose routers it hosted, with everything in them. |
| `SfuBackendServer.MediasoupServer.EnsureRouter` | apps/mediasoup-server/src/server.js:1878-1904 | A live router on a pool worker is reused, a stale one is closed and replaced; an assignment may remain when creation fails. |
| `SfuBackendServer.MediasoupServer.OpJoinPeer` | apps/mediasoup-server/src/server.js:1103-1119 | A join runs its checks around the router and then adds the peer; the answer tells which. |
| `SfuBackendServer.MediasoupServer.OpCreateWebRtcTransport` | apps/mediasoup-server/src/server.js:1189-1246 | Only for a joined peer, on the room's live router, under an id not taken after the router is ready. |
| `SfuBackendServer.MediasoupServer.OpProduce` | apps/mediasoup-server/src/server.js:1291-1348 | The producer takes room and peer from its transport and a default track type from its kind. |
| `SfuBackendServer.MediasoupServer.OpConsume` | apps/mediasoup-server/src/server.js:1458-1546 | The consumer takes room and peer from its transport; the producer must be of the same room. |
| `SfuBackendServer.MediasoupServer.OpOnEntry` | apps/mediasoup-server/src/server.js:1253-1412 | Pausing, resuming, connecting and statistics change no table; they are answered when the entry is there and, for producers, the peer's own, unless the library fails. |
| `SfuBackendServer.MediasoupServer.HandleOperation` | apps/mediasoup-server/src/server.js:715-807 | Every operation, dispatched by name, does and answers what the mirror theorems assume of it, and keeps the state sound; a request refused at the door changes nothing. |
| `SfuBackend.QuiescentIntegrity` | apps/mediasoup-server/src/server.js:1906-1992 | With no callback due, nothing dead is in the tables and every link leads to an entry of the same room and peer. |
| `SfuBackend.SafeCloseSound` | apps/mediasoup-server/src/server.js:1906-1953 | Closing one entry keeps: handles own their entries, no handle closed twice, dead entries have their callback due, live ones have everything they live on. |
| `SfuBackend.ShrunkSound` | apps/mediasoup-server/src/server.js:1955-1992 | Any closing that loses no live entry keeps the links. |
| `SfuBackendClosing.ShrunkToGoal` | apps/mediasoup-server/src/server.js:1955-1972 | When every target of a loop is gone, all their handles are dead, whether the loop or a callback closed them. |
| `SfuBackendClosing.QuietDelivery` | apps/mediasoup-server/src/server.js:1217-1225 | A callback for a dead or missing entry tidies the tables and kills nothing. |
| `SfuBackendClosing.DeliverySound` | apps/mediasoup-server/src/server.js:1321-1326 | A callback that hits an id in use again still leaves the tables sound. |
| `SfuBackendClosing.RoomDropped` | apps/mediasoup-server/src/server.js:1974-1992 | Forgetting an emptied room, its router and its assignment keeps every other room sound. |
| `SfuBackendOpsSound.HandlesSound` | apps/mediasoup-server/src/server.js:1080-1546 | Operations that add take a sound state to a sound one; of those that close, soundness is part of the effect that `RemovePeer` and `OpCloseProducer` are proved to have. |
| `SfuBackendOpsSound.EnsureRoomRouterSound` | apps/mediasoup-server/src/server.js:1878-1904 | Once a room has a router it is live on its worker, so ensuring it changes nothing. |
| `SfuBackendEffects.RouterEffects` | apps/mediasoup-server/src/server.js:1878-1904 | A room with a live router on a pool worker keeps it; another gets one exactly if its worker, or the one picked, is in the pool and makes it; nothing else changes. |
| `SfuBackendEffects.JoinEffects` | apps/mediasoup-server/src/server.js:1103-1119 | A join answers exactly if both checks and the router succeed; then the peer is in the room. |
| `SfuBackendEffects.OpenEffects` | apps/mediasoup-server/src/server.js:1189-1246 | A transport is made exactly for a joined peer under a free id, if limits and library allow; it is entered with its room, peer and handle. |
| `SfuBackendEffects.ProduceEffects` | apps/mediasoup-server/src/server.js:1291-1348 | A producer is made exactly on a live transport under a free id; without a track type it is "camera" for video and "microphone" for everything else. |
| `SfuBackendEffects.ConsumeEffects` | apps/mediasoup-server/src/server.js:1458-1546 | A consumer is made exactly on a live transport for a live producer of the same room, under the id given or one made from the producer's; the answer says which. |
| `SfuBackendEffects.ProducerOwner` | apps/mediasoup-server/src/server.js:1350-1456 | Pausing, resuming and closing a producer are refused to any peer but its own. |
| `SfuBackendEffects.EntryAnswers` | apps/mediasoup-server/src/server.js:1253-1267 | Resuming a consumer and connecting a transport are answered exactly if the entry is there and the library does it. |
| `SfuBackendEffects.LeaveEffects` | apps/mediasoup-server/src/server.js:1127-1187 | Who leaves is out of the room and holds nothing in it; a room without peers is gone with its router and worker. |
| `SfuBackendEffects.WorkerDeathEffects` | apps/mediasoup-server/src/server.js:1672-1705 | A worker's death empties exactly the rooms whose routers it hosted. |
| `SfuMirror.ServerWithinEngine` | EDS_serverNew/Bridge/Mediasoup/service/MediasoupSfuEngine.cpp:932-1609 | Over every run of commands, late callbacks, DTLS closes and worker births and deaths: everyone joined and everything alive on the server is in the engine's maps with the same room, peer and links. |
| `SfuMirror.QuiescentContainment` | apps/mediasoup-server/src/server.js:1103-1546 | With no callback outstanding, every entry of the server's tables is in the engine's maps, link by link. |
| `SfuMirror.LostAnswerBreaksContainment` | EDS_serverNew/Bridge/Mediasoup/service/MediasoupSfuEngine.cpp:1109-1134 | Why answers must arrive: a join that took effect but whose answer is lost leaves a peer on the server that the engine does not know. |
| `SfuMirror.StepMirrored` | apps/mediasoup-server/src/server.js:1103-1705 | Each single step keeps containment; it keeps agreement too unless something closes by itself or a callback finds a live entry. |
| `SfuMirror.LeaverTransports` | apps/mediasoup-server/src/server.js:1955-1992 | After a leave exactly the leaver's transports are no longer alive, also when its room goes with it. |
| `SfuMirror.LeaverConsumers` | apps/mediasoup-server/src/server.js:1955-1992 | After a leave exactly the leaver's consumers, and everyone's consumers of its producers, are no longer alive. |
| `SfuMirror.CloseMirrored` | EDS_serverNew/Bridge/Mediasoup/service/MediasoupSfuEngine.cpp:1327-1350 | Closing a track removes the same producer and the same consumers on both sides. |
| `SfuMirror.ConsumeMirrored` | EDS_serverNew/Bridge/Mediasoup/service/MediasoupSfuEngine.cpp:1383-1457 | A consumer accepted by the server enters the engine under the id, kind and track type the server gave it. |
| `SfuMirrorEquality.EngineAgreesWithServer` | EDS_serverNew/Bridge/Mediasoup/service/MediasoupSfuEngine.cpp:932-1609 | As long as nothing closes by itself, no worker dies, and no accepted open, publish or consume takes an id whose close callback is still due, the engine's maps are exactly what is alive on the server, and no due callback would find a live entry. |
| `SfuMirrorEquality.QuiescentEquality` | apps/mediasoup-server/src/server.js:1103-1546 | In such a run, with no callback outstanding, both sides hold the same transports, producers and consumers, with the same rooms, peers and links. |
| `SfuMirrorEquality.QuiescentMembers` | apps/mediasoup-server/src/server.js:1103-1187 | In such a run both sides have the same members in every room at every moment. |
| `SfuMirrorEquality.AgreementSurvivesIff` | apps/mediasoup-server/src/server.js:1321-1326 | Exactly when a step of such a run leaves the two sides equal whatever callback runs next: when it takes no id whose callback is still due. |
| `SfuMirrorEquality.DueIdLosesAgreement` | apps/mediasoup-server/src/server.js:1321-1326 | After a command has taken a due id, the delivery of that callback ends the equality. |
| `SfuMirrorEquality.LateCallbackDisagrees` | apps/mediasoup-server/src/server.js:1321-1326 | A run in which it happens: a producer is published, closed and published again under the same id, and then the first one's callback closes the second. |
| `SfuMirrorEquality.ClosingItselfIff` | apps/mediasoup-server/src/server.js:1214-1225 | A transport, producer or consumer that closes by itself ends the equality exactly if it was alive. |
| `SfuMirrorEquality.WorkerDeathIff` | apps/mediasoup-server/src/server.js:1672-1705 | A worker that dies ends the equality exactly if one of its rooms has peers. |
| `SfuMirrorEquality.HeldAlways` | apps/mediasoup-server/src/server.js:1227-1227 | In every run a live handle is the one its id's entry holds. |
| `SfuMirrorEquality.StepQuiet` | apps/mediasoup-server/src/server.js:1906-1992 | Closing makes due only the callbacks of what died, and these find their entry dead or gone. |
| `WorkerPool.WorkerContexts.BuildWorkerLoadSnapshot` | apps/mediasoup-server/src/server.js:547-572 | The one pass over the assignments gives each pool worker its number of rooms and its number of room members over them. |
| `WorkerPool.WorkerContexts.ScanWorkers` | apps/mediasoup-server/src/server.js:1742-1795 | The rotated scan returns the least eligible worker by projected peers, then rooms, then distance from the cursor, and none iff none is eligible. |
| `WorkerPool.WorkerContexts.PickWorkerContextForRoom` | apps/mediasoup-server/src/server.js:1742-1805 | The pick is assigned to the room and the cursor moves past it; failing changes nothing. |
| `WorkerPool.WorkerContexts.WorkerPeerCapacityForJoin` | apps/mediasoup-server/src/server.js:574-599 | A join fits iff the peer is already there, the room is on no worker that is up, or the worker has room for one more. |
| `WorkerPool.WorkerContexts.FinishJoin` | apps/mediasoup-server/src/server.js:1107-1109 | The second check and the addition keep every worker that is up within its limit. |
| `WorkerPool.WorkerContexts.RemoveWorkerContext` | apps/mediasoup-server/src/server.js:1711-1716 | The worker leaves the pool and the cursor stays inside it. |
| `WorkerPool.ScanStep` | apps/mediasoup-server/src/server.js:1752-1795 | Looking at one more worker keeps the best of those seen; ties stay with the one nearer to the cursor. |
| `WorkerPool.RotationReachesAll` | apps/mediasoup-server/src/server.js:1752-1754 | The rotated scan visits every index, at its own distance. |
| `WorkerPool.PickUnique` | apps/mediasoup-server/src/server.js:1742-1805 | There is never a choice between two picks. |
| `WorkerPool.PickIsLeast` | apps/mediasoup-server/src/server.js:1742-1795 | The pick is up and has room for everybody in the room; among all such workers it serves the fewest peers, then the fewest rooms, then comes first in the scan. |
| `WorkerPool.PeerAddedWithinCap` | apps/mediasoup-server/src/server.js:574-599 | Adding a peer that fits overloads no worker. |
| `WorkerPool.AssignmentWithinCap` | apps/mediasoup-server/src/server.js:1742-1805 | Giving an eligible worker a room that no pool worker serves overloads no worker. |
| `WorkerPool.OneRoomMore` | apps/mediasoup-server/src/server.js:559-569 | Each assignment adds one room and its members to its own worker only. |
| `InterleavedJoins.WorkerLimitHolds` | apps/mediasoup-server/src/server.js:1103-1119 | However joins, departures and worker births and deaths interleave at the awaits, no worker that is up ever serves more than its limit. |
| `InterleavedJoins.RunSound` | apps/mediasoup-server/src/server.js:1641-1664 | In the same runs worker ids are never reused, no room is assigned to a worker still starting, and the cursor stays in the pool. |
| `InterleavedJoins.StepSound` | apps/mediasoup-server/src/server.js:1878-1904 | Each step between two awaits keeps the limit and what it rests on. |
| `InterleavedJoins.WorkerReadySound` | apps/mediasoup-server/src/server.js:1641-1664 | A worker joins the pool with no load. |
| `InterleavedJoins.RoomLimitDoesNotHold` | apps/mediasoup-server/src/server.js:611-625 | The limit per room, checked only before the awaits, does fail: two joins of an empty room, limit one, both finish. |
| `InterleavedJoins.TotalLimitDoesNotHold` | apps/mediasoup-server/src/server.js:611-625 | So does the limit on all peers together. |
| `JoinLimits.RoomLimitHolds` | apps/mediasoup-server/src/server.js:1103-1119 | Over every run: if each admitted join of a room found space for itself, the peers in the room and those on their way to it, the room never exceeds its limit. |
| `JoinLimits.TotalLimitHolds` | apps/mediasoup-server/src/server.js:1103-1119 | The same for all peers together. |
| `JoinLimits.JoinSafeIff` | apps/mediasoup-server/src/server.js:611-625 | Checked on arrival, exactly: admitting a join can lead to a room over its limit, without any further arrival, if and only if the newcomer, those in the room and those on their way are more than the limit. |
| `JoinLimits.RoomLimitExactly` | apps/mediasoup-server/src/server.js:1103-1119 | After any run: the room cannot come to exceed its limit without further arrivals if and only if those in it and on their way are no more than the limit. |
| `JoinLimits.TotalLimitExactly` | apps/mediasoup-server/src/server.js:1103-1119 | The same for all peers together. |
| `InterleavedJoins.RoomLimitKeptIff` | apps/mediasoup-server/src/server.js:1107-1109 | The last step of a join by itself: it keeps the room in its limit iff the peer is there already, the worker refuses, or there is room. What this means for runs is stated by the rows above. |
| `JoinLimits.EveryoneArrives` | apps/mediasoup-server/src/server.js:1878-1904 | Every suspended join can be brought to its end: a fresh worker takes the room if none serves it, and a closed one refuses nobody. |
| `JoinLimits.StepExpected` | apps/mediasoup-server/src/server.js:1103-1119 | Only an admitted join brings in somebody who was neither there nor on the way. |
| `JoinLimits.JoinTurnedAwayIff` | apps/mediasoup-server/src/server.js:611-625 | A newcomer is turned away, and nothing changes, exactly if the room is full, or all rooms together are, or a router is needed and there are as many as there may be, or the room's worker is full. |
| `JoinLimits.OneByOneInLimit` | apps/mediasoup-server/src/server.js:1103-1119 | If no join of a room is admitted while another one is under way, the check on arrival is enough for the room's limit. |
| `JoinLimits.OneByOneLimit` | apps/mediasoup-server/src/server.js:1103-1119 | The same for all peers together. |
| `JoinLimits.JoinEnds` | apps/mediasoup-server/src/server.js:1107-1109 | A join that has its router adds its peer exactly unless the room's worker is full. |
| `JoinLimits.LeaverIsGone` | apps/mediasoup-server/src/server.js:1127-1150 | Who leaves is out of the room; an emptied room goes with its router and its worker; everybody else stays. |
| `JoinLimits.DeadWorkersRooms` | apps/mediasoup-server/src/server.js:1672-1705 | A worker that dies leaves the pool and takes along exactly the rooms whose routers it hosted. |
| `JoinLimits.RoomPlaced` | apps/mediasoup-server/src/server.js:1878-1896 | After the wait for the pool: a live router on a pool worker is reused, one without is forgotten, a pool worker kept; otherwise the room goes to a worker that serves fewest among those that could take it, and the join ends exactly if there is none. |
| `JoinLimits.RouterRecorded` | apps/mediasoup-server/src/server.js:1897-1903 | A router is recorded with the worker it was made on. |
| `SocketQueue.OrderAndWakeup` | apps/mediasoup-server/src/server.js:413-497 | For every interleaving: while the connection is ready, a socket's accepted messages are those answered, in order, then the one in progress, then the queue; a nonempty queue has its drain running. |
| `SocketQueue.CountersConserved` | apps/mediasoup-server/src/server.js:402-491 | Until a shutdown reset, the two counters are exactly the queued messages and the waiting drains, within their limits, so no guard against going below zero decides. |
| `SocketQueue.CountersAfterReset` | apps/mediasoup-server/src/server.js:2211-2212 | After the reset both counters stay between zero and the true counts. |
| `SocketQueue.AnswersJustified` | apps/mediasoup-server/src/server.js:418-480 | In every run before a reset each answer has its reason: "overloaded" only for what parses while as many operations are under way as may be, "invalid" only for what does not parse, a refusal only at the global or the socket's queue limit. |
| `SocketQueue.ArrivalAccepted` | apps/mediasoup-server/src/server.js:413-449 | A message on an open socket below both queue limits is accepted, and becomes the awaited one at once if it parses, the socket is idle and an operation may start. |
| `SocketQueue.ArrivalRefused` | apps/mediasoup-server/src/server.js:415-433 | At a queue limit it is refused and nothing else happens; on a closed socket nothing happens. |
| `SocketQueue.NextInLine` | apps/mediasoup-server/src/server.js:457-494 | When an operation is done, the first queued message that parses becomes the awaited one. |
| `SocketQueue.OperationAnswered` | apps/mediasoup-server/src/server.js:482-493 | The answer to an operation goes out before anything else the drain sends. |
| `SocketQueue.OthersUntouched` | apps/mediasoup-server/src/server.js:413-497 | One socket's events leave the others alone. |
| `SocketQueue.ClosedStaysClosed` | apps/mediasoup-server/src/server.js:370-376 | A closed socket accepts nothing more, and one that has begun to close is sent nothing more. |
| `SocketQueue.DrainSound` | apps/mediasoup-server/src/server.js:451-497 | One run of the drain keeps the order, takes off the counter one per message, and starts an operation only under the limit. |
| `SocketQueue.NextSound` | apps/mediasoup-server/src/server.js:402-497 | Each event keeps all sockets sound and the counters worth what they were. |
| `SocketQueue.WsServer.DrainLoop` | apps/mediasoup-server/src/server.js:457-494 | The loop on one socket's queue and the shared counters, stopping where an operation must be awaited. |
| `SocketQueue.WsServer.HandleWsMessage` | apps/mediasoup-server/src/server.js:413-449 | Refused at the global limit or the socket's, otherwise queued, counted and drained. |
| `SocketQueue.WsServer.ClearSocketQueue` | apps/mediasoup-server/src/server.js:402-411 | The queue is emptied and its length taken off the counter, not below zero. |
| `RatePolicy.SlidingRefinesLog` | EDS_serverNew/Bridge/Mediasoup/policy/MediaProductionPolicy.h:300-315 | On a clock that never runs backwards an action is accepted iff fewer than the maximum of the peer's accepted actions lie within the window. |
| `RatePolicy.AcceptedActionsSpaced` | apps/mediasoup-server/src/server.js:635-657 | Between two forgettings, accepted actions i and i + max of a peer are more than a window apart. |
| `RatePolicy.ForgottenStartsAfresh` | apps/mediasoup-server/src/server.js:1971-1971 | A peer whose resources are closed starts with its whole budget, and nobody else's changes. |
| `RatePolicy.ActionStandsFor` | EDS_serverNew/Bridge/Mediasoup/policy/MediaProductionPolicy.h:300-315 | The deque decides as the log of all accepted actions, and keeps standing for it. |
| `RatePolicy.NormalizeConfig` | EDS_serverNew/Bridge/Mediasoup/policy/MediaProductionPolicy.h:213-228 | The limits are clamped into their ranges, and values in range are kept. |
| `RatePolicy.MediaProductionPolicy.ConsumeRateBudget` | EDS_serverNew/Bridge/Mediasoup/policy/MediaProductionPolicy.h:300-315 | Expired times leave the front of the peer's deque; the action is accepted and recorded, or refused and not recorded. |
| `RatePolicy.MediaProductionPolicy.ValidateAndConsume` | EDS_serverNew/Bridge/Mediasoup/policy/MediaProductionPolicy.h:108-122 | A command that fails validation, names no peer or closes a session consumes no budget. |
| `SessionAuth.IndexesAlwaysAgree` | EDS_serverNew/Auth/SessionAuthStore.cpp:5-67 | After any binds and unbinds the three indexes are what one would recompute from the sessions, without empty buckets, the sessions are those of a store with one map, and no index entry lacks its session. |
| `SessionAuth.ApplyIndexed` | EDS_serverNew/Auth/SessionAuthStore.cpp:5-67 | Each operation keeps the indexes and does to the sessions what it would do to one map. |
| `SessionAuth.DropPeerIndexed` | EDS_serverNew/Auth/SessionAuthStore.cpp:14-24 | Displacing a peer's session; the fallback for an index entry without a session is never taken. |
| `SessionAuth.RemovedIndexed` | EDS_serverNew/Auth/SessionAuthStore.cpp:128-148 | Removing a session from the indexes leaves them agreeing with the rest. |
| `SessionAuth.IndexesRecomputed` | EDS_serverNew/Auth/SessionAuthStore.cpp:128-148 | Agreement bucket by bucket is equality with the recomputed indexes. |
| `SessionAuth.SessionAuthStore.BindSession` | EDS_serverNew/Auth/SessionAuthStore.cpp:5-33 | A bind displaces what its handle had and what its peer had, in that order, and is indexed. |
| `SessionAuth.SessionAuthStore.UnbindPeerSession` | EDS_serverNew/Auth/SessionAuthStore.cpp:47-67 | An empty peer is ignored; otherwise the peer's session goes with its index entries. |
| `SessionAuth.SessionAuthStore.ResolvePeersForUser` | EDS_serverNew/Auth/SessionAuthStore.cpp:91-106 | Each peer of the user, once. |
| `SessionAuth.SessionAuthStore.ListSessionsForUser` | EDS_serverNew/Auth/SessionAuthStore.cpp:108-126 | Each session of the user, once. |
| `SignalingGateway.AtMostTwiceTheLimit` | EDS_serverNew/Bridge/Mediasoup/signaling/MediasoupSignalingGateway.cpp:679-688 | Over a connection's life, no half-open second lets through more than twice the limit. |
| `SignalingGateway.TwiceTheLimitIsReached` | EDS_serverNew/Bridge/Mediasoup/signaling/MediasoupSignalingGateway.cpp:679-688 | Twice the limit is reached: the bound cannot be lowered. |
| `SignalingGateway.PassIff` | EDS_serverNew/Bridge/Mediasoup/signaling/MediasoupSignalingGateway.cpp:679-688 | A message passes exactly if it starts a window or fewer than the limit have come since the window began. |
| `SignalingGateway.WindowCounts` | EDS_serverNew/Bridge/Mediasoup/signaling/MediasoupSignalingGateway.cpp:681-685 | The counter is the number of messages, passed or not, since the window began. |
| `SignalingGateway.WindowMoves` | EDS_serverNew/Bridge/Mediasoup/signaling/MediasoupSignalingGateway.cpp:681-684 | When a window ends, what it passed bounds the second before the next one. |
| `SignalingGateway.MediasoupSignalingGateway.ResolveTrustedPeer` | EDS_serverNew/Bridge/Mediasoup/signaling/MediasoupSignalingGateway.cpp:1031-1048 | A known connection keeps its name; a new one gets a drawn word that is not empty and not taken. |
| `SignalingGateway.ResolvedInverse` | EDS_serverNew/Bridge/Mediasoup/signaling/MediasoupSignalingGateway.cpp:1031-1048 | Naming a connection changes no other name and keeps the two maps inverse to each other. |
| `SignalingGateway.MediasoupSignalingGateway.OnDisconnected` | EDS_serverNew/Bridge/Mediasoup/signaling/MediasoupSignalingGateway.cpp:580-597 | The connection's name and rate state go, and nobody else's. |
| `SignalingGateway.MediasoupSignalingGateway.OnConnected` | EDS_serverNew/Bridge/Mediasoup/signaling/MediasoupSignalingGateway.cpp:533-562 | Refused at capacity without a trace, otherwise named. |
| `SignalingGateway.MediasoupSignalingGateway.AdmitMessage` | EDS_serverNew/Bridge/Mediasoup/signaling/MediasoupSignalingGateway.cpp:671-690 | Capacity first, and only for unknown connections; then the window, in which refused messages count too. |
| `AuthenticatedDispatch.DispatchIffLastBound` | EDS_serverNew/App/ApplicationCore.cpp:18-38 | Over every interleaving of connections: a request reaches its module exactly if module and action exist and, unless it is for auth, its connection is bound, read from the connection's own requests: the last bind or restore with a token that verified, not followed by a logout or disconnect. |
| `AuthenticatedDispatch.BoundSession` | EDS_serverNew/Auth/runtime/AuthFeatureModule.cpp:102-151 | The stored session is the bound user's, under the name the connection bears in the gateway; an unbound connection has none. |
| `AuthenticatedDispatch.MarkMeans` | EDS_serverNew/Auth/runtime/AuthFeatureModule.cpp:60-151 | What one auth request does: only a bind or restore whose token verifies binds, only a logout unbinds. |
| `AuthenticatedDispatch.NamesStayInverse` | EDS_serverNew/Bridge/Mediasoup/signaling/MediasoupSignalingGateway.cpp:1031-1048 | The gateway's two maps stay inverse to each other, and no stored session of a connection in the gateway has another peer. |
| `AuthenticatedDispatch.EvictedHasLeft` | EDS_serverNew/Auth/SessionAuthStore.cpp:14-24 | A bind takes another connection's session only if that one has already left the gateway. |
| `AuthenticatedDispatch.DisconnectedSessions` | EDS_serverNew/App/ApplicationCore.cpp:156-183 | A disconnect told by handle, or by peer alone, removes exactly that session. |
| `AuthenticatedDispatch.DispatchSound` | EDS_serverNew/Auth/runtime/AuthFeatureModule.cpp:102-151 | Bind, restore and logout keep the store and the gateway in step, and what each connection last did remembered. |
| `AuthenticatedDispatch.ApplicationApi.DispatchFeature` | EDS_serverNew/App/ApplicationCore.cpp:100-132 | The checks before a module is reached, in order, with their messages. |
| `AuthenticatedDispatch.ApplicationApi.NotifySessionDisconnected` | EDS_serverNew/App/ApplicationCore.cpp:156-183 | The store forgets the session, looked up by peer when no handle is given. |
| `OutboundQueue.SingleWriter` | EDS_serverNew/Bridge/Mediasoup/transport/WebSocketServer.cpp:119-175 | In every schedule of the strand at most one write is in progress, and at most 1024 texts are queued; until the session closes, the write is that of the queue's head, and a waiting queue has its writer unless a write has failed and the close it asked for is still to come. |
| `OutboundQueue.HeadIffNotClosing` | EDS_serverNew/Bridge/Mediasoup/transport/WebSocketServer.cpp:177-208 | Exactly when a write in progress is the queue head's: as long as the session is not closing. |
| `OutboundQueue.CloseTakesTheHeadAway` | EDS_serverNew/Bridge/Mediasoup/transport/WebSocketServer.cpp:177-208 | The schedule in which it is not: opened, one text enqueued, closed; the write goes on, of a text no longer in the queue. |
| `OutboundQueue.DeliveryInOrder` | EDS_serverNew/Bridge/Mediasoup/transport/WebSocketServer.cpp:119-175 | While not closing, delivered plus queued is what was accepted, in order. |
| `OutboundQueue.NoTextLost` | EDS_serverNew/Bridge/Mediasoup/transport/WebSocketServer.cpp:119-142 | Read off the schedule: every text offered to an open session with fewer than 1024 undelivered is accepted, in order; until the close, as many of them as writes have completed are delivered, and the rest are queued. |
| `OutboundQueue.CallbacksExactly` | EDS_serverNew/Bridge/Mediasoup/transport/WebSocketServer.cpp:177-208 | The connect and disconnect callbacks run exactly when the schedule says: on an opening, and on the first close of an open session, while the session belongs to the server. |
| `OutboundQueue.CallbacksPaired` | EDS_serverNew/Bridge/Mediasoup/transport/WebSocketServer.cpp:69-86 | The disconnect callback runs at most once, and only after the connect callback. |
| `OutboundQueue.ScheduleSound` | EDS_serverNew/Bridge/Mediasoup/transport/WebSocketServer.cpp:119-208 | All of this, with the flags it rests on, after every schedule. |
| `OutboundQueue.ClosedForGood` | EDS_serverNew/Bridge/Mediasoup/transport/WebSocketServer.cpp:177-208 | Once closed, no further write is ever begun. |
| `OutboundQueue.NoWriteAfterClose` | EDS_serverNew/Bridge/Mediasoup/transport/WebSocketServer.cpp:177-208 | No step of a closing session begins a write or calls the disconnect callback. |
| `OutboundQueue.WriteDoneSound` | EDS_serverNew/Bridge/Mediasoup/transport/WebSocketServer.cpp:153-173 | A completed write takes its own text off the queue and starts the next; a failed one leaves it there. |
| `OutboundQueue.WsSession.EnqueueText` | EDS_serverNew/Bridge/Mediasoup/transport/WebSocketServer.cpp:119-142 | Ignored unless open; a full queue asks for a close; otherwise queued, and written if nobody writes. |
| `OutboundQueue.WsSession.OnWriteDone` | EDS_serverNew/Bridge/Mediasoup/transport/WebSocketServer.cpp:153-173 | The completion handler on the session's fields. |
| `OutboundQueue.WsSession.RunClose` | EDS_serverNew/Bridge/Mediasoup/transport/WebSocketServer.cpp:177-208 | The posted close, once: flags, queue and owner, and the disconnect callback if the session was open. |
| `OfflineOutbox.OutboxBounded` | EDS_serverNew/infrastructure/db/MessengerRepository.cpp:2885-3028 | In every run: attempts never exceed the maximum, a row changes at most twice as often, and one given up has waited 2^max - 2 seconds in all (256 more for each attempt past nine), on the clock too, since it was first claimed. |
| `OfflineOutbox.FinalForGood` | EDS_serverNew/infrastructure/db/MessengerRepository.cpp:2948-3028 | Delivered and given-up rows never change again. |
| `OfflineOutbox.ClaimedWaitsForItsMark` | EDS_serverNew/infrastructure/db/MessengerRepository.cpp:2885-2911 | A claimed row changes only by its own mark; if none comes it is never claimed again. |
| `OfflineOutbox.DelayIsThePower` | EDS_serverNew/infrastructure/db/MessengerRepository.cpp:3015-3023 | The cap of 300 seconds and the floor of one never decide. |
| `OfflineOutbox.WaitInTotal` | EDS_serverNew/infrastructure/db/MessengerRepository.cpp:3009-3028 | The delays before giving up add up to 2^max - 2 up to nine attempts. |
| `OfflineOutbox.BatchIsFirst` | EDS_serverNew/infrastructure/db/MessengerRepository.cpp:2885-2897 | A batch is the first rows by id, each once, as many as asked for if there are. |
| `OfflineOutbox.ClaimTakes` | EDS_serverNew/infrastructure/db/MessengerRepository.cpp:2885-2911 | A claim takes only this server's rows that wait and are due, counts the attempt, and touches nothing else. |
| `OfflineOutbox.ClaimTakesFirst` | EDS_serverNew/infrastructure/db/MessengerRepository.cpp:2885-2897 | Of those it takes exactly the first by id, as many as asked for, one at least and a hundred at most. |
| `OfflineOutbox.DeliveryMarks` | EDS_serverNew/infrastructure/db/MessengerRepository.cpp:2948-2954 | A mark of delivery ends a claimed row and touches no other. |
| `OfflineOutbox.RetryMarks` | EDS_serverNew/infrastructure/db/MessengerRepository.cpp:3009-3028 | A mark for retry gives a claimed row up at the maximum and otherwise puts it back for 2^attempts seconds, 256 at most. |
| `OfflineOutbox.ReachableMeans` | EDS_serverNew/Bridge/Mediasoup/signaling/MediasoupSignalingGateway.cpp:1306-1337 | A recipient is reachable exactly if one of the user's sessions has a name the gateway knows. |
| `OfflineOutbox.NextMoves` | EDS_serverNew/infrastructure/db/MessengerRepository.cpp:2885-3028 | Every change of a row takes one from the changes it has left. |
| `OfflineOutbox.MessengerRepository.MarkOfflineOutboxRetry` | EDS_serverNew/infrastructure/db/MessengerRepository.cpp:2994-3028 | Only a claimed row is touched: given up at the maximum, otherwise put back with its delay; a maximum below one counts as one. |
| `OfflineOutbox.MessengerRepository.MarkOfflineOutboxDelivered` | EDS_serverNew/infrastructure/db/MessengerRepository.cpp:2939-2954 | Only a claimed row is marked; an id below one is refused. |
| `OfflineOutbox.MessengerRepository.DispatchBatch` | EDS_serverNew/Bridge/Mediasoup/signaling/MediasoupSignalingGateway.cpp:1279-1354 | A round claims the batch; of the rows it gets to, it delivers exactly those of whose recipient somebody is connected, gives up the others at the eighth attempt and puts them back before; the rest stay claimed. How many it gets to is an input. |

## Left out

- Length, kind and track-type checks of the production policy: their verdict is an input of `ExecuteIntent` and `ValidateAndConsume`; they compare lengths and fixed names.
- SDP, ICE, DTLS, RTP and statistics payloads, injected test statistics, and the texts of successful answers: opaque or absent.
- `signalingByPeer_`, a queue of signaling events the backend may add: nothing else reads it.
- Time-outs, retries and reconnects of the engine's backend client: excluded by the assumption that answers arrive.
- The server's limits on rooms, peers and entities and its rate limit in `SfuBackendOps`, and mediasoup's successes and failures: free inputs there; the limits on joins are modelled in `InterleavedJoins` and `JoinLimits`; those on transports, producers and consumers, which are also checked before an await, are not.
- SfuMirror.ServerWithinEngine: routers and worker assignments are not compared, because a failed join may leave both on the server for a room the engine also has, and the engine keeps neither.
- SfuMirror.ServerWithinEngine: whether a consumer is paused is not compared; the server keeps it in the library.
- The server's handlers other than joins are not interleaved at their awaits; between handlers everything else is.
- The capability router, which serves no room, and the order in which the pool is replenished.
- InterleavedJoins.StepSound: whether a router is closed when a suspended handler looks at it is free, as is the failure of pool and router creation.
- SocketQueue.OrderAndWakeup: says nothing of the order once a connection has begun to close, when answers are lost and the queue is dropped.
- JoinLimits.RoomLimitExactly: where the limit per room is the larger one, it leaves out rooms with more peers than a worker takes that no pool worker serves while a join of theirs waits for the pool; the same goes for JoinSafeIff and TotalLimitExactly.
- OfflineOutbox.MessengerRepository.DispatchBatch: does not say how many rows a round gets to, because that depends on when it is stopped and on how the JSON library reads a null field.
- SignalingGateway.MediasoupSignalingGateway.AdmitMessage: the clock is an input, and the message counter does not wrap, as a window would have to see 2^64 messages.
- Email, token, device and database ids of a session: carried along and never looked at by the store.
- Agents of modules other than auth, module registration, and what modules do with a request that reaches them.
- OutboundQueue.SingleWriter: the plain and the TLS session are one model, as their code is the same; reading and the TLS handshake itself are not part of it.
- OfflineOutbox.OutboxBounded: rows claimed by another server (`SKIP LOCKED` under contention) and the message receipts updated with a delivery are not part of it.
- Conference and direct-call SQL: its meaning hangs on a schema and a helper function that are not part of this model.
- Process shutdown beyond the counter reset, environment parsing, TLS setup, health and metrics, quality-of-service collection, logging, the command-line client and the load scripts: plumbing.
