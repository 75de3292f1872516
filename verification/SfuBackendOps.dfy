/**
 What the server's operations do. `Oracle` holds what the model leaves open: whether the request gets past
 the peer's rate limit and the shutdown check, the worker picked for a new room, whether the limits admit the request (before and after the router is ready), whether the mediasoup
 calls succeed, and the consumer name made up when the request brings none.
 */
module SfuBackendOps {
  import opened MediaTypes
  import opened SfuBackend
  import opened SfuBackendClosing

  datatype Oracle = Oracle(handled: bool, worker: string, routerMade: bool, admitted: bool, fits: bool, mediaMade: bool,
                           generatedId: string)

  const NO_DATA := ReplyData(None, None, None, None)

  function AddRouter(s: Backend, roomId: string, workerId: string): Backend
    requires workerId in s.pool
  {
    var h := s.nextHandle;
    s.(routers := s.routers[roomId := RouterEntry(workerId, s.pool[workerId], h)],
       workerByRoom := s.workerByRoom[roomId := workerId],
       media := s.media[h := {h, s.pool[workerId]}],
       nextHandle := h + 1)
  }

  predicate HasLiveRouter(s: Backend, roomId: string) {
    roomId in s.routers && s.routers[roomId].handle in s.media
  }

  predicate HasWorker(s: Backend, roomId: string) {
    roomId in s.workerByRoom && s.workerByRoom[roomId] in s.pool
  }

  /** A live router whose worker left the pool is closed and forgotten. */
  function WithoutStaleRouter(s: Backend, roomId: string): Backend {
    if HasLiveRouter(s, roomId)
    then Kill(s, {s.routers[roomId].handle}).(routers := s.routers - {roomId}, workerByRoom := s.workerByRoom - {roomId},
                                              closedRouters := s.closedRouters + [s.routers[roomId].handle])
    else s
  }

  /** A new router on the worker of the room, or on the one picked for it; either step may fail. */
  function PlaceRouter(s: Backend, roomId: string, o: Oracle): (Backend, bool) {
    var selected := if HasWorker(s, roomId) then s.workerByRoom[roomId] else o.worker;
    if selected !in s.pool then (s, false)
    else if !o.routerMade then (s.(workerByRoom := s.workerByRoom[roomId := selected]), false)
    else (AddRouter(s, roomId, selected), true)
  }

  /** A live router on a pool worker is reused. */
  function EnsureRoomRouter(s: Backend, roomId: string, o: Oracle): (Backend, bool) {
    if HasLiveRouter(s, roomId) && HasWorker(s, roomId) then (s, true)
    else PlaceRouter(WithoutStaleRouter(s, roomId), roomId, o)
  }

  function CreateRouterOp(s: Backend, c: Command, o: Oracle): (Backend, Option<ReplyData>) {
    if c.roomId == "" || !o.admitted then (s, None)
    else
      var (s1, ready) := EnsureRoomRouter(s, c.roomId, o);
      if ready then (s1, Some(NO_DATA)) else (s1, None)
  }

  function AddPeer(s: Backend, roomId: string, peerId: string): Backend {
    s.(roomPeers := s.roomPeers[roomId := PeersIn(s, roomId) + {peerId}])
  }

  function JoinPeerOp(s: Backend, c: Command, o: Oracle): (Backend, Option<ReplyData>) {
    if c.roomId == "" || c.peerId == "" || !o.admitted then (s, None)
    else
      var (s1, ready) := EnsureRoomRouter(s, c.roomId, o);
      if !ready || !o.fits then (s1, None)
      else (AddPeer(s1, c.roomId, c.peerId), Some(NO_DATA))
  }

  function AddTransport(s: Backend, c: Command): Backend
    requires c.roomId in s.routers
  {
    var router := s.routers[c.roomId];
    Create(s, {router.handle, router.workerHandle}, TransportClosed(c.transportId))
      .(transports := s.transports[c.transportId := TransportEntry(c.roomId, c.peerId, s.nextHandle)])
  }

  function CreateTransportOp(s: Backend, c: Command, o: Oracle): (Backend, Option<ReplyData>) {
    if c.roomId == "" || c.peerId == "" || c.transportId == "" then (s, None)
    else if c.peerId !in PeersIn(s, c.roomId) || !o.admitted then (s, None)
    else
      var (s1, ready) := EnsureRoomRouter(s, c.roomId, o);
      if !ready || c.transportId in s1.transports then (s1, None)
      else if !o.mediaMade || !HasLiveRouter(s1, c.roomId) then (s1, None)
      else (AddTransport(s1, c), Some(NO_DATA))
  }

  function DefaultTrackType(kind: string): string {
    if kind == "video" then "camera" else "microphone"
  }

  function AddProducer(s: Backend, c: Command, trackType: string): Backend
    requires c.transportId in s.transports && s.transports[c.transportId].handle in s.media
  {
    var t := s.transports[c.transportId];
    Create(s, s.media[t.handle], ProducerClosed(c.producerId))
      .(producers := s.producers[c.producerId :=
          ProducerEntry(t.roomId, t.peerId, c.transportId, c.kind, trackType, s.nextHandle)])
  }

  function ProduceOp(s: Backend, c: Command, o: Oracle): (Backend, Option<ReplyData>) {
    if c.transportId == "" || c.producerId == "" || c.kind == "" || c.transportId !in s.transports then (s, None)
    else
      var t := s.transports[c.transportId];
      var trackType := if c.trackType != "" then c.trackType else DefaultTrackType(c.kind);
      if t.peerId !in PeersIn(s, t.roomId) || c.producerId in s.producers || !o.admitted then (s, None)
      else if !o.mediaMade || t.handle !in s.media then (s, None)
      else (AddProducer(s, c, trackType), Some(ReplyData(Some(c.kind), Some(trackType), None, None)))
  }

  function AddConsumer(s: Backend, c: Command, consumerId: string): Backend
    requires c.transportId in s.transports && s.transports[c.transportId].handle in s.media
    requires c.producerId in s.producers && s.producers[c.producerId].handle in s.media
  {
    var t := s.transports[c.transportId];
    var p := s.producers[c.producerId];
    Create(s, s.media[t.handle] + s.media[p.handle], ConsumerClosed(consumerId))
      .(consumers := s.consumers[consumerId :=
          ConsumerEntry(t.roomId, t.peerId, c.transportId, c.producerId, p.peerId, p.kind, p.trackType, s.nextHandle)])
  }

  function ConsumeOp(s: Backend, c: Command, o: Oracle): (Backend, Option<ReplyData>) {
    if c.transportId == "" || c.producerId == "" || c.transportId !in s.transports then (s, None)
    else
      var t := s.transports[c.transportId];
      var consumerId := if c.consumerId != "" then c.consumerId else c.producerId + "-consumer-" + o.generatedId;
      if t.peerId !in PeersIn(s, t.roomId) || c.producerId !in s.producers || consumerId in s.consumers then (s, None)
      else
        var p := s.producers[c.producerId];
        if !o.admitted || p.roomId != t.roomId then (s, None)
        else if !o.mediaMade || t.handle !in s.media || p.handle !in s.media then (s, None)
        else (AddConsumer(s, c, consumerId), Some(ReplyData(Some(p.kind), Some(p.trackType), Some(consumerId), Some(true))))
  }

  // ---- Operations that close things: their effect, whichever callbacks ran along the way ----

  predicate Empties(s: Backend, roomId: string, peerId: string) {
    roomId in s.roomPeers && s.roomPeers[roomId] - {peerId} == {}
  }

  function LeaveHandles(s: Backend, roomId: string, peerId: string): set<Handle> {
    HandlesFor(s, PeerTargets(s, roomId, peerId)) + if Empties(s, roomId, peerId) then RouterHandles(s, roomId) else {}
  }

  ghost predicate LeaveEffect(s: Backend, roomId: string, peerId: string, next: Backend) {
    && Sound(next)
    && Shrunk(s, next, LeaveHandles(s, roomId, peerId))
    && if Empties(s, roomId, peerId) then RoomGone(s, next, roomId)
       else
         && next.pool == s.pool && next.workerByRoom == s.workerByRoom && next.routers == s.routers
         && next.roomPeers == if roomId in s.roomPeers then s.roomPeers[roomId := s.roomPeers[roomId] - {peerId}] else s.roomPeers
  }

  /** A producer and all its consumers. */
  function ProducerTree(s: Backend, producerId: string): set<Callback> {
    {ProducerClosed(producerId)} + SubscriberTargets(s, producerId)
  }

  ghost predicate CloseProducerEffect(s: Backend, producerId: string, next: Backend) {
    && Sound(next) && SameRooms(s, next)
    && Shrunk(s, next, HandlesFor(s, ProducerTree(s, producerId)))
  }

  /** A transport, producer or consumer closed on its own: a DTLS close, or a callback that hit a live entry. */
  ghost predicate CloseEffect(s: Backend, target: Callback, next: Backend) {
    && Sound(next) && SameRooms(s, next)
    && Shrunk(s, next, Targets(s, target))
  }

  function RoomsOn(s: Backend, workerId: string): set<string> {
    set r | r in s.routers && s.routers[r].workerId == workerId
  }

  /** The worker's handle, and all that was held in the rooms it served. */
  function WorkerHandles(s: Backend, workerId: string): set<Handle>
    requires workerId in s.pool
  {
    {s.pool[workerId]} + set r, h | r in RoomsOn(s, workerId) && h in RoomHandles(s, r) :: h
  }

  ghost predicate WorkerDeathEffect(s: Backend, workerId: string, next: Backend)
    requires workerId in s.pool
  {
    var rooms := RoomsOn(s, workerId);
    && Sound(next)
    && next.pool == s.pool - {workerId}
    && next.roomPeers == s.roomPeers - rooms
    && next.routers == s.routers - rooms
    && next.workerByRoom == s.workerByRoom - rooms
    && (forall r :: r in rooms ==> RoomTargets(next, r) == {})
    && Shrunk(s, next, WorkerHandles(s, workerId))
  }

  ghost predicate Answers(reply: Reply, data: Option<ReplyData>) {
    match data
    case Some(d) => reply == Accepted(d)
    case None => reply.Rejected?
  }

  /** One request from start to end, with its answer; one turned away at the door has no effect. */
  ghost predicate Handles(s: Backend, operation: Operation, c: Command, o: Oracle, next: Backend, reply: Reply) {
    if o.handled then Operates(s, operation, c, o, next, reply) else next == s && reply.Rejected?
  }

  /** Operations that change no table: what they answer when the library does as it is told. */
  function Answer(s: Backend, operation: Operation, c: Command): Option<ReplyData> {
    match operation
    case PauseProducer => ProducerAnswer(s, c, true)
    case ResumeProducer => ProducerAnswer(s, c, false)
    case ResumeConsumerStream =>
      if c.consumerId == "" || c.consumerId !in s.consumers then None
      else
        var k := s.consumers[c.consumerId];
        Some(ReplyData(Some(k.kind), Some(k.trackType), Some(c.consumerId), Some(false)))
    case ConnectDtls => if c.transportId == "" || c.transportId !in s.transports then None else Some(NO_DATA)
    case GetMediaStats => Some(NO_DATA)
    case _ => None
  }

  predicate OwnProducer(s: Backend, c: Command) {
    c.producerId != "" && c.producerId in s.producers && (c.peerId == "" || s.producers[c.producerId].peerId == c.peerId)
  }

  function ProducerAnswer(s: Backend, c: Command, paused: bool): Option<ReplyData> {
    if !OwnProducer(s, c) then None
    else
      var p := s.producers[c.producerId];
      Some(ReplyData(Some(p.kind), Some(p.trackType), None, Some(paused)))
  }

  ghost predicate Leaves(s: Backend, c: Command, next: Backend, reply: Reply) {
    if c.roomId == "" || c.peerId == "" then next == s && reply.Rejected?
    else LeaveEffect(s, c.roomId, c.peerId, next) && reply == Accepted(NO_DATA)
  }

  ghost predicate Operates(s: Backend, operation: Operation, c: Command, o: Oracle, next: Backend, reply: Reply) {
    match operation
    case CreateRouter => next == CreateRouterOp(s, c, o).0 && Answers(reply, CreateRouterOp(s, c, o).1)
    case JoinPeer => next == JoinPeerOp(s, c, o).0 && Answers(reply, JoinPeerOp(s, c, o).1)
    case LeavePeer => Leaves(s, c, next, reply)
    case ClosePeer => Leaves(s, c, next, reply)
    case CreateWebRtcTransport => next == CreateTransportOp(s, c, o).0 && Answers(reply, CreateTransportOp(s, c, o).1)
    case Produce => next == ProduceOp(s, c, o).0 && Answers(reply, ProduceOp(s, c, o).1)
    case Consume => next == ConsumeOp(s, c, o).0 && Answers(reply, ConsumeOp(s, c, o).1)
    case CloseProducer =>
      if OwnProducer(s, c) then CloseProducerEffect(s, c.producerId, next) && reply == Accepted(NO_DATA)
      else next == s && reply.Rejected?
    case _ => next == s && (if o.mediaMade then Answers(reply, Answer(s, operation, c)) else reply.Rejected?)
  }
}
