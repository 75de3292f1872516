/**
 The engine and the mediasoup server side by side. A client command reaches the server only through the
 engine, and its answer arrives; meanwhile workers come and go, transports close by themselves, and close
 callbacks run late. Whatever is alive on the server is known, with the same links, to the engine.
 */
module SfuMirror {
  import opened MediaTypes
  import E = SfuEngine
  import EngineRuns = SfuEngineRuns
  import opened SfuBackend
  import opened SfuBackendClosing
  import opened SfuBackendOps
  import opened SfuBackendOpsSound

  datatype World = World(engine: E.Engine, server: Backend)

  datatype Step =
    | ClientCommand(input: E.Input, oracle: Oracle, reply: Reply, order: seq<string>)
    | CallbackRuns(callback: Callback)
    | ClosesItself(target: Callback)
    | WorkerDies(workerId: string)
    | WorkerStarts(workerId: string)

  ghost predicate Commanded(w: World, input: E.Input, o: Oracle, reply: Reply, order: seq<string>, w': World) {
    && E.OrderFits(w.engine, input, order)
    && w'.engine == E.Perform(w.engine, input, reply, order).engine
    && match E.PlanOf(w.engine, input)
       case Call(operation, sent, _) => Handles(w.server, operation, sent, o, w'.server, reply)
       case _ => w'.server == w.server
  }

  ghost predicate Steps(w: World, step: Step, w': World) {
    match step
    case ClientCommand(input, o, reply, order) => Commanded(w, input, o, reply, order, w')
    case CallbackRuns(callback) =>
      callback in w.server.pending && w'.engine == w.engine && CloseEffect(w.server, callback, w'.server)
    case ClosesItself(target) => w'.engine == w.engine && CloseEffect(w.server, target, w'.server)
    case WorkerDies(id) => id in w.server.pool && w'.engine == w.engine && WorkerDeathEffect(w.server, id, w'.server)
    case WorkerStarts(id) => id !in w.server.pool && w'.engine == w.engine && w'.server == AddWorker(w.server, id)
  }

  /** A step by which the server loses something alive without anybody having asked. */
  predicate Spontaneous(step: Step) {
    step.ClosesItself? || step.WorkerDies?
  }

  // ---- What is alive on the server, in the engine's terms ----

  function LiveTransports(s: Backend): map<string, E.Transport> {
    map id | id in s.transports && s.transports[id].handle in s.media ::
      E.Transport(s.transports[id].roomId, s.transports[id].peerId)
  }

  function LiveProducers(s: Backend): map<string, E.Producer> {
    map id | id in s.producers && s.producers[id].handle in s.media :: ProducerView(s.producers[id])
  }

  function ProducerView(p: ProducerEntry): E.Producer {
    E.Producer(p.roomId, p.peerId, p.transportId, p.kind, p.trackType)
  }

  /** Whether a consumer is paused is not part of the comparison. */
  function LiveConsumers(s: Backend): map<string, E.Consumer> {
    map id | id in s.consumers && s.consumers[id].handle in s.media :: ConsumerView(s.consumers[id])
  }

  function ConsumerView(c: ConsumerEntry): E.Consumer {
    E.Consumer(c.roomId, c.peerId, c.transportId, c.producerId, c.producerPeerId, c.kind, c.trackType, false)
  }

  function ConsumerLinks(e: E.Engine): map<string, E.Consumer> {
    map id | id in e.consumers :: e.consumers[id].(paused := false)
  }

  ghost predicate Within<V>(part: map<string, V>, whole: map<string, V>) {
    forall id :: id in part ==> id in whole && whole[id] == part[id]
  }

  ghost predicate MembersWithin(s: Backend, e: E.Engine) {
    forall r :: PeersIn(s, r) <= E.MembersOf(e, r)
  }

  /** Everyone joined and everything alive on the server is in the engine's maps: same room, peer and links. */
  ghost predicate Contained(w: World) {
    && MembersWithin(w.server, w.engine)
    && Within(LiveTransports(w.server), w.engine.transports)
    && Within(LiveProducers(w.server), w.engine.producers)
    && Within(LiveConsumers(w.server), ConsumerLinks(w.engine))
  }

  ghost predicate MembersAgree(s: Backend, e: E.Engine) {
    forall r :: PeersIn(s, r) == E.MembersOf(e, r)
  }

  /** The engine's maps are exactly what is alive on the server. */
  ghost predicate Agrees(w: World) {
    && MembersAgree(w.server, w.engine)
    && LiveTransports(w.server) == w.engine.transports
    && LiveProducers(w.server) == w.engine.producers
    && LiveConsumers(w.server) == ConsumerLinks(w.engine)
  }

  ghost predicate SameLive(was: Backend, next: Backend) {
    && LiveTransports(next) == LiveTransports(was)
    && LiveProducers(next) == LiveProducers(was)
    && LiveConsumers(next) == LiveConsumers(was)
  }

  ghost predicate LessLive(was: Backend, next: Backend) {
    && Within(LiveTransports(next), LiveTransports(was))
    && Within(LiveProducers(next), LiveProducers(was))
    && Within(LiveConsumers(next), LiveConsumers(was))
  }

  lemma AgreesContained(w: World)
    requires Agrees(w)
    ensures Contained(w)
  {
  }

  // ---- Steps of the server alone ----

  lemma ShrunkLive(was: Backend, next: Backend, dying: set<Handle>)
    requires Shrunk(was, next, dying)
    ensures LessLive(was, next)
  {
  }

  lemma NothingDiedSameLive(was: Backend, next: Backend)
    requires Shrunk(was, next, {})
    ensures SameLive(was, next)
  {
    KeepsMedia(was, next);
    assert LiveTransports(next) == LiveTransports(was);
    assert LiveProducers(next) == LiveProducers(was);
    assert LiveConsumers(next) == LiveConsumers(was);
  }

  lemma LessContained(w: World, w': World)
    requires Contained(w) && w'.engine == w.engine && LessLive(w.server, w'.server)
    requires forall r :: PeersIn(w'.server, r) <= PeersIn(w.server, r)
    ensures Contained(w')
  {
  }

  lemma SameAgrees(w: World, w': World)
    requires w'.engine == w.engine && SameLive(w.server, w'.server)
    requires forall r :: PeersIn(w'.server, r) == PeersIn(w.server, r)
    ensures Agrees(w) ==> Agrees(w')
    ensures Contained(w) ==> Contained(w')
  {
  }

  /** At most one handle more. */
  ghost predicate NewHandle(was: Backend, next: Backend) {
    next.media == was.media
    || (was.nextHandle in next.media && next.media == was.media[was.nextHandle := next.media[was.nextHandle]])
  }

  lemma HandlesExist(s: Backend)
    requires MediaSound(s) && EntriesOwnHandles(s)
    ensures forall id :: id in s.transports ==> s.transports[id].handle < s.nextHandle
    ensures forall id :: id in s.producers ==> s.producers[id].handle < s.nextHandle
    ensures forall id :: id in s.consumers ==> s.consumers[id].handle < s.nextHandle
  {
  }

  lemma SameTransportsLive(was: Backend, next: Backend)
    requires NewHandle(was, next) && next.transports == was.transports
    requires forall id :: id in was.transports ==> was.transports[id].handle < was.nextHandle
    ensures LiveTransports(next) == LiveTransports(was)
  {
  }

  lemma SameProducersLive(was: Backend, next: Backend)
    requires NewHandle(was, next) && next.producers == was.producers
    requires forall id :: id in was.producers ==> was.producers[id].handle < was.nextHandle
    ensures LiveProducers(next) == LiveProducers(was)
  {
  }

  lemma SameConsumersLive(was: Backend, next: Backend)
    requires NewHandle(was, next) && next.consumers == was.consumers
    requires forall id :: id in was.consumers ==> was.consumers[id].handle < was.nextHandle
    ensures LiveConsumers(next) == LiveConsumers(was)
  {
  }

  /** Entries hold handles that exist already, so a new handle makes none of them alive. */
  lemma NewHandleSameLive(was: Backend, next: Backend)
    requires MediaSound(was) && EntriesOwnHandles(was) && NewHandle(was, next)
    ensures next.transports == was.transports ==> LiveTransports(next) == LiveTransports(was)
    ensures next.producers == was.producers ==> LiveProducers(next) == LiveProducers(was)
    ensures next.consumers == was.consumers ==> LiveConsumers(next) == LiveConsumers(was)
  {
    hide MediaSound, EntriesOwnHandles, NewHandle, LiveTransports, LiveProducers, LiveConsumers;
    HandlesExist(was);
    if next.transports == was.transports { SameTransportsLive(was, next); }
    if next.producers == was.producers { SameProducersLive(was, next); }
    if next.consumers == was.consumers { SameConsumersLive(was, next); }
  }

  lemma WithinUpdated<V>(part: map<string, V>, whole: map<string, V>, id: string, v: V)
    requires Within(part, whole)
    ensures Within(part[id := v], whole[id := v])
  {
  }

  lemma WorkerStartMirrored(w: World, w': World, id: string)
    requires Sound(w.server) && Steps(w, WorkerStarts(id), w')
    ensures Agrees(w) ==> Agrees(w')
    ensures Contained(w) ==> Contained(w')
  {
    hide Sound, Agrees, Contained, MediaSound, EntriesOwnHandles, ClosedOnce, DeadAreDue, LinksSound, TablesSound, RoutersSound;
    hide LiveTransports, LiveProducers, LiveConsumers;
    Parts(w.server);
    NewHandleSameLive(w.server, w'.server);
    assert forall r :: PeersIn(w'.server, r) == PeersIn(w.server, r);
    SameAgrees(w, w');
  }

  lemma ClosedMirrored(w: World, w': World, target: Callback)
    requires Sound(w.server) && CloseEffect(w.server, target, w'.server) && w'.engine == w.engine && Contained(w)
    ensures Contained(w')
    ensures Quiet(w.server, target) && Agrees(w) ==> Agrees(w')
  {
    hide Sound, Shrunk, SameLive, LessLive, Agrees, Contained, MediaSound, Target, Survivors;
    hide EntriesOwnHandles, ClosedOnce, DeadAreDue, LinksSound, TablesSound, RoutersSound;
    assert forall r :: PeersIn(w'.server, r) == PeersIn(w.server, r);
    ShrunkLive(w.server, w'.server, Targets(w.server, target));
    LessContained(w, w');
    if Quiet(w.server, target) && Agrees(w) {
      Parts(w.server);
      NothingOnDead(w.server, Targets(w.server, target));
      ShrunkNarrows(w.server, w'.server, Targets(w.server, target));
      NothingDiedSameLive(w.server, w'.server);
      SameAgrees(w, w');
    }
  }

  lemma WorkerDeathMirrored(w: World, w': World, id: string)
    requires Steps(w, WorkerDies(id), w') && Contained(w)
    ensures Contained(w')
  {
    hide Sound, Shrunk, LessLive, Contained, WorkerHandles, RoomTargets;
    ShrunkLive(w.server, w'.server, WorkerHandles(w.server, id));
    LessContained(w, w');
  }

  // ---- Commands that add ----

  lemma RouterReady(w: World, w': World, c: Command, o: Oracle)
    requires Sound(w.server) && w'.engine == w.engine && w'.server == EnsureRoomRouter(w.server, c.roomId, o).0
    ensures Agrees(w) ==> Agrees(w')
    ensures Contained(w) ==> Contained(w')
  {
    hide EnsureRoomRouter, Sound, Agrees, Contained, MediaSound, EntriesOwnHandles, ClosedOnce, DeadAreDue;
    hide LiveTransports, LiveProducers, LiveConsumers, LinksSound, TablesSound, RoutersSound;
    Parts(w.server);
    EnsureRoomRouterSound(w.server, c.roomId, o);
    NewHandleSameLive(w.server, w'.server);
    assert forall r :: PeersIn(w'.server, r) == PeersIn(w.server, r);
    SameAgrees(w, w');
  }

  /** An empty room more in the engine's map. */
  lemma RoomMirrored(w: World, w': World, roomId: string)
    requires roomId !in w.engine.rooms && w'.server == w.server
    requires w'.engine == w.engine || w'.engine == w.engine.(rooms := w.engine.rooms[roomId := {}])
    ensures Agrees(w) ==> Agrees(w')
    ensures Contained(w) ==> Contained(w')
  {
  }

  lemma PeerAddedMirrored(w: World, w': World, c: Command)
    requires w'.server == AddPeer(w.server, c.roomId, c.peerId)
    requires c.roomId in w.engine.rooms && w'.engine == E.CommitJoin(w.engine, c).engine
    ensures Agrees(w) ==> Agrees(w')
    ensures Contained(w) ==> Contained(w')
  {
    assert forall r :: PeersIn(w'.server, r) == PeersIn(w.server, r) + if r == c.roomId then {c.peerId} else {};
    assert forall r :: E.MembersOf(w'.engine, r) == E.MembersOf(w.engine, r) + if r == c.roomId then {c.peerId} else {};
    assert ConsumerLinks(w'.engine) == ConsumerLinks(w.engine);
    assert SameLive(w.server, w'.server);
  }

  lemma JoinMirrored(w: World, w': World, c: Command, o: Oracle, reply: Reply)
    requires Sound(w.server) && c.roomId in w.engine.rooms
    requires w'.server == JoinPeerOp(w.server, c, o).0 && Answers(reply, JoinPeerOp(w.server, c, o).1)
    requires w'.engine == if reply.Accepted? then E.CommitJoin(w.engine, c).engine else w.engine
    ensures Agrees(w) ==> Agrees(w')
    ensures Contained(w) ==> Contained(w')
  {
    hide EnsureRoomRouter, Sound, Agrees, Contained, AddPeer, E.CommitJoin;
    var mid := World(w.engine, EnsureRoomRouter(w.server, c.roomId, o).0);
    RouterReady(w, mid, c, o);
    if reply.Accepted? {
      PeerAddedMirrored(mid, w', c);
    }
  }

  lemma LiveTransportAt(s: Backend, id: string)
    requires id in s.transports && s.transports[id].handle in s.media
    ensures id in LiveTransports(s)
    ensures LiveTransports(s)[id] == E.Transport(s.transports[id].roomId, s.transports[id].peerId)
  {
  }

  lemma LiveProducerAt(s: Backend, id: string)
    requires id in s.producers && s.producers[id].handle in s.media
    ensures id in LiveProducers(s) && LiveProducers(s)[id] == ProducerView(s.producers[id])
  {
  }

  lemma OneTransportLive(was: Backend, next: Backend, id: string, entry: TransportEntry)
    requires NewHandle(was, next) && next.transports == was.transports[id := entry] && entry.handle in next.media
    requires forall id :: id in was.transports ==> was.transports[id].handle < was.nextHandle
    ensures LiveTransports(next) == LiveTransports(was)[id := E.Transport(entry.roomId, entry.peerId)]
  {
  }

  lemma OneProducerLive(was: Backend, next: Backend, id: string, entry: ProducerEntry)
    requires NewHandle(was, next) && next.producers == was.producers[id := entry] && entry.handle in next.media
    requires forall id :: id in was.producers ==> was.producers[id].handle < was.nextHandle
    ensures LiveProducers(next) == LiveProducers(was)[id := ProducerView(entry)]
  {
  }

  lemma OneConsumerLive(was: Backend, next: Backend, id: string, entry: ConsumerEntry)
    requires NewHandle(was, next) && next.consumers == was.consumers[id := entry] && entry.handle in next.media
    requires forall id :: id in was.consumers ==> was.consumers[id].handle < was.nextHandle
    ensures LiveConsumers(next) == LiveConsumers(was)[id := ConsumerView(entry)]
  {
  }

  lemma AddTransportLive(s: Backend, c: Command)
    requires MediaSound(s) && EntriesOwnHandles(s) && c.roomId in s.routers
    ensures LiveTransports(AddTransport(s, c)) == LiveTransports(s)[c.transportId := E.Transport(c.roomId, c.peerId)]
    ensures LiveProducers(AddTransport(s, c)) == LiveProducers(s)
    ensures LiveConsumers(AddTransport(s, c)) == LiveConsumers(s)
    ensures AddTransport(s, c).roomPeers == s.roomPeers
  {
    hide MediaSound, EntriesOwnHandles, LiveTransports, LiveProducers, LiveConsumers;
    HandlesExist(s);
    NewHandleSameLive(s, AddTransport(s, c));
    OneTransportLive(s, AddTransport(s, c), c.transportId, TransportEntry(c.roomId, c.peerId, s.nextHandle));
  }

  lemma SameRoomSets(w: World, w': World)
    requires w'.server.roomPeers == w.server.roomPeers && w'.engine.rooms == w.engine.rooms
    ensures MembersAgree(w.server, w.engine) ==> MembersAgree(w'.server, w'.engine)
    ensures MembersWithin(w.server, w.engine) ==> MembersWithin(w'.server, w'.engine)
  {
    assert forall r :: PeersIn(w'.server, r) == PeersIn(w.server, r);
    assert forall r :: E.MembersOf(w'.engine, r) == E.MembersOf(w.engine, r);
  }

  lemma TransportAddedMirrored(w: World, w': World, c: Command)
    requires MediaSound(w.server) && EntriesOwnHandles(w.server)
    requires c.roomId in w.server.routers && w'.server == AddTransport(w.server, c)
    requires w'.engine == w.engine.(transports := w.engine.transports[c.transportId := E.Transport(c.roomId, c.peerId)])
    ensures Agrees(w) ==> Agrees(w')
    ensures Contained(w) ==> Contained(w')
  {
    hide AddTransport, LiveTransports, LiveProducers, LiveConsumers, MediaSound, EntriesOwnHandles, MembersAgree, MembersWithin;
    AddTransportLive(w.server, c);
    assert ConsumerLinks(w'.engine) == ConsumerLinks(w.engine);
    SameRoomSets(w, w');
  }

  lemma OpenTransportMirrored(w: World, w': World, c: Command, o: Oracle, reply: Reply)
    requires Sound(w.server) && c.transportId !in w.engine.transports
    requires w'.server == CreateTransportOp(w.server, c, o).0 && Answers(reply, CreateTransportOp(w.server, c, o).1)
    requires w'.engine == if reply.Accepted?
                          then w.engine.(transports := w.engine.transports[c.transportId := E.Transport(c.roomId, c.peerId)])
                          else w.engine
    ensures Agrees(w) ==> Agrees(w')
    ensures Contained(w) ==> Contained(w')
  {
    hide EnsureRoomRouter, Sound, Agrees, Contained, AddTransport, MediaSound, EntriesOwnHandles, ClosedOnce, DeadAreDue;
    hide LinksSound, TablesSound, RoutersSound;
    var mid := World(w.engine, EnsureRoomRouter(w.server, c.roomId, o).0);
    RouterReady(w, mid, c, o);
    EnsureRoomRouterSound(w.server, c.roomId, o);
    Parts(mid.server);
    if reply.Accepted? {
      TransportAddedMirrored(mid, w', c);
    }
  }

  lemma AddProducerLive(s: Backend, c: Command, trackType: string)
    requires MediaSound(s) && EntriesOwnHandles(s)
    requires c.transportId in s.transports && s.transports[c.transportId].handle in s.media
    ensures c.transportId in LiveTransports(s)
    ensures var t := LiveTransports(s)[c.transportId];
            LiveProducers(AddProducer(s, c, trackType)) ==
            LiveProducers(s)[c.producerId := E.Producer(t.roomId, t.peerId, c.transportId, c.kind, trackType)]
    ensures LiveTransports(AddProducer(s, c, trackType)) == LiveTransports(s)
    ensures LiveConsumers(AddProducer(s, c, trackType)) == LiveConsumers(s)
    ensures AddProducer(s, c, trackType).roomPeers == s.roomPeers
  {
    hide MediaSound, EntriesOwnHandles, LiveTransports, LiveProducers, LiveConsumers;
    HandlesExist(s);
    LiveTransportAt(s, c.transportId);
    NewHandleSameLive(s, AddProducer(s, c, trackType));
    OneProducerLive(s, AddProducer(s, c, trackType), c.producerId, AddProducer(s, c, trackType).producers[c.producerId]);
  }

  lemma ProducerAddedMirrored(w: World, w': World, c: Command, trackType: string)
    requires MediaSound(w.server) && EntriesOwnHandles(w.server) && Contained(w)
    requires c.transportId in w.server.transports && w.server.transports[c.transportId].handle in w.server.media
    requires w'.server == AddProducer(w.server, c, trackType) && c.transportId in w.engine.transports
    requires w'.engine == E.CommitPublish(w.engine, c, ReplyData(Some(c.kind), Some(trackType), None, None)).engine
    ensures Agrees(w) ==> Agrees(w')
    ensures Contained(w')
  {
    hide AddProducer, LiveTransports, LiveProducers, LiveConsumers, MediaSound, EntriesOwnHandles, MembersAgree, MembersWithin;
    AddProducerLive(w.server, c, trackType);
    assert LiveTransports(w.server)[c.transportId] == w.engine.transports[c.transportId];
    assert ConsumerLinks(w'.engine) == ConsumerLinks(w.engine);
    SameRoomSets(w, w');
  }

  lemma PublishMirrored(w: World, w': World, c: Command, o: Oracle, reply: Reply)
    requires Sound(w.server) && Contained(w)
    requires c.transportId in w.engine.transports && c.producerId !in w.engine.producers
    requires w'.server == ProduceOp(w.server, c, o).0 && Answers(reply, ProduceOp(w.server, c, o).1)
    requires w'.engine == if reply.Accepted? then E.CommitPublish(w.engine, c, reply.data).engine else w.engine
    ensures Agrees(w) ==> Agrees(w')
    ensures Contained(w')
  {
    hide Sound, Agrees, Contained, AddProducer, E.CommitPublish, MediaSound, EntriesOwnHandles, ClosedOnce, DeadAreDue;
    hide LinksSound, TablesSound, RoutersSound;
    Parts(w.server);
    if reply.Accepted? {
      ProducerAddedMirrored(w, w', c, if c.trackType != "" then c.trackType else DefaultTrackType(c.kind));
    }
  }

  lemma AddConsumerLive(s: Backend, c: Command, consumerId: string)
    requires MediaSound(s) && EntriesOwnHandles(s)
    requires c.transportId in s.transports && s.transports[c.transportId].handle in s.media
    requires c.producerId in s.producers && s.producers[c.producerId].handle in s.media
    ensures c.transportId in LiveTransports(s) && c.producerId in LiveProducers(s)
    ensures var t := LiveTransports(s)[c.transportId];
            var p := LiveProducers(s)[c.producerId];
            LiveConsumers(AddConsumer(s, c, consumerId)) == LiveConsumers(s)[consumerId :=
              E.Consumer(t.roomId, t.peerId, c.transportId, c.producerId, p.peerId, p.kind, p.trackType, false)]
    ensures LiveTransports(AddConsumer(s, c, consumerId)) == LiveTransports(s)
    ensures LiveProducers(AddConsumer(s, c, consumerId)) == LiveProducers(s)
    ensures AddConsumer(s, c, consumerId).roomPeers == s.roomPeers
  {
    hide MediaSound, EntriesOwnHandles, LiveTransports, LiveProducers, LiveConsumers;
    HandlesExist(s);
    LiveTransportAt(s, c.transportId);
    LiveProducerAt(s, c.producerId);
    NewHandleSameLive(s, AddConsumer(s, c, consumerId));
    OneConsumerLive(s, AddConsumer(s, c, consumerId), consumerId, AddConsumer(s, c, consumerId).consumers[consumerId]);
  }

  lemma ConsumerAddedMirrored(w: World, w': World, c: Command, consumerId: string, data: ReplyData)
    requires MediaSound(w.server) && EntriesOwnHandles(w.server) && Contained(w)
    requires c.transportId in w.server.transports && w.server.transports[c.transportId].handle in w.server.media
    requires c.producerId in w.server.producers && w.server.producers[c.producerId].handle in w.server.media
    requires c.transportId in w.engine.transports && c.producerId in w.engine.producers && consumerId != ""
    requires w.engine.transports[c.transportId] == E.Transport(c.roomId, c.peerId)
    requires w'.server == AddConsumer(w.server, c, consumerId)
    requires var p := w.server.producers[c.producerId];
             data == ReplyData(Some(p.kind), Some(p.trackType), Some(consumerId), Some(true))
    requires w'.engine == E.CommitConsume(w.engine, c, data).engine
    ensures Agrees(w) ==> Agrees(w')
    ensures Contained(w')
  {
    hide AddConsumer, LiveTransports, LiveProducers, LiveConsumers, MediaSound, EntriesOwnHandles, MembersAgree, MembersWithin;
    AddConsumerLive(w.server, c, consumerId);
    LiveProducerAt(w.server, c.producerId);
    var p := w.engine.producers[c.producerId];
    assert LiveProducers(w.server)[c.producerId] == p;
    assert LiveTransports(w.server)[c.transportId] == w.engine.transports[c.transportId];
    var view := E.Consumer(c.roomId, c.peerId, c.transportId, c.producerId, p.peerId, p.kind, p.trackType, false);
    hide Within;
    WithinUpdated(LiveConsumers(w.server), ConsumerLinks(w.engine), consumerId, view);
    ConsumerRecorded(w.engine, w'.engine, c, data);
    SameRoomSets(w, w');
  }

  lemma ConsumerRecorded(e: E.Engine, e': E.Engine, c: Command, data: ReplyData)
    requires c.producerId in e.producers && data.consumerId.Some? && data.consumerId.value != ""
    requires data.kind == Some(e.producers[c.producerId].kind) && data.trackType == Some(e.producers[c.producerId].trackType)
    requires e' == E.CommitConsume(e, c, data).engine
    ensures e' == e.(consumers := e'.consumers)
    ensures var p := e.producers[c.producerId];
            ConsumerLinks(e') == ConsumerLinks(e)[data.consumerId.value :=
              E.Consumer(c.roomId, c.peerId, c.transportId, c.producerId, p.peerId, p.kind, p.trackType, false)]
  {
  }

  /** What a server that accepts to consume has found, and what it answers. */
  lemma ConsumeAccepted(s: Backend, c: Command, o: Oracle)
    requires ConsumeOp(s, c, o).1.Some?
    ensures c.transportId in s.transports && s.transports[c.transportId].handle in s.media
    ensures c.producerId in s.producers && s.producers[c.producerId].handle in s.media
    ensures var consumerId := if c.consumerId != "" then c.consumerId else c.producerId + "-consumer-" + o.generatedId;
            && consumerId != ""
            && ConsumeOp(s, c, o) == (AddConsumer(s, c, consumerId),
                 Some(ReplyData(Some(s.producers[c.producerId].kind), Some(s.producers[c.producerId].trackType), Some(consumerId), Some(true))))
  {
  }

  lemma ConsumePlanned(e: E.Engine, c: Command)
    requires E.PlanConsume(e, c, Consume).Call?
    ensures c.transportId in e.transports && c.producerId in e.producers
    ensures e.transports[c.transportId] == E.Transport(c.roomId, c.peerId)
  {
  }

  lemma ConsumeMirrored(w: World, w': World, c: Command, o: Oracle, reply: Reply)
    requires Sound(w.server) && Contained(w) && E.PlanConsume(w.engine, c, Consume).Call?
    requires w'.server == ConsumeOp(w.server, c, o).0 && Answers(reply, ConsumeOp(w.server, c, o).1)
    requires c.producerId in w.engine.producers
    requires w'.engine == if reply.Accepted? then E.CommitConsume(w.engine, c, reply.data).engine else w.engine
    ensures Agrees(w) ==> Agrees(w')
    ensures Contained(w')
  {
    hide Sound, Agrees, Contained, AddConsumer, E.CommitConsume, MediaSound, EntriesOwnHandles, ClosedOnce, DeadAreDue;
    hide LinksSound, TablesSound, RoutersSound, ConsumeOp, E.PlanConsume;
    ConsumeRefused(w.server, c, o);
    if reply.Accepted? {
      Parts(w.server);
      ConsumePlanned(w.engine, c);
      ConsumeAccepted(w.server, c, o);
      var consumerId := if c.consumerId != "" then c.consumerId else c.producerId + "-consumer-" + o.generatedId;
      ConsumerAddedMirrored(w, w', c, consumerId, reply.data);
    }
  }

  lemma ConsumeRefused(s: Backend, c: Command, o: Oracle)
    ensures ConsumeOp(s, c, o).1.None? ==> ConsumeOp(s, c, o).0 == s
  {
  }

  // ---- Commands that remove ----

  predicate HeldBy(roomId: string, peerId: string, room: string, peer: string) {
    room == roomId && peer == peerId
  }

  function TransportsWithout(live: map<string, E.Transport>, roomId: string, peerId: string): map<string, E.Transport> {
    map id | id in live && !HeldBy(roomId, peerId, live[id].roomId, live[id].peerId) :: live[id]
  }

  function ProducersWithout(live: map<string, E.Producer>, roomId: string, peerId: string): map<string, E.Producer> {
    map id | id in live && !HeldBy(roomId, peerId, live[id].roomId, live[id].peerId) :: live[id]
  }

  /** Without the peer's consumers, nor anyone's consumers of the producers that go. */
  function ConsumersWithout(live: map<string, E.Consumer>, kept: map<string, E.Producer>, roomId: string, peerId: string)
    : map<string, E.Consumer>
  {
    map id | id in live && !HeldBy(roomId, peerId, live[id].roomId, live[id].peerId) && live[id].producerId in kept :: live[id]
  }

  lemma SurvivesIff(was: Backend, next: Backend, dying: set<Handle>)
    requires Shrunk(was, next, dying)
    ensures forall id :: id in LiveTransports(next) <==>
              id in LiveTransports(was) && was.media[was.transports[id].handle] !! dying
    ensures forall id :: id in LiveProducers(next) <==>
              id in LiveProducers(was) && was.media[was.producers[id].handle] !! dying
    ensures forall id :: id in LiveConsumers(next) <==>
              id in LiveConsumers(was) && was.media[was.consumers[id].handle] !! dying
  {
  }

  /** A live transport dies exactly when it, its router or its worker does; what lives on it dies with it. */
  lemma TransportDies(s: Backend, next: Backend, dying: set<Handle>, id: string)
    requires Shrunk(s, next, dying) && LiveAreLinked(s) && id in LiveTransports(s)
    ensures var t := s.transports[id];
            id !in LiveTransports(next) <==>
            t.handle in dying || s.routers[t.roomId].handle in dying || s.routers[t.roomId].workerHandle in dying
  {
  }

  lemma ProducerDies(s: Backend, next: Backend, dying: set<Handle>, id: string)
    requires Shrunk(s, next, dying) && LiveAreLinked(s) && id in LiveProducers(s)
    ensures var p := s.producers[id];
            && p.transportId in LiveTransports(s)
            && LiveTransports(s)[p.transportId] == E.Transport(p.roomId, p.peerId)
            && (id !in LiveProducers(next) <==> p.handle in dying || p.transportId !in LiveTransports(next))
  {
  }

  lemma ConsumerDies(s: Backend, next: Backend, dying: set<Handle>, id: string)
    requires Shrunk(s, next, dying) && LiveAreLinked(s) && id in LiveConsumers(s)
    ensures var c := s.consumers[id];
            && c.transportId in LiveTransports(s)
            && LiveTransports(s)[c.transportId] == E.Transport(c.roomId, c.peerId)
            && c.producerId in LiveProducers(s) && LiveProducers(s)[c.producerId].roomId == c.roomId
            && (id !in LiveConsumers(next) <==>
                c.handle in dying || c.transportId !in LiveTransports(next) || c.producerId !in LiveProducers(next))
  {
    assert ConsumerLinked(s, s.consumers[id]);
    SurvivesIff(s, next, dying);
  }

  lemma RouterNotHeld(s: Backend, roomId: string, targets: set<Callback>)
    requires Sound(s) && roomId in s.routers
    ensures s.routers[roomId].handle !in HandlesFor(s, targets) && s.routers[roomId].workerHandle !in HandlesFor(s, targets)
    ensures forall r :: r in s.routers ==> s.routers[r].handle != s.routers[roomId].workerHandle
    ensures forall r :: r in s.routers && r != roomId ==> s.routers[r].handle != s.routers[roomId].handle
  {
    hide HandlesFor, MediaSound, EntriesOwnHandles, ClosedOnce, DeadAreDue, EntriesJoined, LiveAreLinked, LinksSound, TablesSound, Sound;
    Parts(s);
    HeldAreMade(s, targets);
  }

  /** Which transports a closing takes along, told by what was asked to close. */
  lemma TransportDiesByTarget(s: Backend, next: Backend, targets: set<Callback>, routers: set<Handle>, id: string)
    requires Sound(s) && Shrunk(s, next, HandlesFor(s, targets) + routers) && id in LiveTransports(s)
    requires forall h :: h in routers ==> exists r :: r in s.routers && s.routers[r].handle == h
    ensures s.transports[id].roomId in s.routers
    ensures id !in LiveTransports(next) <==>
            TransportClosed(id) in targets || s.routers[s.transports[id].roomId].handle in routers
  {
    hide Shrunk, HandlesFor, MediaSound, EntriesOwnHandles, ClosedOnce, DeadAreDue, EntriesJoined, RootsSound, LinksSound;
    hide TablesSound, Sound, RoutersSound;
    Parts(s);
    assert TransportLinked(s, s.transports[id]);
    hide LiveAreLinked;
    TransportDies(s, next, HandlesFor(s, targets) + routers, id);
    HeldIff(s, targets, TransportClosed(id));
    RouterNotHeld(s, s.transports[id].roomId, targets);
    TransportNotRouter(s, id);
  }

  lemma TransportNotRouter(s: Backend, id: string)
    requires EntriesOwnHandles(s) && RootsSound(s)
    ensures id in s.transports ==> forall r :: r in s.routers ==> s.routers[r].handle != s.transports[id].handle
    ensures id in s.producers ==> forall r :: r in s.routers ==> s.routers[r].handle != s.producers[id].handle
    ensures id in s.consumers ==> forall r :: r in s.routers ==> s.routers[r].handle != s.consumers[id].handle
  {
  }

  lemma ProducerDiesByTarget(s: Backend, next: Backend, targets: set<Callback>, routers: set<Handle>, id: string)
    requires Sound(s) && Shrunk(s, next, HandlesFor(s, targets) + routers) && id in LiveProducers(s)
    requires forall h :: h in routers ==> exists r :: r in s.routers && s.routers[r].handle == h
    ensures s.producers[id].transportId in LiveTransports(s)
    ensures LiveTransports(s)[s.producers[id].transportId] == E.Transport(s.producers[id].roomId, s.producers[id].peerId)
    ensures id !in LiveProducers(next) <==>
            ProducerClosed(id) in targets || s.producers[id].transportId !in LiveTransports(next)
  {
    hide Shrunk, HandlesFor, MediaSound, EntriesOwnHandles, ClosedOnce, DeadAreDue, EntriesJoined, RootsSound, LinksSound;
    hide TablesSound, Sound, RoutersSound, LiveAreLinked, RoutersClosedOnce, RouterLive;
    Parts(s);
    ProducerDies(s, next, HandlesFor(s, targets) + routers, id);
    HeldIff(s, targets, ProducerClosed(id));
    TransportNotRouter(s, id);
  }

  lemma ConsumerDiesByTarget(s: Backend, next: Backend, targets: set<Callback>, routers: set<Handle>, id: string)
    requires Sound(s) && Shrunk(s, next, HandlesFor(s, targets) + routers) && id in LiveConsumers(s)
    requires forall h :: h in routers ==> exists r :: r in s.routers && s.routers[r].handle == h
    ensures s.consumers[id].transportId in LiveTransports(s)
    ensures LiveTransports(s)[s.consumers[id].transportId] == E.Transport(s.consumers[id].roomId, s.consumers[id].peerId)
    ensures s.consumers[id].producerId in LiveProducers(s)
    ensures LiveProducers(s)[s.consumers[id].producerId].roomId == s.consumers[id].roomId
    ensures id !in LiveConsumers(next) <==>
            || ConsumerClosed(id) in targets
            || s.consumers[id].transportId !in LiveTransports(next)
            || s.consumers[id].producerId !in LiveProducers(next)
  {
    hide Shrunk, HandlesFor, MediaSound, EntriesOwnHandles, ClosedOnce, DeadAreDue, EntriesJoined, RootsSound, LinksSound;
    hide TablesSound, Sound, RoutersSound, LiveAreLinked, RoutersClosedOnce, RouterLive;
    Parts(s);
    ConsumerDies(s, next, HandlesFor(s, targets) + routers, id);
    HeldIff(s, targets, ConsumerClosed(id));
    TransportNotRouter(s, id);
  }

  /** When the leaver was the last one, everything in the room was the leaver's. */
  lemma LastOneOwnsAll(s: Backend, roomId: string, peerId: string)
    requires EntriesJoined(s) && Empties(s, roomId, peerId)
    ensures forall id :: id in s.transports && s.transports[id].roomId == roomId ==> s.transports[id].peerId == peerId
  {
    assert PeersIn(s, roomId) <= {peerId};
  }

  lemma PeersOwnTargets(s: Backend, roomId: string, peerId: string)
    ensures forall id :: id in s.transports ==>
              (TransportClosed(id) in PeerTargets(s, roomId, peerId)
               <==> HeldBy(roomId, peerId, s.transports[id].roomId, s.transports[id].peerId))
  {
  }

  /** A leaver's closing reaches a transport exactly if the leaver holds it. */
  lemma LeaverReaches(s: Backend, next: Backend, roomId: string, peerId: string, id: string)
    requires Sound(s) && Shrunk(s, next, LeaveHandles(s, roomId, peerId)) && id in LiveTransports(s)
    ensures id !in LiveTransports(next) <==> HeldBy(roomId, peerId, s.transports[id].roomId, s.transports[id].peerId)
  {
    hide Shrunk, HandlesFor, MediaSound, EntriesOwnHandles, ClosedOnce, DeadAreDue, EntriesJoined, LinksSound;
    hide TablesSound, Sound, RoutersSound, LiveAreLinked, RouterLive, RootsSound, LiveTransports, RoutersClosedOnce;
    Parts(s);
    var targets := PeerTargets(s, roomId, peerId);
    var routers := if Empties(s, roomId, peerId) then RouterHandles(s, roomId) else {};
    LiveIsListed(s, id);
    PeersOwnTargets(s, roomId, peerId);
    if Empties(s, roomId, peerId) { LastOneOwnsAll(s, roomId, peerId); }
    hide PeerTargets, Empties;
    TransportDiesByTarget(s, next, targets, routers, id);
    RouterNotHeld(s, s.transports[id].roomId, {});
  }

  lemma LiveIsListed(s: Backend, id: string)
    requires id in LiveTransports(s)
    ensures id in s.transports
  {
  }

  lemma LeaverTransports(s: Backend, next: Backend, roomId: string, peerId: string)
    requires Sound(s) && Shrunk(s, next, LeaveHandles(s, roomId, peerId))
    ensures LiveTransports(next) == TransportsWithout(LiveTransports(s), roomId, peerId)
  {
    hide Shrunk, Sound, LeaveHandles;
    forall id | id in LiveTransports(s)
      ensures id !in LiveTransports(next) <==> HeldBy(roomId, peerId, s.transports[id].roomId, s.transports[id].peerId)
    {
      LeaverReaches(s, next, roomId, peerId, id);
    }
    ShrunkLive(s, next, LeaveHandles(s, roomId, peerId));
  }

  lemma LeaverProducers(s: Backend, next: Backend, roomId: string, peerId: string)
    requires Sound(s) && Shrunk(s, next, LeaveHandles(s, roomId, peerId))
    ensures LiveProducers(next) == ProducersWithout(LiveProducers(s), roomId, peerId)
  {
    hide Shrunk, HandlesFor, Sound, LiveTransports;
    LeaverTransports(s, next, roomId, peerId);
    var targets := PeerTargets(s, roomId, peerId);
    var routers := if Empties(s, roomId, peerId) then RouterHandles(s, roomId) else {};
    forall id | id in LiveProducers(s)
      ensures id !in LiveProducers(next) <==> HeldBy(roomId, peerId, s.producers[id].roomId, s.producers[id].peerId)
    {
      ProducerDiesByTarget(s, next, targets, routers, id);
    }
    ShrunkLive(s, next, LeaveHandles(s, roomId, peerId));
  }

  lemma LeaverConsumers(s: Backend, next: Backend, roomId: string, peerId: string)
    requires Sound(s) && Shrunk(s, next, LeaveHandles(s, roomId, peerId))
    ensures LiveConsumers(next) == ConsumersWithout(LiveConsumers(s), LiveProducers(next), roomId, peerId)
  {
    hide Shrunk, HandlesFor, Sound, LiveTransports, LiveProducers;
    LeaverTransports(s, next, roomId, peerId);
    var targets := PeerTargets(s, roomId, peerId);
    var routers := if Empties(s, roomId, peerId) then RouterHandles(s, roomId) else {};
    forall id | id in LiveConsumers(s)
      ensures id !in LiveConsumers(next) <==>
              || HeldBy(roomId, peerId, s.consumers[id].roomId, s.consumers[id].peerId)
              || s.consumers[id].producerId !in LiveProducers(next)
    {
      ConsumerDiesByTarget(s, next, targets, routers, id);
    }
    ShrunkLive(s, next, LeaveHandles(s, roomId, peerId));
  }

  /** A live consumer's producer is alive. */
  lemma LiveConsumersProduced(s: Backend)
    requires Sound(s)
    ensures forall id :: id in LiveConsumers(s) ==>
              && LiveConsumers(s)[id].producerId in LiveProducers(s)
              && LiveProducers(s)[LiveConsumers(s)[id].producerId].roomId == LiveConsumers(s)[id].roomId
  {
  }

  lemma LeaverMembers(w: World, w': World, roomId: string, peerId: string)
    requires roomId in w.engine.rooms && w'.engine == E.WithoutPeer(w.engine, roomId, peerId)
    requires LeaveEffect(w.server, roomId, peerId, w'.server)
    ensures MembersAgree(w.server, w.engine) ==> MembersAgree(w'.server, w'.engine)
    ensures MembersWithin(w.server, w.engine) ==> MembersWithin(w'.server, w'.engine)
  {
    hide Sound, Shrunk;
    assert forall r :: PeersIn(w'.server, r) == PeersIn(w.server, r) - if r == roomId then {peerId} else {};
    forall r ensures E.MembersOf(w'.engine, r) == E.MembersOf(w.engine, r) - if r == roomId then {peerId} else {} {
      EngineRuns.LeaveShrinks(w.engine, roomId, peerId, r);
    }
  }

  /** The engine's side of a departure, in the same terms. */
  lemma EngineLeave(e: E.Engine, roomId: string, peerId: string)
    requires roomId in e.rooms
    ensures var next := E.WithoutPeer(e, roomId, peerId);
            && next.transports == TransportsWithout(e.transports, roomId, peerId)
            && next.producers == ProducersWithout(e.producers, roomId, peerId)
            && (forall id :: id in ConsumerLinks(next) <==>
                  && id in ConsumerLinks(e)
                  && !HeldBy(roomId, peerId, ConsumerLinks(e)[id].roomId, ConsumerLinks(e)[id].peerId)
                  && (ConsumerLinks(e)[id].producerId in e.producers ==> ConsumerLinks(e)[id].producerId in next.producers))
            && (forall id :: id in ConsumerLinks(next) ==> ConsumerLinks(next)[id] == ConsumerLinks(e)[id])
  {
  }

  lemma WithoutWithin(a: map<string, E.Transport>, b: map<string, E.Transport>, p: map<string, E.Producer>,
                      q: map<string, E.Producer>, roomId: string, peerId: string)
    requires Within(a, b) && Within(p, q)
    ensures Within(TransportsWithout(a, roomId, peerId), TransportsWithout(b, roomId, peerId))
    ensures Within(ProducersWithout(p, roomId, peerId), ProducersWithout(q, roomId, peerId))
  {
  }

  lemma LeaveConsumersContained(e: E.Engine, part: map<string, E.Consumer>, kept: map<string, E.Producer>, roomId: string, peerId: string)
    requires roomId in e.rooms && Within(part, ConsumerLinks(e)) && Within(kept, E.WithoutPeer(e, roomId, peerId).producers)
    ensures Within(ConsumersWithout(part, kept, roomId, peerId), ConsumerLinks(E.WithoutPeer(e, roomId, peerId)))
  {
  }

  lemma LeaveContained(w: World, w': World, roomId: string, peerId: string)
    requires Sound(w.server) && roomId in w.engine.rooms && w'.engine == E.WithoutPeer(w.engine, roomId, peerId)
    requires LeaveEffect(w.server, roomId, peerId, w'.server) && Contained(w)
    ensures Contained(w')
  {
    LeaverMembers(w, w', roomId, peerId);
    hide Sound, Shrunk, RoomGone, LeaveHandles, LiveTransports, LiveProducers, LiveConsumers, ConsumerLinks, E.WithoutPeer;
    hide TransportsWithout, ProducersWithout, ConsumersWithout, MembersWithin, Within;
    LeaverTransports(w.server, w'.server, roomId, peerId);
    LeaverProducers(w.server, w'.server, roomId, peerId);
    LeaverConsumers(w.server, w'.server, roomId, peerId);
    EngineLeave(w.engine, roomId, peerId);
    WithoutWithin(LiveTransports(w.server), w.engine.transports, LiveProducers(w.server), w.engine.producers, roomId, peerId);
    LeaveConsumersContained(w.engine, LiveConsumers(w.server), LiveProducers(w'.server), roomId, peerId);
  }

  /** When every consumer's producer is known, the engine keeps exactly the consumers whose producer it keeps. */
  lemma EngineLeaveConsumers(e: E.Engine, roomId: string, peerId: string)
    requires roomId in e.rooms
    requires forall id :: id in ConsumerLinks(e) ==> ConsumerLinks(e)[id].producerId in e.producers
    ensures var next := E.WithoutPeer(e, roomId, peerId);
            ConsumerLinks(next) == ConsumersWithout(ConsumerLinks(e), next.producers, roomId, peerId)
  {
  }

  lemma LeaveAgrees(w: World, w': World, roomId: string, peerId: string)
    requires Sound(w.server) && roomId in w.engine.rooms && w'.engine == E.WithoutPeer(w.engine, roomId, peerId)
    requires LeaveEffect(w.server, roomId, peerId, w'.server) && Agrees(w)
    ensures Agrees(w')
  {
    LeaverMembers(w, w', roomId, peerId);
    hide Sound, Shrunk, RoomGone, LeaveHandles, LiveTransports, LiveProducers, LiveConsumers, ConsumerLinks, E.WithoutPeer;
    hide TransportsWithout, ProducersWithout, ConsumersWithout, MembersAgree;
    LeaverTransports(w.server, w'.server, roomId, peerId);
    LeaverProducers(w.server, w'.server, roomId, peerId);
    LeaverConsumers(w.server, w'.server, roomId, peerId);
    LiveConsumersProduced(w.server);
    EngineLeave(w.engine, roomId, peerId);
    EngineLeaveConsumers(w.engine, roomId, peerId);
  }

  // ---- Closing a producer ----

  lemma TreeCut(s: Backend, next: Backend, producerId: string)
    requires Sound(s) && CloseProducerEffect(s, producerId, next)
    ensures LiveTransports(next) == LiveTransports(s)
    ensures LiveProducers(next) == LiveProducers(s) - {producerId}
  {
    hide Shrunk, HandlesFor, Sound;
    var targets := ProducerTree(s, producerId);
    assert HandlesFor(s, targets) + {} == HandlesFor(s, targets);
    ShrunkLive(s, next, HandlesFor(s, targets));
    forall id | id in LiveTransports(s) ensures id in LiveTransports(next) {
      TransportDiesByTarget(s, next, targets, {}, id);
    }
    hide LiveTransports;
    forall id | id in LiveProducers(s) ensures id in LiveProducers(next) <==> id != producerId {
      ProducerDiesByTarget(s, next, targets, {}, id);
    }
  }

  lemma TreeCutConsumers(s: Backend, next: Backend, producerId: string)
    requires Sound(s) && CloseProducerEffect(s, producerId, next)
    ensures LiveConsumers(next) == map id | id in LiveConsumers(s) && LiveConsumers(s)[id].producerId != producerId :: LiveConsumers(s)[id]
  {
    hide Shrunk, HandlesFor, Sound, LiveTransports, LiveProducers;
    var targets := ProducerTree(s, producerId);
    assert HandlesFor(s, targets) + {} == HandlesFor(s, targets);
    ShrunkLive(s, next, HandlesFor(s, targets));
    TreeCut(s, next, producerId);
    forall id | id in LiveConsumers(s) ensures id in LiveConsumers(next) <==> s.consumers[id].producerId != producerId {
      ConsumerDiesByTarget(s, next, targets, {}, id);
    }
  }

  lemma EngineClose(e: E.Engine, c: Command)
    requires c.producerId in e.producers
    ensures var next := E.CommitTrackChange(e, c, CloseTrack).engine;
            && next == e.(producers := e.producers - {c.producerId}, consumers := next.consumers)
            && ConsumerLinks(next) == map id | id in ConsumerLinks(e)
                 && !(ConsumerLinks(e)[id].producerId == c.producerId && ConsumerLinks(e)[id].roomId == e.producers[c.producerId].roomId)
                 :: ConsumerLinks(e)[id]
  {
  }

  lemma CloseMirrored(w: World, w': World, c: Command)
    requires Sound(w.server) && c.producerId in w.engine.producers
    requires w'.engine == E.CommitTrackChange(w.engine, c, CloseTrack).engine
    requires CloseProducerEffect(w.server, c.producerId, w'.server)
    ensures Contained(w) ==> Contained(w')
    ensures Agrees(w) ==> Agrees(w')
  {
    hide Sound, Shrunk, LiveTransports, LiveProducers, LiveConsumers, ConsumerLinks, MembersAgree, MembersWithin, E.CommitTrackChange, HandlesFor;
    TreeCut(w.server, w'.server, c.producerId);
    TreeCutConsumers(w.server, w'.server, c.producerId);
    LiveConsumersProduced(w.server);
    EngineClose(w.engine, c);
    SameRoomSets(w, w');
  }

  /** A close that the server refuses means it has lost the producer already: then the engine still has it. */
  lemma TrackChangePlanned(e: E.Engine, input: E.Input)
    requires input.Execute? && input.intent.CloseTrack? && E.PlanOf(e, input).Call?
    ensures var sent := E.PlanOf(e, input).sent;
            && sent.producerId == input.command.producerId && sent.producerId in e.producers
            && sent.peerId == input.command.peerId && sent.peerId == e.producers[sent.producerId].peerId
            && E.PlanOf(e, input).operation == CloseProducer
  {
  }

  // ---- Every command ----

  /** The call the engine makes for an input that passes validation. */
  lemma PlannedCall(e: E.Engine, input: E.Input)
    requires E.PlanOf(e, input).Call?
    ensures E.IsLeave(input) ==> E.PlanOf(e, input).operation in {LeavePeer, ClosePeer}
    ensures E.IsLeave(input) ==> var sent := E.PlanOf(e, input).sent; sent.roomId in e.rooms && sent.roomId != "" && sent.peerId != ""
    ensures !E.IsLeave(input) ==> E.PlanOf(e, input).operation == OperationFor(input.intent)
    ensures !E.IsLeave(input) && input.intent in {CreateRoom, JoinSession, OpenTransport, PublishTrack, ConsumeTrack} ==>
              E.PlanOf(e, input).sent == input.command
    ensures !E.IsLeave(input) && input.intent.ConsumeTrack? ==> E.PlanConsume(e, input.command, Consume).Call?
  {
  }

  /** Pausing, resuming, signaling and reading statistics change no link on either side. */
  lemma SameLinksMirrored(w: World, w': World)
    requires w'.server == w.server && w'.engine == w.engine.(consumers := w'.engine.consumers)
    requires ConsumerLinks(w'.engine) == ConsumerLinks(w.engine)
    ensures Contained(w) ==> Contained(w')
    ensures Agrees(w) ==> Agrees(w')
  {
  }

  lemma ResumeSameLinks(e: E.Engine, c: Command)
    requires c.consumerId in e.consumers
    ensures ConsumerLinks(E.CommitResumeConsumer(e, c).engine) == ConsumerLinks(e)
  {
  }

  lemma LeaveCommanded(w: World, input: E.Input, o: Oracle, reply: Reply, order: seq<string>, w': World)
    requires Sound(w.server) && Contained(w) && Commanded(w, input, o, reply, order, w')
    requires E.PlanOf(w.engine, input).Call? && E.IsLeave(input)
    requires o.handled
    ensures Contained(w')
    ensures Agrees(w) ==> Agrees(w')
  {
    hide E.PlanOf, Sound, Contained, Agrees, E.WithoutPeer, LeaveEffect;
    PlannedCall(w.engine, input);
    var sent := E.PlanOf(w.engine, input).sent;
    LeaveContained(w, w', sent.roomId, sent.peerId);
    if Agrees(w) { LeaveAgrees(w, w', sent.roomId, sent.peerId); }
  }

  lemma CloseCommanded(w: World, input: E.Input, o: Oracle, reply: Reply, order: seq<string>, w': World)
    requires Sound(w.server) && Contained(w) && Commanded(w, input, o, reply, order, w')
    requires E.PlanOf(w.engine, input).Call? && input.Execute? && input.intent.CloseTrack?
    requires o.handled
    ensures Contained(w')
    ensures Agrees(w) ==> Agrees(w')
  {
    hide E.PlanOf, Sound, Contained, Agrees, CloseProducerEffect, E.CommitTrackChange;
    TrackChangePlanned(w.engine, input);
    if reply.Accepted? { CloseMirrored(w, w', input.command); }
  }

  lemma AddCommanded(w: World, input: E.Input, o: Oracle, reply: Reply, order: seq<string>, w': World)
    requires Sound(w.server) && Contained(w) && Commanded(w, input, o, reply, order, w')
    requires E.PlanOf(w.engine, input).Call? && input.Execute?
    requires input.intent in {CreateRoom, JoinSession, OpenTransport, PublishTrack, ConsumeTrack}
    requires o.handled
    ensures Contained(w')
    ensures Agrees(w) ==> Agrees(w')
  {
    hide E.PlanOf, Sound, Contained, Agrees, JoinPeerOp, CreateTransportOp, ProduceOp, ConsumeOp, EnsureRoomRouter;
    hide E.CommitJoin, E.CommitPublish, E.CommitConsume, E.PlanConsume, E.MentionsAlreadyExists, Answers;
    PlannedCall(w.engine, input);
    EngineRuns.Validated(w.engine, input);
    var c := input.command;
    match input.intent {
      case CreateRoom => CreateMirrored(w, w', c, o);
      case JoinSession => JoinMirrored(w, w', c, o, reply);
      case OpenTransport => OpenTransportMirrored(w, w', c, o, reply);
      case PublishTrack => PublishMirrored(w, w', c, o, reply);
      case ConsumeTrack => ConsumeMirrored(w, w', c, o, reply);
      case _ =>
    }
  }

  lemma CreateMirrored(w: World, w': World, c: Command, o: Oracle)
    requires Sound(w.server) && c.roomId !in w.engine.rooms && w'.server == CreateRouterOp(w.server, c, o).0
    requires w'.engine == w.engine || w'.engine == w.engine.(rooms := w.engine.rooms[c.roomId := {}])
    ensures Contained(w) ==> Contained(w')
    ensures Agrees(w) ==> Agrees(w')
  {
    hide Sound, Contained, Agrees, EnsureRoomRouter;
    var mid := World(w.engine, w'.server);
    RoomMirrored(mid, w', c.roomId);
    if mid.server != w.server { RouterReady(w, mid, c, o); }
  }

  lemma OtherCommanded(w: World, input: E.Input, o: Oracle, reply: Reply, order: seq<string>, w': World)
    requires Contained(w) && Commanded(w, input, o, reply, order, w')
    requires E.PlanOf(w.engine, input).Call? && input.Execute?
    requires input.intent in {PauseTrack, ResumeTrack, ResumeConsumer, ApplyOffer, ApplyIce, ReadStats}
    requires o.handled
    ensures Contained(w')
    ensures Agrees(w) ==> Agrees(w')
  {
    hide E.PlanOf, Contained, Agrees, E.CommitResumeConsumer, E.OrderFits, E.CommitLeave, E.MentionsAlreadyExists;
    hide CreateRouterOp, JoinPeerOp, CreateTransportOp, ProduceOp, ConsumeOp, LeaveEffect, CloseProducerEffect;
    PlannedCall(w.engine, input);
    EngineRuns.Validated(w.engine, input);
    if input.intent.ResumeConsumer? && reply.Accepted? {
      ResumeSameLinks(w.engine, input.command);
      ResumeOnlyConsumers(w.engine, input.command);
    }
    SameLinksMirrored(w, w');
  }

  lemma ResumeOnlyConsumers(e: E.Engine, c: Command)
    requires c.consumerId in e.consumers
    ensures var next := E.CommitResumeConsumer(e, c).engine; next == e.(consumers := next.consumers)
  {
  }

  /** A request turned away at the server's door changes nothing but perhaps the engine's set of empty rooms. */
  lemma TurnedAway(w: World, input: E.Input, o: Oracle, reply: Reply, order: seq<string>, w': World)
    requires Contained(w) && Commanded(w, input, o, reply, order, w') && !o.handled && E.PlanOf(w.engine, input).Call?
    ensures Contained(w')
    ensures Agrees(w) ==> Agrees(w')
  {
    EngineRuns.Validated(w.engine, input);
    hide E.PlanOf, Contained, Agrees, E.MentionsAlreadyExists, E.Commit, E.OrderFits, Operates;
    if w'.engine != w.engine {
      RoomMirrored(w, w', input.command.roomId);
    }
  }

  lemma CommandSound(w: World, input: E.Input, o: Oracle, reply: Reply, order: seq<string>, w': World)
    requires Sound(w.server) && Commanded(w, input, o, reply, order, w')
    ensures Sound(w'.server)
    ensures !E.PlanOf(w.engine, input).Call? ==> w' == w
  {
    hide E.PlanOf, Sound, Handles, E.Commit;
    if E.PlanOf(w.engine, input).Call? {
      var plan := E.PlanOf(w.engine, input);
      HandlesSound(w.server, plan.operation, plan.sent, o, w'.server, reply);
    }
  }

  lemma CommandMirrored(w: World, input: E.Input, o: Oracle, reply: Reply, order: seq<string>, w': World)
    requires Sound(w.server) && Contained(w) && Commanded(w, input, o, reply, order, w')
    ensures Sound(w'.server) && Contained(w')
    ensures Agrees(w) ==> Agrees(w')
  {
    hide E.PlanOf, Sound, Contained, Agrees, Commanded, E.OrderFits;
    CommandSound(w, input, o, reply, order, w');
    if E.PlanOf(w.engine, input).Call? {
      if !o.handled {
        TurnedAway(w, input, o, reply, order, w');
      } else if E.IsLeave(input) {
        LeaveCommanded(w, input, o, reply, order, w');
      } else if input.intent.CloseTrack? {
        CloseCommanded(w, input, o, reply, order, w');
      } else if input.intent in {CreateRoom, JoinSession, OpenTransport, PublishTrack, ConsumeTrack} {
        AddCommanded(w, input, o, reply, order, w');
      } else {
        OtherCommanded(w, input, o, reply, order, w');
      }
    }
  }

  // ---- Runs ----

  datatype Moment = Moment(before: World, step: Step, after: World)

  const START := World(E.EMPTY, EMPTY)

  function WorldAfter(run: seq<Moment>): World {
    if run == [] then START else run[|run| - 1].after
  }

  /** Any commands, callbacks, closes and worker births and deaths, in any order, from the empty server and engine. */
  ghost predicate IsRun(run: seq<Moment>) {
    run == [] ||
    (var last := run[|run| - 1];
     IsRun(run[..|run| - 1]) && last.before == WorldAfter(run[..|run| - 1]) && Steps(last.before, last.step, last.after))
  }

  lemma StepMirrored(w: World, step: Step, w': World)
    requires Sound(w.server) && Contained(w) && Steps(w, step, w')
    ensures Sound(w'.server) && Contained(w')
    ensures Agrees(w) && !Spontaneous(step) && (step.CallbackRuns? ==> Quiet(w.server, step.callback)) ==> Agrees(w')
  {
    hide Sound, Contained, Agrees, Shrunk, Commanded;
    match step {
      case ClientCommand(input, o, reply, order) => CommandMirrored(w, input, o, reply, order, w');
      case CallbackRuns(callback) => ClosedMirrored(w, w', callback);
      case ClosesItself(target) => ClosedMirrored(w, w', target);
      case WorkerDies(id) => WorkerDeathMirrored(w, w', id);
      case WorkerStarts(id) => WorkerStartMirrored(w, w', id); AddWorkerSound(w.server, id);
    }
  }

  lemma EmptyMirrored()
    ensures Sound(START.server) && Agrees(START)
  {
    EmptySound();
    NothingAgrees(START);
    hide Sound, Agrees;
  }

  /** Two sides without anybody in any room and without anything else agree. */
  lemma NothingAgrees(w: World)
    requires forall r :: PeersIn(w.server, r) == {} && E.MembersOf(w.engine, r) == {}
    requires w.server.transports.Keys == {} && w.server.producers.Keys == {} && w.server.consumers.Keys == {}
    requires w.engine.transports.Keys == {} && w.engine.producers.Keys == {} && w.engine.consumers.Keys == {}
    ensures Agrees(w)
  {
    assert LiveTransports(w.server).Keys == {} && LiveProducers(w.server).Keys == {};
    assert LiveConsumers(w.server).Keys == {} && ConsumerLinks(w.engine).Keys == {};
  }

  lemma EmptySound()
    ensures Sound(EMPTY)
  {
  }

  /** Whatever happens, the server stays sound and what is alive on it is known to the engine. */
  lemma {:induction false} ServerWithinEngine(run: seq<Moment>)
    requires IsRun(run)
    ensures Sound(WorldAfter(run).server) && Contained(WorldAfter(run))
  {
    hide Sound, Contained, Agrees, Steps;
    if run == [] {
      EmptyMirrored();
      AgreesContained(START);
    } else {
      var last := run[|run| - 1];
      ServerWithinEngine(run[..|run| - 1]);
      StepMirrored(last.before, last.step, last.after);
    }
  }

  /** With no callback outstanding, everything in the server's tables is in the engine's maps, link by link. */
  lemma QuiescentContainment(run: seq<Moment>)
    requires IsRun(run) && WorldAfter(run).server.pending == {}
    ensures var s := WorldAfter(run).server;
            var e := WorldAfter(run).engine;
            && (forall r :: PeersIn(s, r) <= E.MembersOf(e, r))
            && (forall id :: id in s.transports ==>
                  id in e.transports && e.transports[id] == E.Transport(s.transports[id].roomId, s.transports[id].peerId))
            && (forall id :: id in s.producers ==> id in e.producers && e.producers[id] == ProducerView(s.producers[id]))
            && (forall id :: id in s.consumers ==>
                  id in e.consumers && e.consumers[id].(paused := false) == ConsumerView(s.consumers[id]))
  {
    hide Sound, IsRun;
    ServerWithinEngine(run);
    var s := WorldAfter(run).server;
    QuiescentIntegrity(s);
    assert LiveTransports(s).Keys == s.transports.Keys;
    assert LiveProducers(s).Keys == s.producers.Keys;
    assert LiveConsumers(s).Keys == s.consumers.Keys;
  }

  /**
   Why the answer must arrive: when a join takes effect on the server but its answer is lost, the engine
   refuses the join and the server has a peer the engine does not know.
   */
  lemma LostAnswerBreaksContainment(w: World, input: E.Input, o: Oracle, timeout: string, s': Backend)
    requires input.Execute? && input.intent.JoinSession? && E.PlanOf(w.engine, input).Call?
    requires input.command.peerId !in E.MembersOf(w.engine, input.command.roomId)
    requires JoinPeerOp(w.server, input.command, o).1.Some? && s' == JoinPeerOp(w.server, input.command, o).0
    ensures !Contained(World(E.Perform(w.engine, input, Rejected(timeout), []).engine, s'))
  {
  }
}
