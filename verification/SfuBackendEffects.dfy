/** What each operation of the mediasoup server comes to: exactly when it answers, with what, and what the tables hold then. */
module SfuBackendEffects {
  import opened MediaTypes
  import opened SfuBackend
  import opened SfuBackendClosing
  import opened SfuBackendOps
  import opened SfuBackendOpsSound

  /** The room has a router, on a worker in the pool, both alive. */
  predicate Routed(s: Backend, roomId: string) {
    roomId in s.routers && s.routers[roomId].handle in s.media && roomId in s.workerByRoom && s.workerByRoom[roomId] in s.pool
  }

  /** Only the room's router and worker may be new, and a handle for the router. */
  ghost predicate OnlyRouterNew(s: Backend, next: Backend, roomId: string) {
    && next.pool == s.pool && next.roomPeers == s.roomPeers
    && next.transports == s.transports && next.producers == s.producers && next.consumers == s.consumers
    && (forall r :: r != roomId ==> (r in next.routers <==> r in s.routers) && (r in next.workerByRoom <==> r in s.workerByRoom))
    && (forall r :: r != roomId && r in s.routers ==> next.routers[r] == s.routers[r])
  }

  /** A routed room stays as it is; another gets a router on its worker, or the picked one, if that is in the pool and does it. */
  lemma RouterEffects(s: Backend, roomId: string, o: Oracle)
    requires Sound(s)
    ensures var (next, ready) := EnsureRoomRouter(s, roomId, o);
            && (Routed(s, roomId) ==> next == s && ready)
            && (!Routed(s, roomId) ==>
                  var worker := if roomId in s.workerByRoom && s.workerByRoom[roomId] in s.pool then s.workerByRoom[roomId] else o.worker;
                  && (ready <==> worker in s.pool && o.routerMade)
                  && OnlyRouterNew(s, next, roomId)
                  && (worker in s.pool ==> roomId in next.workerByRoom && next.workerByRoom[roomId] == worker))
            && (ready ==> Routed(next, roomId))
  {
    hide MediaSound, EntriesOwnHandles, ClosedOnce, DeadAreDue, EntriesJoined, LiveAreLinked, Sound, TablesSound, LinksSound, RoutersSound;
    hide RootsSound, RoutersClosedOnce, PlaceRouter;
    Parts(s);
    assert roomId in s.routers ==> RouterLive(s, roomId);
    if roomId !in s.routers {
      RouterPlaced(s, roomId, o);
    }
  }

  lemma RouterPlaced(s: Backend, roomId: string, o: Oracle)
    requires roomId !in s.routers
    ensures var (next, ready) := PlaceRouter(s, roomId, o);
            var worker := if roomId in s.workerByRoom && s.workerByRoom[roomId] in s.pool then s.workerByRoom[roomId] else o.worker;
            && (ready <==> worker in s.pool && o.routerMade)
            && OnlyRouterNew(s, next, roomId)
            && (worker in s.pool ==> roomId in next.workerByRoom && next.workerByRoom[roomId] == worker)
            && (ready ==> Routed(next, roomId))
  {
    var worker := if roomId in s.workerByRoom && s.workerByRoom[roomId] in s.pool then s.workerByRoom[roomId] else o.worker;
    hide OnlyRouterNew, Routed, AddRouter;
    if worker in s.pool {
      RouterAdded(s, roomId, worker);
      OnlyAssigned(s, roomId, worker);
    } else {
      NothingNew(s, roomId);
    }
  }

  lemma RouterAdded(s: Backend, roomId: string, workerId: string)
    requires workerId in s.pool
    ensures var next := AddRouter(s, roomId, workerId);
            OnlyRouterNew(s, next, roomId) && Routed(next, roomId) && next.workerByRoom == s.workerByRoom[roomId := workerId]
  {
  }

  lemma OnlyAssigned(s: Backend, roomId: string, workerId: string)
    ensures OnlyRouterNew(s, s.(workerByRoom := s.workerByRoom[roomId := workerId]), roomId)
  {
  }

  lemma NothingNew(s: Backend, roomId: string)
    ensures OnlyRouterNew(s, s, roomId)
  {
  }

  /** Both checks and the router: then the peer is in the room, and nothing else has happened but perhaps a new router. */
  lemma JoinEffects(s: Backend, c: Command, o: Oracle, next: Backend, reply: Reply)
    requires Sound(s) && Operates(s, JoinPeer, c, o, next, reply)
    ensures var ready := EnsureRoomRouter(s, c.roomId, o).1;
            && (reply.Accepted? <==> c.roomId != "" && c.peerId != "" && o.admitted && ready && o.fits)
            && (reply.Accepted? ==> forall r :: PeersIn(next, r) == PeersIn(s, r) + if r == c.roomId then {c.peerId} else {})
            && (reply.Rejected? ==> next.roomPeers == s.roomPeers)
            && next.transports == s.transports && next.producers == s.producers && next.consumers == s.consumers
  {
    hide Sound, EnsureRoomRouter;
    EnsureRoomRouterSound(s, c.roomId, o);
  }

  lemma OpenEffects(s: Backend, c: Command, o: Oracle, next: Backend, reply: Reply)
    requires Sound(s) && Operates(s, CreateWebRtcTransport, c, o, next, reply)
    ensures reply.Accepted? <==>
              && c.roomId != "" && c.peerId != "" && c.transportId != "" && c.peerId in PeersIn(s, c.roomId)
              && c.transportId !in s.transports && o.admitted && o.mediaMade
    ensures reply.Accepted? ==>
              && next.transports == s.transports[c.transportId := TransportEntry(c.roomId, c.peerId, s.nextHandle)]
              && next.made == s.made[s.nextHandle := TransportClosed(c.transportId)]
              && next.producers == s.producers && next.consumers == s.consumers && SameRooms(s, next)
    ensures reply.Rejected? ==> next == s
  {
    hide JoinPeerOp, ProduceOp, ConsumeOp, Leaves, CloseProducerEffect, EnsureRoomRouter, Answer, Sound, PeersIn;
    JoinedIsRouted(s, c.roomId, o);
  }

  /** A room with peers has its router already, alive. */
  lemma JoinedIsRouted(s: Backend, roomId: string, o: Oracle)
    requires Sound(s)
    ensures PeersIn(s, roomId) != {} ==> EnsureRoomRouter(s, roomId, o) == (s, true) && HasLiveRouter(s, roomId)
  {
    hide MediaSound, EntriesOwnHandles, ClosedOnce, DeadAreDue, LiveAreLinked, TablesSound, LinksSound, RootsSound, RoutersSound, Sound;
    hide EnsureRoomRouter;
    Parts(s);
    EnsureRoomRouterSound(s, roomId, o);
    assert roomId in s.roomPeers ==> roomId in s.routers;
    assert roomId in s.routers ==> RouterLive(s, roomId);
  }

  /** Without a track type, video is the camera and everything else the microphone. */
  lemma ProduceEffects(s: Backend, c: Command, o: Oracle, next: Backend, reply: Reply)
    requires Sound(s) && Operates(s, Produce, c, o, next, reply)
    ensures reply.Accepted? <==>
              && c.transportId != "" && c.producerId != "" && c.kind != "" && c.transportId in s.transports
              && s.transports[c.transportId].handle in s.media && c.producerId !in s.producers && o.admitted && o.mediaMade
    ensures reply.Accepted? ==>
              var t := s.transports[c.transportId];
              var trackType := if c.trackType != "" then c.trackType else if c.kind == "video" then "camera" else "microphone";
              && next.producers == s.producers[c.producerId := ProducerEntry(t.roomId, t.peerId, c.transportId, c.kind, trackType, s.nextHandle)]
              && next.made == s.made[s.nextHandle := ProducerClosed(c.producerId)]
              && reply.data.kind == Some(c.kind) && reply.data.trackType == Some(trackType)
              && next.transports == s.transports && next.consumers == s.consumers && SameRooms(s, next)
    ensures reply.Rejected? ==> next == s
  {
    hide JoinPeerOp, CreateTransportOp, ConsumeOp, Leaves, CloseProducerEffect, EnsureRoomRouter, Answer;
    hide Sound, PeersIn;
    HolderJoined(s, c.transportId);
  }

  lemma ConsumeEffects(s: Backend, c: Command, o: Oracle, next: Backend, reply: Reply)
    requires Sound(s) && Operates(s, Consume, c, o, next, reply)
    ensures var id := if c.consumerId != "" then c.consumerId else c.producerId + "-consumer-" + o.generatedId;
            && (reply.Accepted? <==>
                  && c.transportId != "" && c.producerId != "" && c.transportId in s.transports && c.producerId in s.producers
                  && s.producers[c.producerId].roomId == s.transports[c.transportId].roomId && id !in s.consumers
                  && s.transports[c.transportId].handle in s.media && s.producers[c.producerId].handle in s.media
                  && o.admitted && o.mediaMade)
            && (reply.Accepted? ==>
                  var t, p := s.transports[c.transportId], s.producers[c.producerId];
                  && next.consumers == s.consumers[id := ConsumerEntry(t.roomId, t.peerId, c.transportId, c.producerId, p.peerId,
                                                                       p.kind, p.trackType, s.nextHandle)]
                  && next.made == s.made[s.nextHandle := ConsumerClosed(id)]
                  && reply.data == ReplyData(Some(p.kind), Some(p.trackType), Some(id), Some(true))
                  && next.transports == s.transports && next.producers == s.producers && SameRooms(s, next))
    ensures reply.Rejected? ==> next == s
  {
    hide JoinPeerOp, CreateTransportOp, ProduceOp, ConsumeOp, Leaves, CloseProducerEffect, EnsureRoomRouter, Answer, AddConsumer;
    hide Sound, PeersIn, SameRooms;
    HolderJoined(s, c.transportId);
    ConsumeAnswers(s, c, o);
    if Consumable(s, c, o) {
      ConsumerEntered(s, c, ConsumerName(c, o));
    }
  }

  /** Who holds a transport is in its room. */
  lemma HolderJoined(s: Backend, id: string)
    requires Sound(s)
    ensures id in s.transports ==> s.transports[id].peerId in PeersIn(s, s.transports[id].roomId)
  {
    hide MediaSound, EntriesOwnHandles, ClosedOnce, DeadAreDue, LiveAreLinked, RoutersSound;
  }

  function ConsumerName(c: Command, o: Oracle): string {
    if c.consumerId != "" then c.consumerId else c.producerId + "-consumer-" + o.generatedId
  }

  predicate Consumable(s: Backend, c: Command, o: Oracle) {
    && c.transportId != "" && c.producerId != "" && c.transportId in s.transports && c.producerId in s.producers
    && s.producers[c.producerId].roomId == s.transports[c.transportId].roomId && ConsumerName(c, o) !in s.consumers
    && s.transports[c.transportId].handle in s.media && s.producers[c.producerId].handle in s.media
    && o.admitted && o.mediaMade
  }

  lemma ConsumeAnswers(s: Backend, c: Command, o: Oracle)
    requires c.transportId in s.transports ==> s.transports[c.transportId].peerId in PeersIn(s, s.transports[c.transportId].roomId)
    ensures ConsumeOp(s, c, o).1.Some? <==> Consumable(s, c, o)
    ensures ConsumeOp(s, c, o).1.None? ==> ConsumeOp(s, c, o).0 == s
    ensures Consumable(s, c, o) ==>
              var p := s.producers[c.producerId];
              ConsumeOp(s, c, o) == (AddConsumer(s, c, ConsumerName(c, o)),
                                     Some(ReplyData(Some(p.kind), Some(p.trackType), Some(ConsumerName(c, o)), Some(true))))
  {
    hide AddConsumer, PeersIn;
  }

  lemma ConsumerEntered(s: Backend, c: Command, id: string)
    requires c.transportId in s.transports && s.transports[c.transportId].handle in s.media
    requires c.producerId in s.producers && s.producers[c.producerId].handle in s.media
    ensures var t, p, next := s.transports[c.transportId], s.producers[c.producerId], AddConsumer(s, c, id);
            && next.consumers == s.consumers[id := ConsumerEntry(t.roomId, t.peerId, c.transportId, c.producerId, p.peerId,
                                                                 p.kind, p.trackType, s.nextHandle)]
            && next.made == s.made[s.nextHandle := ConsumerClosed(id)]
            && next.transports == s.transports && next.producers == s.producers && SameRooms(s, next)
  {
  }

  /** Closing, pausing and resuming a producer are for its own peer, if one is named. */
  lemma ProducerOwner(s: Backend, operation: Operation, c: Command, o: Oracle, next: Backend, reply: Reply)
    requires operation in {CloseProducer, PauseProducer, ResumeProducer} && Operates(s, operation, c, o, next, reply)
    ensures var own := c.producerId != "" && c.producerId in s.producers && (c.peerId == "" || s.producers[c.producerId].peerId == c.peerId);
            && (operation.CloseProducer? ==> (reply.Accepted? <==> own))
            && (!operation.CloseProducer? ==> next == s && (reply.Accepted? <==> own && o.mediaMade))
            && (reply.Accepted? && operation.PauseProducer? ==> reply.data.paused == Some(true))
            && (reply.Accepted? && operation.ResumeProducer? ==> reply.data.paused == Some(false))
            && (reply.Rejected? ==> next == s)
  {
    hide CloseProducerEffect;
  }

  lemma EntryAnswers(s: Backend, operation: Operation, c: Command, o: Oracle, next: Backend, reply: Reply)
    requires operation in {ResumeConsumerStream, ConnectDtls, GetMediaStats} && Operates(s, operation, c, o, next, reply)
    ensures next == s
    ensures operation.ResumeConsumerStream? ==> (reply.Accepted? <==> c.consumerId != "" && c.consumerId in s.consumers && o.mediaMade)
    ensures operation.ConnectDtls? ==> (reply.Accepted? <==> c.transportId != "" && c.transportId in s.transports && o.mediaMade)
    ensures operation.GetMediaStats? ==> (reply.Accepted? <==> o.mediaMade)
  {
  }

  /** Who leaves holds nothing in the room any more, nor do others consume from it; a room without peers is gone. */
  lemma LeaveEffects(s: Backend, c: Command, o: Oracle, operation: Operation, next: Backend, reply: Reply)
    requires Sound(s) && operation in {LeavePeer, ClosePeer} && Operates(s, operation, c, o, next, reply)
    ensures reply.Accepted? <==> c.roomId != "" && c.peerId != ""
    ensures reply.Rejected? ==> next == s
    ensures reply.Accepted? ==> forall r :: PeersIn(next, r) == PeersIn(s, r) - if r == c.roomId then {c.peerId} else {}
    ensures reply.Accepted? ==>
              && (forall id :: id in next.transports ==> !(next.transports[id].roomId == c.roomId && next.transports[id].peerId == c.peerId))
              && (forall id :: id in next.producers ==> !(next.producers[id].roomId == c.roomId && next.producers[id].peerId == c.peerId))
              && (forall id :: id in next.consumers ==> !(next.consumers[id].roomId == c.roomId && next.consumers[id].peerId == c.peerId))
    ensures reply.Accepted? && c.roomId in s.roomPeers && s.roomPeers[c.roomId] <= {c.peerId} ==>
              c.roomId !in next.roomPeers && c.roomId !in next.routers && c.roomId !in next.workerByRoom
  {
    hide Sound, Shrunk, PeerTargets;
    if reply.Accepted? {
      NothingKept(s, next, c.roomId, c.peerId);
    }
  }

  lemma NothingKept(s: Backend, next: Backend, roomId: string, peerId: string)
    requires Sound(next) && Shrunk(s, next, LeaveHandles(s, roomId, peerId))
    ensures forall id :: id in next.transports ==> !(next.transports[id].roomId == roomId && next.transports[id].peerId == peerId)
    ensures forall id :: id in next.producers ==> !(next.producers[id].roomId == roomId && next.producers[id].peerId == peerId)
    ensures forall id :: id in next.consumers ==> !(next.consumers[id].roomId == roomId && next.consumers[id].peerId == peerId)
  {
    hide Sound, RouterHandles, Empties;
    forall id | id in s.transports && s.transports[id].roomId == roomId && s.transports[id].peerId == peerId
      ensures s.transports[id].handle in LeaveHandles(s, roomId, peerId)
    {
      assert TransportClosed(id) in PeerTargets(s, roomId, peerId) && Target(s, TransportClosed(id)).Some?;
    }
    forall id | id in s.producers && s.producers[id].roomId == roomId && s.producers[id].peerId == peerId
      ensures s.producers[id].handle in LeaveHandles(s, roomId, peerId)
    {
      assert ProducerClosed(id) in PeerTargets(s, roomId, peerId) && Target(s, ProducerClosed(id)).Some?;
    }
    forall id | id in s.consumers && s.consumers[id].roomId == roomId && s.consumers[id].peerId == peerId
      ensures s.consumers[id].handle in LeaveHandles(s, roomId, peerId)
    {
      assert ConsumerClosed(id) in PeerTargets(s, roomId, peerId) && Target(s, ConsumerClosed(id)).Some?;
    }
    hide LeaveHandles;
  }

  /** A worker's death takes exactly the rooms whose routers it hosted, and nothing is left in them. */
  lemma WorkerDeathEffects(s: Backend, workerId: string, next: Backend)
    requires Sound(s) && workerId in s.pool && WorkerDeathEffect(s, workerId, next)
    ensures forall w :: w in next.pool <==> w in s.pool && w != workerId
    ensures forall r :: r in next.routers <==> r in s.routers && s.routers[r].workerId != workerId
    ensures forall r :: PeersIn(next, r) == if r in s.routers && s.routers[r].workerId == workerId then {} else PeersIn(s, r)
    ensures forall r :: r in s.routers && s.routers[r].workerId == workerId ==> RoomTargets(next, r) == {}
    ensures s.pool[workerId] !in next.media
  {
    hide RoomTargets, RoomHandles, Shrunk, MediaSound, EntriesOwnHandles, ClosedOnce, DeadAreDue, EntriesJoined, LiveAreLinked;
    hide RoutersSound;
    assert s.pool[workerId] in WorkerHandles(s, workerId);
    hide WorkerHandles;
    ShrunkKills(s, next, WorkerHandles(s, workerId), s.pool[workerId]);
  }
}
