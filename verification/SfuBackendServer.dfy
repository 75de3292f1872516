/**
 The mediasoup server's runtime state as the source keeps it: maps changed in place by the operation
 handlers, the close helpers, worker death and callback delivery. Handlers run one at a time; after every
 `close()` any number of the callbacks then due may run from inside it.
 */
module SfuBackendServer {
  import opened MediaTypes
  import opened SfuBackend
  import opened SfuBackendClosing
  import opened SfuBackendOps
  import opened SfuBackendOpsSound

  class MediasoupServer {
    var pool: map<string, Handle>
    var workerByRoom: map<string, string>
    var routers: map<string, RouterEntry>
    var roomPeers: map<string, set<string>>
    var transports: map<string, TransportEntry>
    var producers: map<string, ProducerEntry>
    var consumers: map<string, ConsumerEntry>
    var media: map<Handle, set<Handle>>
    var made: map<Handle, Callback>
    var pending: set<Callback>
    var closed: seq<Handle>
    var closedRouters: seq<Handle>
    var nextHandle: Handle

    function State(): Backend
      reads this
    {
      Backend(pool, workerByRoom, routers, roomPeers, transports, producers, consumers,
              media, made, pending, closed, closedRouters, nextHandle)
    }

    constructor ()
      ensures State() == EMPTY && Sound(State())
    {
      pool, workerByRoom, routers, roomPeers := map[], map[], map[], map[];
      transports, producers, consumers := map[], map[], map[];
      media, made, pending, closed, closedRouters, nextHandle := map[], map[], {}, [], [], 0;
    }

    /** The library's `close()`: what lives on `h` dies and its callbacks become due. */
    method CloseHandle(h: Handle)
      modifies this`media, this`pending
      ensures State() == Kill(old(State()), {h})
    {
      pending := pending + set g | g in media && !(media[g] !! {h}) && g in made :: made[g];
      media := map g | g in media && media[g] !! {h} :: media[g];
    }

    method CloseTransportEntry(id: string)
      modifies this`transports, this`media, this`pending, this`closed
      ensures State() == SafeClose(old(State()), TransportClosed(id))
    {
      hide Kill;
      ghost var start := State();
      AbsentIsNoOp(start, TransportClosed(id));
      if id !in transports {
        return;
      }
      var h := transports[id].handle;
      transports, closed := transports - {id}, closed + [h];
      assert State() == Detach(start, TransportClosed(id));
      CloseHandle(h);
    }

    method CloseProducerEntry(id: string)
      modifies this`producers, this`media, this`pending, this`closed
      ensures State() == SafeClose(old(State()), ProducerClosed(id))
    {
      hide Kill;
      ghost var start := State();
      AbsentIsNoOp(start, ProducerClosed(id));
      if id !in producers {
        return;
      }
      var h := producers[id].handle;
      producers, closed := producers - {id}, closed + [h];
      assert State() == Detach(start, ProducerClosed(id));
      CloseHandle(h);
    }

    method CloseConsumerEntry(id: string)
      modifies this`consumers, this`media, this`pending, this`closed
      ensures State() == SafeClose(old(State()), ConsumerClosed(id))
    {
      hide Kill;
      ghost var start := State();
      AbsentIsNoOp(start, ConsumerClosed(id));
      if id !in consumers {
        return;
      }
      var h := consumers[id].handle;
      consumers, closed := consumers - {id}, closed + [h];
      assert State() == Detach(start, ConsumerClosed(id));
      CloseHandle(h);
    }

    method CloseEntry(target: Callback)
      modifies this`transports, this`producers, this`consumers, this`media, this`pending, this`closed
      ensures State() == SafeClose(old(State()), target)
    {
      hide SafeClose;
      match target {
        case TransportClosed(id) => CloseTransportEntry(id);
        case ProducerClosed(id) => CloseProducerEntry(id);
        case ConsumerClosed(id) => CloseConsumerEntry(id);
      }
    }

    /** Callbacks run from inside a `close()`: any of the due ones whose own handle is dead or gone. */
    method Reenter()
      requires TablesSound(State())
      modifies this`transports, this`producers, this`consumers, this`media, this`pending, this`closed
      ensures TablesSound(State()) && SameRooms(old(State()), State())
      ensures Shrunk(old(State()), State(), {})
      ensures pending <= old(pending)
    {
      hide TablesSound, Shrunk, SafeClose, SameRooms, Quiet;
      ghost var start := State();
      NothingShrunk(start);
      while *
        invariant TablesSound(State()) && SameRooms(start, State())
        invariant Shrunk(start, State(), {}) && pending <= old(pending)
        decreases pending
      {
        if pending == {} {
          break;
        }
        var callback :| callback in pending;
        if !Quiet(State(), callback) {
          break;
        }
        ghost var before := State();
        QuietDelivery(before, callback);
        pending := pending - {callback};
        CloseEntry(callback);
        ShrunkTwice(start, before, State(), {}, {}, {});
        SameRoomsTwice(start, before, State());
      }
    }
    /** Takes an entry out of its table, closes its handle, and lets due callbacks run from inside that close. */
    method SafeCloseById(target: Callback)
      requires LinksSound(State()) && ClosedOnce(State()) && DeadAreDue(State(), Some(target))
      modifies this`transports, this`producers, this`consumers, this`media, this`pending, this`closed
      ensures TablesSound(State()) && SameRooms(old(State()), State())
      ensures Shrunk(old(State()), State(), Targets(old(State()), target))
      ensures Target(State(), target).None?
      ensures media == old(media) ==> pending <= old(pending)
    {
      hide TablesSound, LinksSound, ClosedOnce, DeadAreDue, SafeClose, Shrunk, SameRooms;
      ghost var start := State();
      SafeCloseSound(start, target);
      UnchangedMediaQuiet(start, target);
      CloseEntry(target);
      ghost var next := State();
      Reenter();
      ShrunkTwice(start, next, State(), Targets(start, target), {}, Targets(start, target));
      StaysGone(next, State(), {}, target);
      SameRoomsTwice(start, next, State());
      KeepsMedia(next, State());
    }

    /** Closes a snapshot of ids one by one; some may already be gone when their turn comes. */
    method CloseAll(targets: set<Callback>)
      requires TablesSound(State())
      modifies this`transports, this`producers, this`consumers, this`media, this`pending, this`closed
      ensures TablesSound(State()) && SameRooms(old(State()), State())
      ensures Shrunk(old(State()), State(), HandlesFor(old(State()), targets))
      ensures forall t :: t in targets ==> Target(State(), t).None?
    {
      hide TablesSound, LinksSound, ClosedOnce, DeadAreDue, Shrunk, SameRooms;
      ghost var start := State();
      NothingShrunk(start);
      ghost var dying: set<Handle> := {};
      var remaining := targets;
      while remaining != {}
        invariant remaining <= targets
        invariant TablesSound(State()) && SameRooms(start, State())
        invariant Shrunk(start, State(), dying) && dying <= HandlesFor(start, targets)
        invariant forall t :: t in targets - remaining ==> Target(State(), t).None?
        decreases remaining
      {
        var target :| target in remaining;
        remaining := remaining - {target};
        ghost var before := State();
        TargetsOnlyShrink(start, before, dying);
        SoundEnough(before, target);
        SafeCloseById(target);
        ShrunkTwice(start, before, State(), dying, Targets(before, target), dying + Targets(before, target));
        SameRoomsTwice(start, before, State());
        TargetsOnlyShrink(before, State(), Targets(before, target));
        dying := dying + Targets(before, target);
      }
      ShrunkToGoal(start, State(), dying, targets);
    }

    /** Three loops over snapshots: the peer's consumers, then its producers, then its transports. */
    method ClosePeerResources(roomId: string, peerId: string)
      requires TablesSound(State())
      modifies this`transports, this`producers, this`consumers, this`media, this`pending, this`closed
      ensures TablesSound(State()) && SameRooms(old(State()), State())
      ensures Shrunk(old(State()), State(), HandlesFor(old(State()), PeerTargets(old(State()), roomId, peerId)))
      ensures PeerTargets(State(), roomId, peerId) == {}
    {
      hide TablesSound, LinksSound, ClosedOnce, DeadAreDue, Shrunk, SameRooms;
      ghost var s0 := State();
      CloseAll(ConsumerTargets(State(), roomId, peerId));
      ghost var s1 := State();
      CloseAll(ProducerTargets(State(), roomId, peerId));
      ghost var s2 := State();
      CloseAll(TransportTargets(State(), roomId, peerId));
      ghost var s3 := State();
      PeerClosed(s0, s1, s2, s3, roomId, peerId);
      SameRoomsTwice(s0, s1, s2);
      SameRoomsTwice(s0, s2, s3);
    }

    /** The loop over a room's peers: afterwards nothing is held in the room. */
    method CloseRoomEntries(roomId: string)
      requires TablesSound(State())
      modifies this`transports, this`producers, this`consumers, this`media, this`pending, this`closed
      ensures TablesSound(State()) && SameRooms(old(State()), State())
      ensures Shrunk(old(State()), State(), HandlesFor(old(State()), RoomTargets(old(State()), roomId)))
      ensures RoomTargets(State(), roomId) == {}
    {
      hide TablesSound, LinksSound, ClosedOnce, DeadAreDue, Shrunk, RoomTargets, PeerTargets, Target;
      ghost var s0 := State();
      NothingShrunk(s0);
      ghost var dying: set<Handle> := {};
      var remaining := if roomId in roomPeers then roomPeers[roomId] else {};
      while remaining != {}
        invariant remaining <= PeersIn(s0, roomId)
        invariant TablesSound(State()) && SameRooms(s0, State())
        invariant Shrunk(s0, State(), dying) && dying <= HandlesFor(s0, RoomTargets(s0, roomId))
        invariant forall p :: p in PeersIn(s0, roomId) - remaining ==> PeerTargets(State(), roomId, p) == {}
        decreases remaining
      {
        var peerId :| peerId in remaining;
        remaining := remaining - {peerId};
        ghost var before := State();
        ghost var held := HandlesFor(before, PeerTargets(before, roomId, peerId));
        ClosePeerResources(roomId, peerId);
        ShrunkTwice(s0, before, State(), dying, held, dying + held);
        HeldInRoom(s0, before, dying, roomId, peerId);
        EmptyStaysEmpty(before, State(), held, roomId);
        dying := dying + held;
      }
      NobodyHoldsNothing(State(), roomId);
      RoomTargetsOnlyShrink(s0, State(), dying, roomId);
      ShrunkToGoal(s0, State(), dying, RoomTargets(s0, roomId));
    }

    /** Closes a room's router, if it has one. */
    method CloseRouter(roomId: string)
      requires TablesSound(State()) && RouterHandles(State(), roomId) !! State().made.Keys
      modifies this`transports, this`producers, this`consumers, this`media, this`pending, this`closed
      ensures TablesSound(State()) && SameRooms(old(State()), State())
      ensures Shrunk(old(State()), State(), RouterHandles(old(State()), roomId))
    {
      hide TablesSound, Shrunk, Kill, RouterHandles;
      ghost var s0 := State();
      NothingShrunk(s0);
      NoRouterHandles(s0, roomId);
      if roomId in routers {
        KillSound(s0, RouterHandles(s0, roomId));
        CloseHandle(routers[roomId].handle);
        ghost var s1 := State();
        Reenter();
        ShrunkTwice(s0, s1, State(), RouterHandles(s0, roomId), {}, RouterHandles(s0, roomId));
      }
    }

    method ForgetPeers(roomId: string)
      modifies this`roomPeers, this`closedRouters
      ensures State() == PeersForgotten(old(State()), roomId)
    {
      roomPeers := roomPeers - {roomId};
      closedRouters := closedRouters + if roomId in routers then [routers[roomId].handle] else [];
    }

    /** Forgets an emptied room and closes its router. */
    method DropRoom(roomId: string, ghost stale: set<string>)
      requires TablesSound(State()) && RoutersSound(State(), stale) && RoomTargets(State(), roomId) == {}
      modifies this
      ensures TablesSound(State()) && RoutersSound(State(), stale - {roomId})
      ensures Shrunk(old(State()), State(), RouterHandles(old(State()), roomId))
      ensures RoomGone(old(State()), State(), roomId)
    {
      hide TablesSound, Shrunk, RoutersSound, RoomTargets, Target, RouterHandles, RoomGone, PeersForgotten, SameRooms;
      ghost var s1 := State();
      RouterHandleFree(s1, roomId, stale);
      PeersForgottenSound(s1, roomId);
      ForgetPeers(roomId);
      ghost var s2 := State();
      CloseRouter(roomId);
      ghost var s3 := State();
      routers := routers - {roomId};
      workerByRoom := workerByRoom - {roomId};
      RoomDropped(s1, s2, s3, State(), roomId, stale);
    }

    /** Closes every peer's resources, then the peer set, the router and the assignment of the room. */
    method CloseRoom(roomId: string, ghost stale: set<string>)
      requires TablesSound(State()) && RoutersSound(State(), stale)
      modifies this
      ensures TablesSound(State()) && RoutersSound(State(), stale - {roomId})
      ensures Shrunk(old(State()), State(), RoomHandles(old(State()), roomId))
      ensures RoomGone(old(State()), State(), roomId) && RoomTargets(State(), roomId) == {}
    {
      hide TablesSound, LinksSound, ClosedOnce, DeadAreDue, Shrunk, RoutersSound, RoomTargets, Target;
      ghost var s0 := State();
      ghost var held := HandlesFor(s0, RoomTargets(s0, roomId));
      CloseRoomEntries(roomId);
      ghost var s1 := State();
      HeldAreMade(s0, RoomTargets(s0, roomId));
      ShrunkFacts(s0, s1, held);
      RoutersStaySound(s0, s1, held, stale);
      DropRoom(roomId, stale);
      ShrunkTwice(s0, s1, State(), held, RouterHandles(s0, roomId), RoomHandles(s0, roomId));
      RoomTargetsOnlyShrink(s1, State(), RouterHandles(s0, roomId), roomId);
    }

    /** Closes what a peer holds in a room, takes it off the room, and closes the room if that was the last one. */
    method RemovePeer(roomId: string, peerId: string)
      requires Sound(State())
      modifies this
      ensures LeaveEffect(old(State()), roomId, peerId, State())
    {
      hide TablesSound, RoutersSound, Shrunk, Sound, PeerTargets, RoomTargets, Target;
      hide LeaveEffect, HandlesFor, RoomHandles, RouterLive, RootsSound, EntriesJoined, LiveAreLinked;
      hide MediaSound, EntriesOwnHandles, ClosedOnce, DeadAreDue, LinksSound;
      ghost var s0 := State();
      Parts(s0);
      if roomId in routers && routers[roomId].handle in media {
        ClosePeerResources(roomId, peerId);
      } else {
        NoRouterNothingHeld(s0, roomId, peerId);
        NothingShrunk(s0);
      }
      ghost var s1 := State();
      PeerCleared(s0, s1, roomId, peerId);
      if roomId in roomPeers {
        roomPeers := roomPeers[roomId := roomPeers[roomId] - {peerId}];
      }
      ghost var s2 := State();
      PeerRemoved(s0, s1, s2, roomId, peerId);
      if roomId in roomPeers && roomPeers[roomId] == {} {
        Parts(s2);
        CloseRoom(roomId, {});
        LastPeerGone(s0, s2, State(), roomId, peerId);
      }
    }

    /** `router.leavePeer` and `router.closePeer`; an empty room or peer id is refused. */
    method OpLeavePeer(roomId: string, peerId: string) returns (ok: bool)
      requires Sound(State())
      modifies this
      ensures ok <==> roomId != "" && peerId != ""
      ensures ok ==> LeaveEffect(old(State()), roomId, peerId, State())
      ensures !ok ==> State() == old(State())
    {
      if roomId == "" || peerId == "" {
        return false;
      }
      RemovePeer(roomId, peerId);
      return true;
    }

    /** `producer.close`: the producer, then every consumer still bound to it. */
    method OpCloseProducer(producerId: string, peerId: string) returns (ok: bool)
      requires Sound(State())
      modifies this
      ensures ok <==> producerId != "" && producerId in old(producers) && (peerId == "" || old(producers)[producerId].peerId == peerId)
      ensures ok ==> CloseProducerEffect(old(State()), producerId, State())
      ensures !ok ==> State() == old(State())
    {
      hide TablesSound, RoutersSound, Shrunk, Sound, SubscriberTargets, Target;
      if producerId == "" || producerId !in producers || (peerId != "" && producers[producerId].peerId != peerId) {
        return false;
      }
      ghost var s0 := State();
      Parts(s0);
      SafeCloseById(ProducerClosed(producerId));
      ghost var s1 := State();
      CloseAll(SubscriberTargets(State(), producerId));
      ProducerTreeClosed(s0, s1, State(), producerId);
      return true;
    }

    /** A DTLS close, or any other reason to close one entry by id. */
    method CloseSpontaneously(target: Callback)
      requires Sound(State())
      modifies this
      ensures CloseEffect(old(State()), target, State())
    {
      hide TablesSound, LinksSound, ClosedOnce, DeadAreDue, RoutersSound, Shrunk, Sound, Target;
      ghost var s0 := State();
      Parts(s0);
      SoundEnough(s0, target);
      SafeCloseById(target);
      OneHandle(s0, target);
      StillSound(s0, State(), {target});
    }

    /** A due callback runs, whatever it finds under its id. Either handles die, or callbacks only get fewer. */
    method RunCallback(callback: Callback)
      requires Sound(State()) && callback in pending
      modifies this
      ensures CloseEffect(old(State()), callback, State())
      ensures media == old(media) ==> pending <= old(pending) - {callback}
    {
      hide TablesSound, LinksSound, ClosedOnce, DeadAreDue, RoutersSound, Shrunk, Sound, Target;
      ghost var s0 := State();
      Parts(s0);
      DropTrims(s0, callback);
      DropSound(s0, callback);
      pending := pending - {callback};
      ghost var s1 := State();
      SafeCloseById(callback);
      SameTargetAfterDrop(s0, callback);
      ShrunkTwice(s0, s1, State(), {}, Targets(s0, callback), Targets(s0, callback));
      SameRoomsTwice(s0, s1, State());
      OneHandle(s0, callback);
      StillSound(s0, State(), {callback});
    }

    /** The close cascade runs dry, in whatever order the callbacks are taken, and leaves integrity behind. */
    method DrainCallbacks()
      requires Sound(State())
      modifies this
      ensures pending == {} && Sound(State()) && Integrity(State()) && SameRooms(old(State()), State())
    {
      while pending != {}
        invariant Sound(State()) && SameRooms(old(State()), State())
        decreases media.Keys, pending
      {
        var callback :| callback in pending;
        ghost var before := State();
        RunCallback(callback);
        FewerHandles(before, State(), Targets(before, callback));
      }
      QuiescentIntegrity(State());
    }

    /** Closes the rooms whose routers have died with their worker, one by one. */
    method CloseRooms(rooms: set<string>) returns (ghost dying: set<Handle>)
      requires TablesSound(State()) && RoutersSound(State(), rooms)
      modifies this
      ensures TablesSound(State()) && RoutersSound(State(), {})
      ensures Shrunk(old(State()), State(), dying) && dying <= RoomsHandles(old(State()), rooms)
      ensures RoomsGone(old(State()), State(), rooms)
    {
      hide TablesSound, RoutersSound, Shrunk, RoomTargets, RoomHandles, RoomsHandles, Target, HandlesFor;
      ghost var s0 := State();
      NothingShrunk(s0);
      dying := {};
      var remaining := rooms;
      while remaining != {}
        invariant remaining <= rooms
        invariant TablesSound(State()) && RoutersSound(State(), remaining)
        invariant Shrunk(s0, State(), dying) && dying <= RoomsHandles(s0, rooms)
        invariant RoomsGone(s0, State(), rooms - remaining)
        decreases remaining
      {
        var roomId :| roomId in remaining;
        ghost var before := State();
        CloseRoom(roomId, remaining);
        RoomTakenDown(s0, before, State(), dying, roomId, rooms);
        remaining := remaining - {roomId};
        dying := dying + RoomHandles(before, roomId);
      }
      assert rooms - remaining == rooms;
    }

    /** A worker process dies: what ran on it is dead, and the rooms whose routers were on it are closed. */
    method WorkerDied(workerId: string)
      requires Sound(State()) && workerId in pool
      modifies this
      ensures WorkerDeathEffect(old(State()), workerId, State())
    {
      hide TablesSound, RoutersSound, Sound, Shrunk, RoomsGone, RoomsHandles, WorkerDeathEffect;
      ghost var s0 := State();
      WorkerHandleKilled(s0, workerId);
      CloseHandle(pool[workerId]);
      ghost var s1 := State();
      Reenter();
      ghost var s2 := State();
      pool := pool - {workerId};
      ghost var s3 := State();
      WorkerRemoved(s0, s1, s2, s3, workerId);
      ghost var dying := CloseRooms(set r | r in routers && routers[r].workerId == workerId);
      SoundFrom(State());
      WorkerGone(s0, s3, State(), dying, workerId);
    }

    /** A freshly started worker joins the pool under an id never used before. */
    method WorkerStarted(workerId: string)
      requires Sound(State()) && workerId !in pool
      modifies this
      ensures State() == AddWorker(old(State()), workerId) && Sound(State())
    {
      hide Sound;
      AddWorkerSound(State(), workerId);
      pool := pool[workerId := nextHandle];
      media := media[nextHandle := {nextHandle}];
      nextHandle := nextHandle + 1;
    }

    /** Closes and forgets a router that is alive although its room has no worker in the pool. */
    method CloseStaleRouter(roomId: string)
      modifies this`routers, this`workerByRoom, this`media, this`pending, this`closedRouters
      ensures State() == WithoutStaleRouter(old(State()), roomId)
    {
      hide Kill;
      if roomId in routers && routers[roomId].handle in media {
        ghost var s := State();
        CloseHandle(routers[roomId].handle);
        assert State().media == Kill(s, {s.routers[roomId].handle}).media;
        closedRouters := closedRouters + [routers[roomId].handle];
        routers, workerByRoom := routers - {roomId}, workerByRoom - {roomId};
      }
    }

    /** Assigns a worker to the room and creates a router on it; both steps may fail. */
    method StartRouter(roomId: string, o: Oracle) returns (ready: bool)
      modifies this`routers, this`workerByRoom, this`media, this`nextHandle
      ensures (State(), ready) == PlaceRouter(old(State()), roomId, o)
    {
      var selected := o.worker;
      if roomId in workerByRoom && workerByRoom[roomId] in pool {
        selected := workerByRoom[roomId];
      }
      if selected !in pool {
        return false;
      }
      workerByRoom := workerByRoom[roomId := selected];
      if !o.routerMade {
        return false;
      }
      routers := routers[roomId := RouterEntry(selected, pool[selected], nextHandle)];
      media := media[nextHandle := {nextHandle, pool[selected]}];
      nextHandle := nextHandle + 1;
      return true;
    }

    /** Returns whether the room now has a usable router. */
    method EnsureRouter(roomId: string, o: Oracle) returns (ready: bool)
      modifies this
      ensures (State(), ready) == EnsureRoomRouter(old(State()), roomId, o)
    {
      hide WithoutStaleRouter, PlaceRouter;
      if roomId in routers && routers[roomId].handle in media && roomId in workerByRoom && workerByRoom[roomId] in pool {
        return true;
      }
      CloseStaleRouter(roomId);
      ready := StartRouter(roomId, o);
    }

    /** `router.create`. */
    method OpCreateRouter(c: Command, o: Oracle) returns (data: Option<ReplyData>)
      modifies this
      ensures (State(), data) == CreateRouterOp(old(State()), c, o)
    {
      if c.roomId == "" || !o.admitted {
        return None;
      }
      var ready := EnsureRouter(c.roomId, o);
      return if ready then Some(NO_DATA) else None;
    }

    /** `router.joinPeer`. */
    method OpJoinPeer(c: Command, o: Oracle) returns (data: Option<ReplyData>)
      modifies this
      ensures (State(), data) == JoinPeerOp(old(State()), c, o)
    {
      if c.roomId == "" || c.peerId == "" || !o.admitted {
        return None;
      }
      var ready := EnsureRouter(c.roomId, o);
      if !ready || !o.fits {
        return None;
      }
      var peers := if c.roomId in roomPeers then roomPeers[c.roomId] else {};
      roomPeers := roomPeers[c.roomId := peers + {c.peerId}];
      return Some(NO_DATA);
    }

    /** The library makes a handle on `parents` and registers its close callback. */
    method CreateHandle(parents: set<Handle>, callback: Callback) returns (h: Handle)
      modifies this`media, this`made, this`nextHandle
      ensures State() == Create(old(State()), parents, callback) && h == old(nextHandle)
    {
      h := nextHandle;
      media, made, nextHandle := media[h := parents + {h}], made[h := callback], h + 1;
    }

    /** `router.createWebRtcTransport`. */
    method OpCreateWebRtcTransport(c: Command, o: Oracle) returns (data: Option<ReplyData>)
      modifies this
      ensures (State(), data) == CreateTransportOp(old(State()), c, o)
    {
      if c.roomId == "" || c.peerId == "" || c.transportId == "" {
        return None;
      }
      if c.roomId !in roomPeers || c.peerId !in roomPeers[c.roomId] || !o.admitted {
        return None;
      }
      var ready := EnsureRouter(c.roomId, o);
      if !ready || c.transportId in transports || !o.mediaMade || !(c.roomId in routers && routers[c.roomId].handle in media) {
        return None;
      }
      var router := routers[c.roomId];
      var h := CreateHandle({router.handle, router.workerHandle}, TransportClosed(c.transportId));
      transports := transports[c.transportId := TransportEntry(c.roomId, c.peerId, h)];
      return Some(NO_DATA);
    }

    /** `transport.produce`. */
    method OpProduce(c: Command, o: Oracle) returns (data: Option<ReplyData>)
      modifies this
      ensures (State(), data) == ProduceOp(old(State()), c, o)
    {
      if c.transportId == "" || c.producerId == "" || c.kind == "" || c.transportId !in transports {
        return None;
      }
      var trackType := if c.trackType != "" then c.trackType else DefaultTrackType(c.kind);
      var t := transports[c.transportId];
      if t.roomId !in roomPeers || t.peerId !in roomPeers[t.roomId] || c.producerId in producers || !o.admitted {
        return None;
      }
      if !o.mediaMade || t.handle !in media {
        return None;
      }
      var h := CreateHandle(media[t.handle], ProducerClosed(c.producerId));
      producers := producers[c.producerId := ProducerEntry(t.roomId, t.peerId, c.transportId, c.kind, trackType, h)];
      return Some(ReplyData(Some(c.kind), Some(trackType), None, None));
    }

    /** `transport.consume`. */
    method OpConsume(c: Command, o: Oracle) returns (data: Option<ReplyData>)
      modifies this
      ensures (State(), data) == ConsumeOp(old(State()), c, o)
    {
      if c.transportId == "" || c.producerId == "" {
        return None;
      }
      var consumerId := if c.consumerId != "" then c.consumerId else c.producerId + "-consumer-" + o.generatedId;
      if c.transportId !in transports {
        return None;
      }
      var t := transports[c.transportId];
      if t.roomId !in roomPeers || t.peerId !in roomPeers[t.roomId] || c.producerId !in producers || consumerId in consumers {
        return None;
      }
      var p := producers[c.producerId];
      if !o.admitted || p.roomId != t.roomId || !o.mediaMade || t.handle !in media || p.handle !in media {
        return None;
      }
      var h := CreateHandle(media[t.handle] + media[p.handle], ConsumerClosed(consumerId));
      consumers := consumers[consumerId := ConsumerEntry(t.roomId, t.peerId, c.transportId, c.producerId, p.peerId,
                                                         p.kind, p.trackType, h)];
      return Some(ReplyData(Some(p.kind), Some(p.trackType), Some(consumerId), Some(true)));
    }

    /** Pausing, resuming, connecting and reading statistics: checks, then the library, and no table changes. */
    method OpOnEntry(operation: Operation, c: Command, o: Oracle) returns (data: Option<ReplyData>)
      ensures data == if o.mediaMade then Answer(State(), operation, c) else None
    {
      if !o.mediaMade {
        return None;
      }
      match operation {
        case PauseProducer =>
          if c.producerId == "" || c.producerId !in producers || (c.peerId != "" && producers[c.producerId].peerId != c.peerId) {
            return None;
          }
          return Some(ReplyData(Some(producers[c.producerId].kind), Some(producers[c.producerId].trackType), None, Some(true)));
        case ResumeProducer =>
          if c.producerId == "" || c.producerId !in producers || (c.peerId != "" && producers[c.producerId].peerId != c.peerId) {
            return None;
          }
          return Some(ReplyData(Some(producers[c.producerId].kind), Some(producers[c.producerId].trackType), None, Some(false)));
        case ResumeConsumerStream =>
          if c.consumerId == "" || c.consumerId !in consumers {
            return None;
          }
          var k := consumers[c.consumerId];
          return Some(ReplyData(Some(k.kind), Some(k.trackType), Some(c.consumerId), Some(false)));
        case ConnectDtls => return if c.transportId == "" || c.transportId !in transports then None else Some(NO_DATA);
        case GetMediaStats => return Some(NO_DATA);
        case _ => return None;
      }
    }

    /** One request, from dispatch to answer. */
    method HandleOperation(operation: Operation, c: Command, o: Oracle) returns (reply: Reply)
      requires Sound(State())
      modifies this
      ensures Sound(State()) && Handles(old(State()), operation, c, o, State(), reply)
    {
      hide Sound, CreateRouterOp, JoinPeerOp, CreateTransportOp, ProduceOp, ConsumeOp, CloseProducerEffect, LeaveEffect, Answer;
      if !o.handled {
        return Rejected("");
      }
      ghost var start := State();
      var data := None;
      match operation {
        case CreateRouter => data := OpCreateRouter(c, o);
        case JoinPeer => data := OpJoinPeer(c, o);
        case LeavePeer =>
          var ok := OpLeavePeer(c.roomId, c.peerId);
          data := if ok then Some(NO_DATA) else None;
        case ClosePeer =>
          var ok := OpLeavePeer(c.roomId, c.peerId);
          data := if ok then Some(NO_DATA) else None;
        case CreateWebRtcTransport => data := OpCreateWebRtcTransport(c, o);
        case Produce => data := OpProduce(c, o);
        case Consume => data := OpConsume(c, o);
        case CloseProducer =>
          var ok := OpCloseProducer(c.producerId, c.peerId);
          data := if ok then Some(NO_DATA) else None;
        case _ => data := OpOnEntry(operation, c, o);
      }
      reply := if data.Some? then Accepted(data.value) else Rejected("");
      HandlesSound(start, operation, c, o, State(), reply);
    }
  }
}
