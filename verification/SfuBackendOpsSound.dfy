/** Every operation of the mediasoup server keeps the state sound. */
module SfuBackendOpsSound {
  import opened MediaTypes
  import opened SfuBackend
  import opened SfuBackendClosing
  import opened SfuBackendOps

  // ---- One more handle and its entry ----

  /** `next` is `was` with one handle made on `parents` and one entry for `target` holding it. */
  ghost predicate OneMore(was: Backend, next: Backend, target: Callback, parents: set<Handle>) {
    && next.media == was.media[was.nextHandle := parents + {was.nextHandle}]
    && next.made == was.made[was.nextHandle := target]
    && next.nextHandle == was.nextHandle + 1
    && next.pending == was.pending && next.closed == was.closed && SameRooms(was, next)
    && OneMoreTransport(was, next, target) && OneMoreProducer(was, next, target) && OneMoreConsumer(was, next, target)
  }

  ghost predicate OneMoreTransport(was: Backend, next: Backend, target: Callback) {
    && (forall id :: id in was.transports ==>
          TransportClosed(id) != target && id in next.transports && next.transports[id] == was.transports[id])
    && (forall id :: id in next.transports ==>
          (id in was.transports && next.transports[id] == was.transports[id])
          || (target == TransportClosed(id) && next.transports[id].handle == was.nextHandle
              && next.transports[id].peerId in PeersIn(was, next.transports[id].roomId)))
  }

  ghost predicate OneMoreProducer(was: Backend, next: Backend, target: Callback) {
    && (forall id :: id in was.producers ==>
          ProducerClosed(id) != target && id in next.producers && next.producers[id] == was.producers[id])
    && (forall id :: id in next.producers ==>
          (id in was.producers && next.producers[id] == was.producers[id])
          || (target == ProducerClosed(id) && next.producers[id].handle == was.nextHandle
              && next.producers[id].peerId in PeersIn(was, next.producers[id].roomId)))
  }

  ghost predicate OneMoreConsumer(was: Backend, next: Backend, target: Callback) {
    && (forall id :: id in was.consumers ==>
          ConsumerClosed(id) != target && id in next.consumers && next.consumers[id] == was.consumers[id])
    && (forall id :: id in next.consumers ==>
          (id in was.consumers && next.consumers[id] == was.consumers[id])
          || (target == ConsumerClosed(id) && next.consumers[id].handle == was.nextHandle
              && next.consumers[id].peerId in PeersIn(was, next.consumers[id].roomId)))
  }

  lemma OneMoreMedia(was: Backend, next: Backend, target: Callback, parents: set<Handle>)
    requires OneMore(was, next, target, parents) && MediaSound(was)
    requires forall a :: a in parents ==> a in was.media && was.media[a] <= parents
    ensures MediaSound(next)
  {
    hide OneMoreTransport, OneMoreProducer, OneMoreConsumer;
    forall h, a | h in next.media && a in next.media[h]
      ensures a in next.media && next.media[a] <= next.media[h]
    {
      if h != was.nextHandle {
        assert a in was.media && a < was.nextHandle;
      }
    }
  }

  lemma OneMoreOwns(was: Backend, next: Backend, target: Callback, parents: set<Handle>)
    requires OneMore(was, next, target, parents) && MediaSound(was) && EntriesOwnHandles(was)
    ensures EntriesOwnHandles(next)
  {
  }

  lemma OneMoreOnce(was: Backend, next: Backend, target: Callback, parents: set<Handle>)
    requires OneMore(was, next, target, parents) && MediaSound(was) && ClosedOnce(was)
    ensures ClosedOnce(next)
  {
  }

  lemma OneMoreDue(was: Backend, next: Backend, target: Callback, parents: set<Handle>)
    requires OneMore(was, next, target, parents) && DeadAreDue(was, None)
    ensures DeadAreDue(next, None)
  {
  }

  lemma OneMoreJoined(was: Backend, next: Backend, target: Callback, parents: set<Handle>)
    requires OneMore(was, next, target, parents) && EntriesJoined(was)
    ensures EntriesJoined(next)
  {
  }

  /** The new entry's own link; the old ones stay as they were. */
  ghost predicate NewLink(next: Backend, target: Callback) {
    match target
    case TransportClosed(id) =>
      id in next.transports && next.transports[id].handle in next.media ==> TransportLinked(next, next.transports[id])
    case ProducerClosed(id) =>
      id in next.producers && next.producers[id].handle in next.media ==> ProducerLinked(next, next.producers[id])
    case ConsumerClosed(id) =>
      id in next.consumers && next.consumers[id].handle in next.media ==> ConsumerLinked(next, next.consumers[id])
  }

  lemma OldHandleStays(was: Backend, next: Backend, target: Callback, parents: set<Handle>, h: Handle)
    requires OneMore(was, next, target, parents) && MediaSound(was) && h in was.made
    ensures h in next.media <==> h in was.media
    ensures h in was.media ==> next.media[h] == was.media[h]
  {
  }

  lemma OneMoreLinks(was: Backend, next: Backend, target: Callback, parents: set<Handle>)
    requires OneMore(was, next, target, parents) && LinksSound(was) && NewLink(next, target)
    ensures LiveAreLinked(next)
  {
    assert MediaSound(was) && EntriesOwnHandles(was) && LiveAreLinked(was);
    assert OneMoreTransport(was, next, target) && OneMoreProducer(was, next, target) && OneMoreConsumer(was, next, target);
    assert next.routers == was.routers;
    hide LinksSound, MediaSound, OneMore;
    forall id | id in next.transports && next.transports[id].handle in next.media
      ensures TransportLinked(next, next.transports[id])
    {
      if id in was.transports {
        OldHandleStays(was, next, target, parents, was.transports[id].handle);
      }
    }
    forall id | id in next.producers && next.producers[id].handle in next.media
      ensures ProducerLinked(next, next.producers[id])
    {
      if id in was.producers {
        var p := was.producers[id];
        OldHandleStays(was, next, target, parents, p.handle);
        assert ProducerLinked(was, p);
        OldHandleStays(was, next, target, parents, was.transports[p.transportId].handle);
      }
    }
    forall id | id in next.consumers && next.consumers[id].handle in next.media
      ensures ConsumerLinked(next, next.consumers[id])
    {
      if id in was.consumers {
        var c := was.consumers[id];
        OldHandleStays(was, next, target, parents, c.handle);
        assert ConsumerLinked(was, c);
        OldHandleStays(was, next, target, parents, was.transports[c.transportId].handle);
        OldHandleStays(was, next, target, parents, was.producers[c.producerId].handle);
      }
    }
  }

  lemma OneMoreRouters(was: Backend, next: Backend, target: Callback, parents: set<Handle>)
    requires OneMore(was, next, target, parents) && MediaSound(was) && RoutersSound(was, {})
    ensures RoutersSound(next, {})
  {
    hide OneMoreTransport, OneMoreProducer, OneMoreConsumer;
    assert RoutersClosedOnce(next);
    hide RoutersClosedOnce;
    forall r | r in next.routers
      ensures RouterLive(next, r)
    {
      assert RouterLive(was, r);
    }
  }

  lemma OneMoreSound(was: Backend, next: Backend, target: Callback, parents: set<Handle>)
    requires OneMore(was, next, target, parents) && Sound(was) && NewLink(next, target)
    requires forall a :: a in parents ==> a in was.media && was.media[a] <= parents
    ensures Sound(next)
  {
    OneMoreLinks(was, next, target, parents);
    hide OneMore, MediaSound, EntriesOwnHandles, ClosedOnce, DeadAreDue, EntriesJoined, LiveAreLinked, RoutersSound, NewLink;
    OneMoreMedia(was, next, target, parents);
    OneMoreOwns(was, next, target, parents);
    OneMoreOnce(was, next, target, parents);
    OneMoreDue(was, next, target, parents);
    OneMoreJoined(was, next, target, parents);
    OneMoreRouters(was, next, target, parents);
  }

  // ---- The three additions ----

  lemma AddTransportOneMore(s: Backend, c: Command)
    requires c.roomId in s.routers && c.transportId !in s.transports && c.peerId in PeersIn(s, c.roomId)
    ensures OneMore(s, AddTransport(s, c), TransportClosed(c.transportId),
                    {s.routers[c.roomId].handle, s.routers[c.roomId].workerHandle})
    ensures NewLink(AddTransport(s, c), TransportClosed(c.transportId))
  {
  }

  /** A live router's handles are live and live on nothing else. */
  lemma LiveRouter(s: Backend, roomId: string)
    requires RootsSound(s) && roomId in s.routers && RouterLive(s, roomId)
    ensures forall a :: a in {s.routers[roomId].handle, s.routers[roomId].workerHandle} ==>
              a in s.media && s.media[a] <= {s.routers[roomId].handle, s.routers[roomId].workerHandle}
  {
  }

  lemma AddTransportSound(s: Backend, c: Command)
    requires Sound(s) && c.roomId in s.routers && c.transportId !in s.transports && c.peerId in PeersIn(s, c.roomId)
    ensures Sound(AddTransport(s, c))
  {
    hide Sound, TablesSound, LinksSound, RoutersSound, EntriesOwnHandles, RootsSound, MediaSound, RouterLive;
    hide EntriesJoined, LiveAreLinked, ClosedOnce, DeadAreDue, OneMore, NewLink, AddTransport;
    Parts(s);
    LiveRouter(s, c.roomId);
    AddTransportOneMore(s, c);
    OneMoreSound(s, AddTransport(s, c), TransportClosed(c.transportId),
                 {s.routers[c.roomId].handle, s.routers[c.roomId].workerHandle});
  }

  lemma LiveTransport(s: Backend, id: string)
    requires Sound(s) && id in s.transports && s.transports[id].handle in s.media
    ensures s.transports[id].handle < s.nextHandle && s.nextHandle !in s.media
    ensures s.transports[id].peerId in PeersIn(s, s.transports[id].roomId)
    ensures forall a :: a in s.media[s.transports[id].handle] ==> a in s.media && s.media[a] <= s.media[s.transports[id].handle]
  {
    hide EntriesOwnHandles, ClosedOnce, DeadAreDue, LiveAreLinked, RootsSound, RouterLive, Sound, TablesSound, LinksSound, RoutersSound;
    Parts(s);
  }

  lemma LiveProducer(s: Backend, id: string)
    requires Sound(s) && id in s.producers && s.producers[id].handle in s.media
    ensures forall a :: a in s.media[s.producers[id].handle] ==> a in s.media && s.media[a] <= s.media[s.producers[id].handle]
  {
    hide EntriesOwnHandles, ClosedOnce, DeadAreDue, EntriesJoined, LiveAreLinked, RootsSound, RouterLive, Sound, TablesSound, LinksSound, RoutersSound;
    Parts(s);
  }

  lemma AddProducerOneMore(s: Backend, c: Command, trackType: string)
    requires c.transportId in s.transports && s.transports[c.transportId].handle in s.media
    requires s.transports[c.transportId].handle < s.nextHandle && s.nextHandle !in s.media
    requires c.producerId !in s.producers && s.transports[c.transportId].peerId in PeersIn(s, s.transports[c.transportId].roomId)
    ensures OneMore(s, AddProducer(s, c, trackType), ProducerClosed(c.producerId), s.media[s.transports[c.transportId].handle])
    ensures NewLink(AddProducer(s, c, trackType), ProducerClosed(c.producerId))
  {
  }

  lemma AddProducerSound(s: Backend, c: Command, trackType: string)
    requires Sound(s) && c.transportId in s.transports && s.transports[c.transportId].handle in s.media
    requires c.producerId !in s.producers
    ensures Sound(AddProducer(s, c, trackType))
  {
    hide Sound, OneMore, NewLink, AddProducer;
    LiveTransport(s, c.transportId);
    AddProducerOneMore(s, c, trackType);
    OneMoreSound(s, AddProducer(s, c, trackType), ProducerClosed(c.producerId), s.media[s.transports[c.transportId].handle]);
  }

  lemma AddConsumerOneMore(s: Backend, c: Command, consumerId: string)
    requires c.transportId in s.transports && s.transports[c.transportId].handle in s.media
    requires c.producerId in s.producers && s.producers[c.producerId].handle in s.media
    requires s.nextHandle !in s.media
    requires s.producers[c.producerId].roomId == s.transports[c.transportId].roomId
    requires consumerId !in s.consumers && s.transports[c.transportId].peerId in PeersIn(s, s.transports[c.transportId].roomId)
    ensures OneMore(s, AddConsumer(s, c, consumerId), ConsumerClosed(consumerId),
                    s.media[s.transports[c.transportId].handle] + s.media[s.producers[c.producerId].handle])
    ensures NewLink(AddConsumer(s, c, consumerId), ConsumerClosed(consumerId))
  {
  }

  lemma AddConsumerSound(s: Backend, c: Command, consumerId: string)
    requires Sound(s) && c.transportId in s.transports && s.transports[c.transportId].handle in s.media
    requires c.producerId in s.producers && s.producers[c.producerId].handle in s.media
    requires s.producers[c.producerId].roomId == s.transports[c.transportId].roomId
    requires consumerId !in s.consumers
    ensures Sound(AddConsumer(s, c, consumerId))
  {
    hide Sound, OneMore, NewLink, AddConsumer;
    LiveTransport(s, c.transportId);
    LiveProducer(s, c.producerId);
    AddConsumerOneMore(s, c, consumerId);
    OneMoreSound(s, AddConsumer(s, c, consumerId), ConsumerClosed(consumerId),
                 s.media[s.transports[c.transportId].handle] + s.media[s.producers[c.producerId].handle]);
  }

  // ---- Rooms ----

  /** Two states whose entries and handles are the same, but for handles no entry holds. */
  ghost predicate SameEntries(was: Backend, next: Backend) {
    && next.transports == was.transports && next.producers == was.producers && next.consumers == was.consumers
    && next.made == was.made && next.pending == was.pending && next.closed == was.closed
    && (forall h :: h in was.made ==> (h in next.media <==> h in was.media))
    && (forall h :: h in was.media ==> h in next.media && next.media[h] == was.media[h])
  }

  lemma SameEntriesSound(was: Backend, next: Backend)
    requires SameEntries(was, next) && EntriesOwnHandles(was) && ClosedOnce(was) && DeadAreDue(was, None)
    ensures EntriesOwnHandles(next) && ClosedOnce(next) && DeadAreDue(next, None)
  {
  }

  lemma SameEntriesLinked(was: Backend, next: Backend)
    requires SameEntries(was, next) && EntriesOwnHandles(was) && LiveAreLinked(was)
    requires forall r :: r in was.routers ==> r in next.routers && next.routers[r] == was.routers[r]
    ensures LiveAreLinked(next)
  {
  }

  lemma SameEntriesTables(was: Backend, next: Backend)
    requires TablesSound(was) && SameEntries(was, next) && MediaSound(next) && EntriesJoined(next)
    requires forall r :: r in was.routers ==> r in next.routers && next.routers[r] == was.routers[r]
    ensures TablesSound(next)
  {
    hide MediaSound, EntriesOwnHandles, ClosedOnce, DeadAreDue, EntriesJoined, LiveAreLinked, SameEntries;
    SameEntriesSound(was, next);
    SameEntriesLinked(was, next);
  }

  lemma AddRouterMedia(s: Backend, roomId: string, workerId: string)
    requires MediaSound(s) && RootsSound(s) && workerId in s.pool
    ensures MediaSound(AddRouter(s, roomId, workerId))
  {
    var next, worker := AddRouter(s, roomId, workerId), s.pool[workerId];
    assert worker in s.media && s.media[worker] == {worker} && worker < s.nextHandle;
    hide RootsSound;
    forall h, a | h in next.media && a in next.media[h]
      ensures a in next.media && next.media[a] <= next.media[h]
    {
      if h == s.nextHandle {
        assert a == h || a == worker;
      } else {
        assert h in s.media && a in s.media && a < s.nextHandle && s.media[a] <= s.media[h];
      }
    }
  }

  lemma AddRouterEntries(s: Backend, roomId: string, workerId: string)
    requires MediaSound(s) && workerId in s.pool
    ensures SameEntries(s, AddRouter(s, roomId, workerId))
  {
  }

  lemma AddRouterRoots(s: Backend, roomId: string, workerId: string)
    requires RootsSound(s) && MediaSound(s) && workerId in s.pool && roomId !in s.routers
    ensures RootsSound(AddRouter(s, roomId, workerId))
  {
  }

  lemma AddRouterLive(s: Backend, roomId: string, workerId: string, r: string)
    requires RootsSound(s) && MediaSound(s) && workerId in s.pool
    requires r in s.routers ==> RouterLive(s, r)
    requires r == roomId || r in s.routers
    ensures RouterLive(AddRouter(s, roomId, workerId), r)
  {
  }

  lemma AddRouterRouters(s: Backend, roomId: string, workerId: string)
    requires RoutersSound(s, {}) && MediaSound(s) && roomId !in s.routers && workerId in s.pool
    ensures RoutersSound(AddRouter(s, roomId, workerId), {})
  {
    hide RootsSound, MediaSound, RouterLive;
    AddRouterRoots(s, roomId, workerId);
    forall r | r in AddRouter(s, roomId, workerId).routers
      ensures RouterLive(AddRouter(s, roomId, workerId), r)
    {
      AddRouterLive(s, roomId, workerId, r);
    }
  }

  lemma AddRouterSound(s: Backend, roomId: string, workerId: string)
    requires Sound(s) && roomId !in s.routers && workerId in s.pool
    ensures Sound(AddRouter(s, roomId, workerId))
  {
    hide MediaSound, EntriesOwnHandles, ClosedOnce, DeadAreDue, EntriesJoined, LiveAreLinked, RootsSound, RouterLive, Sound, TablesSound, LinksSound, RoutersSound;
    hide SameEntries;
    Parts(s);
    AddRouterJoined(s, roomId, workerId);
    AddRouterMedia(s, roomId, workerId);
    AddRouterEntries(s, roomId, workerId);
    AddRouterRouters(s, roomId, workerId);
    SameEntriesTables(s, AddRouter(s, roomId, workerId));
    SoundFrom(AddRouter(s, roomId, workerId));
  }

  lemma SoundFrom(s: Backend)
    requires TablesSound(s) && RoutersSound(s, {})
    ensures Sound(s)
  {
  }

  lemma AddRouterJoined(s: Backend, roomId: string, workerId: string)
    requires EntriesJoined(s) && workerId in s.pool
    ensures EntriesJoined(AddRouter(s, roomId, workerId))
  {
  }

  lemma AddPeerJoined(s: Backend, roomId: string, peerId: string)
    requires EntriesJoined(s) && roomId in s.routers
    ensures EntriesJoined(AddPeer(s, roomId, peerId))
  {
  }

  lemma RelabelledMedia(was: Backend, next: Backend)
    requires MediaSound(was) && next.media == was.media && next.made == was.made && next.nextHandle == was.nextHandle
    ensures MediaSound(next)
  {
  }

  lemma RelabelledRouters(was: Backend, next: Backend)
    requires RoutersSound(was, {}) && next.media == was.media && next.made == was.made && next.nextHandle == was.nextHandle
    requires next.pool == was.pool && next.routers == was.routers && next.closedRouters == was.closedRouters
    requires forall r :: r in was.routers ==> (r in next.workerByRoom <==> r in was.workerByRoom)
                                              && (r in was.workerByRoom ==> next.workerByRoom[r] == was.workerByRoom[r])
    ensures RoutersSound(next, {})
  {
  }

  /** Changing who has joined, or where routerless rooms are assigned, touches no handle. */
  lemma RelabelledSound(was: Backend, next: Backend)
    requires Sound(was) && EntriesJoined(next)
    requires next == was.(roomPeers := next.roomPeers, workerByRoom := next.workerByRoom)
    requires forall r :: r in was.routers ==> (r in next.workerByRoom <==> r in was.workerByRoom)
                                              && (r in was.workerByRoom ==> next.workerByRoom[r] == was.workerByRoom[r])
    ensures Sound(next)
  {
    assert SameEntries(was, next);
    hide MediaSound, EntriesOwnHandles, ClosedOnce, DeadAreDue, EntriesJoined, LiveAreLinked, RootsSound, RouterLive, Sound, TablesSound, LinksSound, RoutersSound;
    hide SameEntries;
    Parts(was);
    RelabelledMedia(was, next);
    RelabelledRouters(was, next);
    SameEntriesTables(was, next);
    SoundFrom(next);
  }

  lemma AddPeerSound(s: Backend, roomId: string, peerId: string)
    requires Sound(s) && roomId in s.routers
    ensures Sound(AddPeer(s, roomId, peerId))
  {
    hide MediaSound, EntriesOwnHandles, ClosedOnce, DeadAreDue, EntriesJoined, LiveAreLinked, RootsSound, RouterLive, Sound, TablesSound, LinksSound, RoutersSound;
    Parts(s);
    AddPeerJoined(s, roomId, peerId);
    RelabelledSound(s, AddPeer(s, roomId, peerId));
  }

  lemma AssignSound(s: Backend, roomId: string, workerId: string)
    requires Sound(s) && roomId !in s.routers
    ensures Sound(s.(workerByRoom := s.workerByRoom[roomId := workerId]))
  {
    hide MediaSound, EntriesOwnHandles, ClosedOnce, DeadAreDue, EntriesJoined, LiveAreLinked, RootsSound, RouterLive, Sound, TablesSound, LinksSound, RoutersSound;
    Parts(s);
    var next := s.(workerByRoom := s.workerByRoom[roomId := workerId]);
    AssignJoined(s, next);
    RelabelledSound(s, next);
  }

  lemma AssignJoined(was: Backend, next: Backend)
    requires EntriesJoined(was) && next == was.(workerByRoom := next.workerByRoom)
    ensures EntriesJoined(next)
  {
  }

  lemma PlaceRouterSound(s: Backend, roomId: string, o: Oracle)
    requires Sound(s) && roomId !in s.routers
    ensures Sound(PlaceRouter(s, roomId, o).0)
  {
    hide Sound;
    var selected := if HasWorker(s, roomId) then s.workerByRoom[roomId] else o.worker;
    AssignSound(s, roomId, selected);
    if selected in s.pool {
      AddRouterSound(s, roomId, selected);
    }
  }

  /** The router of a room that has one is live on its worker; making one touches nothing else. */
  lemma EnsureRoomRouterSound(s: Backend, roomId: string, o: Oracle)
    requires Sound(s)
    ensures var (next, ready) := EnsureRoomRouter(s, roomId, o);
            && Sound(next)
            && (roomId in s.routers ==> next == s && ready)
            && (ready ==> roomId in next.routers)
            && next == s.(routers := next.routers, workerByRoom := next.workerByRoom, media := next.media, nextHandle := next.nextHandle)
            && (next.media == s.media || (s.nextHandle in next.media && next.media == s.media[s.nextHandle := next.media[s.nextHandle]]))
  {
    hide MediaSound, EntriesOwnHandles, ClosedOnce, DeadAreDue, EntriesJoined, LiveAreLinked, RootsSound, Sound, TablesSound, LinksSound, RoutersSound;
    Parts(s);
    assert roomId in s.routers ==> RouterLive(s, roomId);
    if roomId !in s.routers {
      PlaceRouterSound(s, roomId, o);
    }
  }

  // ---- Leaving and closing ----

  /** Closing what entries held keeps the whole state sound. */
  lemma StillSound(was: Backend, next: Backend, targets: set<Callback>)
    requires Sound(was) && TablesSound(next) && SameRooms(was, next)
    requires Shrunk(was, next, HandlesFor(was, targets))
    ensures Sound(next)
  {
    hide MediaSound, EntriesOwnHandles, ClosedOnce, DeadAreDue, EntriesJoined, LiveAreLinked, RootsSound, RouterLive, Sound, TablesSound, LinksSound, RoutersSound;
    hide Shrunk, Target;
    Parts(was);
    HeldAreMade(was, targets);
    ShrunkFacts(was, next, HandlesFor(was, targets));
    RoutersStaySound(was, next, HandlesFor(was, targets), {});
    SoundFrom(next);
  }

  lemma OneHandle(s: Backend, target: Callback)
    ensures HandlesFor(s, {target}) == Targets(s, target)
  {
  }

  lemma NoRouterNothingHeld(s: Backend, roomId: string, peerId: string)
    requires Sound(s) && !HasLiveRouter(s, roomId)
    ensures PeerTargets(s, roomId, peerId) == {} && roomId !in s.roomPeers
  {
  }

  /** The first half of leaving: what the peer held is gone, and the state is sound. */
  lemma PeerCleared(s0: Backend, s1: Backend, roomId: string, peerId: string)
    requires Sound(s0) && TablesSound(s1) && SameRooms(s0, s1) && PeerTargets(s1, roomId, peerId) == {}
    requires s1 == s0 || Shrunk(s0, s1, HandlesFor(s0, PeerTargets(s0, roomId, peerId)))
    ensures Sound(s1) && Shrunk(s0, s1, HandlesFor(s0, PeerTargets(s0, roomId, peerId)))
  {
    hide MediaSound, EntriesOwnHandles, ClosedOnce, DeadAreDue, EntriesJoined, LiveAreLinked, RootsSound, RouterLive, Sound, TablesSound, LinksSound, RoutersSound;
    hide Shrunk, PeerTargets, Target;
    if s1 == s0 {
      NothingShrunk(s0);
      assert HandlesFor(s0, PeerTargets(s0, roomId, peerId)) == {};
    }
    StillSound(s0, s1, PeerTargets(s0, roomId, peerId));
  }

  lemma WithoutPeerJoined(s: Backend, next: Backend, roomId: string, peerId: string)
    requires EntriesJoined(s) && PeerTargets(s, roomId, peerId) == {} && roomId in s.roomPeers
    requires next == s.(roomPeers := s.roomPeers[roomId := s.roomPeers[roomId] - {peerId}])
    ensures EntriesJoined(next)
  {
    forall id | id in s.transports && s.transports[id].roomId == roomId ensures s.transports[id].peerId != peerId {
      assert TransportClosed(id) !in PeerTargets(s, roomId, peerId);
    }
    forall id | id in s.producers && s.producers[id].roomId == roomId ensures s.producers[id].peerId != peerId {
      assert ProducerClosed(id) !in PeerTargets(s, roomId, peerId);
    }
    forall id | id in s.consumers && s.consumers[id].roomId == roomId ensures s.consumers[id].peerId != peerId {
      assert ConsumerClosed(id) !in PeerTargets(s, roomId, peerId);
    }
    assert forall r :: PeersIn(next, r) == PeersIn(s, r) - (if r == roomId then {peerId} else {});
  }

  /** The second half: the peer set shrinks; unless that empties the room, leaving is complete. */
  lemma PeerRemoved(s0: Backend, s1: Backend, s2: Backend, roomId: string, peerId: string)
    requires Sound(s1) && SameRooms(s0, s1) && PeerTargets(s1, roomId, peerId) == {}
    requires Shrunk(s0, s1, HandlesFor(s0, PeerTargets(s0, roomId, peerId)))
    requires s2 == if roomId in s1.roomPeers then s1.(roomPeers := s1.roomPeers[roomId := s1.roomPeers[roomId] - {peerId}]) else s1
    ensures Sound(s2) && Shrunk(s0, s2, HandlesFor(s0, PeerTargets(s0, roomId, peerId)))
    ensures !Empties(s0, roomId, peerId) ==> LeaveEffect(s0, roomId, peerId, s2)
  {
    hide MediaSound, EntriesOwnHandles, ClosedOnce, DeadAreDue, EntriesJoined, LiveAreLinked, RootsSound, RouterLive, Sound, TablesSound, LinksSound, RoutersSound;
    hide Shrunk, PeerTargets, Target;
    var held := HandlesFor(s0, PeerTargets(s0, roomId, peerId));
    if roomId in s1.roomPeers {
      Parts(s1);
      WithoutPeerJoined(s1, s2, roomId, peerId);
      RelabelledSound(s1, s2);
      SameTables(s1, s2);
      ShrunkTwice(s0, s1, s2, held, {}, held);
    }
    assert held + {} == held;
  }

  lemma LastPeerGone(s0: Backend, s2: Backend, s3: Backend, roomId: string, peerId: string)
    requires Sound(s2) && TablesSound(s3) && RoutersSound(s3, {} - {roomId}) && roomId in s0.roomPeers
    requires Shrunk(s0, s2, HandlesFor(s0, PeerTargets(s0, roomId, peerId)))
    requires s2.roomPeers == s0.roomPeers[roomId := {}] && s0.roomPeers[roomId] - {peerId} == {}
    requires s2.pool == s0.pool && s2.routers == s0.routers && s2.workerByRoom == s0.workerByRoom
    requires s2.closedRouters == s0.closedRouters
    requires Shrunk(s2, s3, RoomHandles(s2, roomId)) && RoomGone(s2, s3, roomId)
    ensures LeaveEffect(s0, roomId, peerId, s3)
  {
    hide MediaSound, EntriesOwnHandles, ClosedOnce, DeadAreDue, EntriesJoined, LiveAreLinked, RootsSound, RouterLive, Sound, TablesSound, LinksSound, RoutersSound;
    hide Shrunk, PeerTargets, RoomTargets, Target;
    Parts(s2);
    NobodyHoldsNothing(s2, roomId);
    assert HandlesFor(s2, RoomTargets(s2, roomId)) == {};
    assert RoomHandles(s2, roomId) == RouterHandles(s0, roomId);
    ShrunkTwice(s0, s2, s3, HandlesFor(s0, PeerTargets(s0, roomId, peerId)), RouterHandles(s0, roomId),
                LeaveHandles(s0, roomId, peerId));
    assert {} - {roomId} == {};
    SoundFrom(s3);
  }

  lemma SubscribersOnlyShrink(was: Backend, next: Backend, dying: set<Handle>, producerId: string)
    requires Shrunk(was, next, dying)
    ensures forall t :: t in SubscriberTargets(next, producerId) <==> t in SubscriberTargets(was, producerId) && Target(next, t).Some?
  {
  }

  lemma ProducerTreeClosed(s0: Backend, s1: Backend, s2: Backend, producerId: string)
    requires Sound(s0) && TablesSound(s2) && SameRooms(s0, s1) && SameRooms(s1, s2)
    requires Shrunk(s0, s1, Targets(s0, ProducerClosed(producerId))) && Target(s1, ProducerClosed(producerId)).None?
    requires Shrunk(s1, s2, HandlesFor(s1, SubscriberTargets(s1, producerId)))
    requires forall t :: t in SubscriberTargets(s1, producerId) ==> Target(s2, t).None?
    ensures CloseProducerEffect(s0, producerId, s2)
  {
    hide MediaSound, EntriesOwnHandles, ClosedOnce, DeadAreDue, EntriesJoined, LiveAreLinked, RootsSound, RouterLive, Sound, TablesSound, LinksSound, RoutersSound;
    hide Shrunk, SubscriberTargets, Target;
    Parts(s0);
    var first := Targets(s0, ProducerClosed(producerId));
    var second := HandlesFor(s1, SubscriberTargets(s1, producerId));
    SubscribersOnlyShrink(s0, s1, first, producerId);
    TargetsOnlyShrink(s0, s1, first);
    TargetsOnlyShrink(s1, s2, second);
    ShrunkTwice(s0, s1, s2, first, second, first + second);
    ShrunkToGoal(s0, s2, first + second, ProducerTree(s0, producerId));
    SameRoomsTwice(s0, s1, s2);
    StillSound(s0, s2, ProducerTree(s0, producerId));
  }

  lemma SameTargetAfterDrop(s: Backend, callback: Callback)
    ensures Targets(Drop(s, callback), callback) == Targets(s, callback)
  {
  }

  // ---- Workers ----

  lemma PoolOnlySound(was: Backend, next: Backend)
    requires TablesSound(was) && next == was.(pool := next.pool)
    ensures TablesSound(next) && Shrunk(was, next, {})
  {
    hide Sound, TablesSound, LinksSound, RoutersSound, MediaSound, EntriesOwnHandles, ClosedOnce, DeadAreDue, EntriesJoined, LiveAreLinked;
    TablesParts(was);
    assert Survivors(was.media, {}) == was.media;
    assert SameEntries(was, next);
    hide SameEntries;
    RelabelledMedia(was, next);
    SamePeersJoined(was, next);
    SameEntriesTables(was, next);
  }

  lemma TablesParts(s: Backend)
    requires TablesSound(s)
    ensures MediaSound(s) && EntriesOwnHandles(s) && EntriesJoined(s) && LiveAreLinked(s)
  {
  }

  lemma SamePeersJoined(was: Backend, next: Backend)
    requires EntriesJoined(was) && next == was.(pool := next.pool)
    ensures EntriesJoined(next)
  {
  }

  /** Losing a worker leaves every other worker and its routers as they were. */
  lemma WorkerLost(was: Backend, next: Backend, workerId: string)
    requires RootsSound(was) && RoutersClosedOnce(was) && workerId in was.pool
    requires forall r :: r in was.routers ==> RouterLive(was, r)
    requires next.media == Survivors(was.media, {was.pool[workerId]}) && next.made == was.made && next.nextHandle == was.nextHandle
    requires next.pool == was.pool - {workerId} && next.routers == was.routers && next.workerByRoom == was.workerByRoom
    requires next.closedRouters == was.closedRouters
    ensures RoutersSound(next, RoomsOn(was, workerId))
  {
    assert RootsSound(next);
    forall r | r in next.routers && r !in RoomsOn(was, workerId)
      ensures RouterLive(next, r)
    {
      assert RouterLive(was, r);
    }
  }

  /** Everything held in some rooms, and their routers. */
  function RoomsHandles(s: Backend, rooms: set<string>): set<Handle> {
    set r, h | r in rooms && h in RoomHandles(s, r) :: h
  }

  /** One more of a dead worker's rooms is closed. */
  lemma RoomTakenDown(s0: Backend, before: Backend, after: Backend, dying: set<Handle>, roomId: string, rooms: set<string>)
    requires roomId in rooms && Shrunk(s0, before, dying) && dying <= RoomsHandles(s0, rooms)
    requires roomId in before.routers ==> roomId in s0.routers && before.routers[roomId] == s0.routers[roomId]
    requires Shrunk(before, after, RoomHandles(before, roomId))
    ensures Shrunk(s0, after, dying + RoomHandles(before, roomId))
    ensures dying + RoomHandles(before, roomId) <= RoomsHandles(s0, rooms)
    ensures forall r :: RoomTargets(before, r) == {} ==> RoomTargets(after, r) == {}
  {
    hide Shrunk, RoomTargets, Target;
    ShrunkTwice(s0, before, after, dying, RoomHandles(before, roomId), dying + RoomHandles(before, roomId));
    RoomTargetsOnlyShrink(s0, before, dying, roomId);
    TargetsOnlyShrink(s0, before, dying);
    assert RoomHandles(before, roomId) <= RoomHandles(s0, roomId);
    forall r | RoomTargets(before, r) == {}
      ensures RoomTargets(after, r) == {}
    {
      RoomTargetsOnlyShrink(before, after, RoomHandles(before, roomId), r);
    }
  }

  lemma RoomHandleDead(s0: Backend, s4: Backend, dying: set<Handle>, workerId: string, roomId: string, h: Handle)
    requires workerId in s0.pool && roomId in RoomsOn(s0, workerId) && RouterLive(s0, roomId) && h in RoomHandles(s0, roomId)
    requires Shrunk(s0, s4, dying) && s0.pool[workerId] in dying && RoomTargets(s4, roomId) == {}
    ensures h !in s4.media
  {
    hide Shrunk, RoomTargets, Target;
    if h in HandlesFor(s0, RoomTargets(s0, roomId)) {
      var t :| t in RoomTargets(s0, roomId) && Target(s0, t) == Some(h);
      RoomTargetsOnlyShrink(s0, s4, dying, roomId);
      DeadEntryGone(s0, s4, dying, t);
    } else {
      ShrunkFacts(s0, s4, dying);
    }
  }

  lemma RootsHeldByNobody(s: Backend, t: Callback)
    requires TablesSound(s) && RootsSound(s) && Target(s, t).Some?
    ensures forall r :: r in s.routers ==> s.routers[r].handle != Target(s, t).value
    ensures forall w :: w in s.pool ==> s.pool[w] != Target(s, t).value
  {
    HandleOwned(s, t);
    hide TablesSound, Target;
  }

  lemma NoEntryHolds(s0: Backend, s4: Backend, dying: set<Handle>, workerId: string, t: Callback)
    requires TablesSound(s0) && RootsSound(s0) && workerId in s0.pool && Shrunk(s0, s4, dying) && Target(s4, t).Some?
    requires forall r :: r in RoomsOn(s0, workerId) ==> RoomTargets(s4, r) == {}
    ensures Target(s4, t).value !in WorkerHandles(s0, workerId)
  {
    hide Shrunk, RoomTargets, Target, TablesSound, RootsSound, HandlesFor;
    TargetsOnlyShrink(s0, s4, dying);
    RootsHeldByNobody(s0, t);
    forall r | r in RoomsOn(s0, workerId) ensures Target(s4, t).value !in RoomHandles(s0, r) {
      RoomTargetsOnlyShrink(s0, s4, dying, r);
      HeldIff(s0, RoomTargets(s0, r), t);
    }
  }

  /** The worker out of the pool with its handle dead, then its rooms closed. */
  lemma WorkerGone(s0: Backend, s3: Backend, s4: Backend, dying: set<Handle>, workerId: string)
    requires Sound(s0) && workerId in s0.pool && Shrunk(s0, s3, {s0.pool[workerId]}) && Shrunk(s3, s4, dying)
    requires s3.routers == s0.routers && s3.roomPeers == s0.roomPeers && s3.workerByRoom == s0.workerByRoom
    requires dying <= RoomsHandles(s3, RoomsOn(s0, workerId))
    requires Sound(s4) && s3.pool == s0.pool - {workerId} && RoomsGone(s3, s4, RoomsOn(s0, workerId))
    ensures WorkerDeathEffect(s0, workerId, s4)
  {
    hide Shrunk, RoomTargets, Target, Sound, TablesSound, LinksSound, RootsSound, RouterLive, EntriesOwnHandles, ClosedOnce;
    hide DeadAreDue, EntriesJoined, LiveAreLinked, MediaSound, RoutersSound;
    Parts(s0);
    Parts(s4);
    var all := {s0.pool[workerId]} + dying;
    ShrunkTwice(s0, s3, s4, {s0.pool[workerId]}, dying, all);
    TargetsOnlyShrink(s0, s3, {s0.pool[workerId]});
    forall r | r in RoomsOn(s0, workerId)
      ensures RoomHandles(s3, r) <= RoomHandles(s0, r)
    {
      RoomTargetsOnlyShrink(s0, s3, {s0.pool[workerId]}, r);
    }
    assert all <= WorkerHandles(s0, workerId);
    forall h | h in WorkerHandles(s0, workerId) ensures h !in s4.media {
      if h == s0.pool[workerId] {
        ShrunkKills(s0, s4, all, h);
      } else {
        var r :| r in RoomsOn(s0, workerId) && h in RoomHandles(s0, r);
        RoomHandleDead(s0, s4, all, workerId, r, h);
      }
    }
    forall t | Target(s4, t).Some? ensures Target(s4, t).value !in WorkerHandles(s0, workerId) {
      NoEntryHolds(s0, s4, all, workerId, t);
    }
    ShrunkWidens(s0, s4, all, WorkerHandles(s0, workerId));
  }

  lemma ShrunkKills(was: Backend, next: Backend, dying: set<Handle>, h: Handle)
    requires MediaSound(was) && Shrunk(was, next, dying) && h in dying
    ensures h !in next.media
  {
  }

  ghost predicate RoomsGone(was: Backend, next: Backend, rooms: set<string>) {
    && next.pool == was.pool
    && next.roomPeers == was.roomPeers - rooms
    && next.routers == was.routers - rooms
    && next.workerByRoom == was.workerByRoom - rooms
    && forall r :: r in rooms ==> RoomTargets(next, r) == {}
  }

  function AddWorker(s: Backend, workerId: string): Backend {
    s.(pool := s.pool[workerId := s.nextHandle], media := s.media[s.nextHandle := {s.nextHandle}], nextHandle := s.nextHandle + 1)
  }

  lemma AddWorkerMedia(s: Backend, workerId: string)
    requires MediaSound(s)
    ensures MediaSound(AddWorker(s, workerId)) && SameEntries(s, AddWorker(s, workerId))
  {
    var next := AddWorker(s, workerId);
    forall h, a | h in next.media && a in next.media[h]
      ensures a in next.media && next.media[a] <= next.media[h]
    {
      if h != s.nextHandle {
        assert h in s.media && a in s.media && a < s.nextHandle && s.media[a] <= s.media[h];
      }
    }
  }

  lemma AddWorkerRouters(s: Backend, workerId: string)
    requires MediaSound(s) && RootsSound(s) && RoutersClosedOnce(s) && workerId !in s.pool
    requires forall r :: r in s.routers ==> RouterLive(s, r)
    ensures RoutersSound(AddWorker(s, workerId), {})
  {
    var next := AddWorker(s, workerId);
    assert RootsSound(next);
    forall r | r in next.routers
      ensures RouterLive(next, r)
    {
      assert RouterLive(s, r);
    }
  }

  lemma AddWorkerJoined(s: Backend, workerId: string)
    requires EntriesJoined(s)
    ensures EntriesJoined(AddWorker(s, workerId))
  {
  }

  lemma AddWorkerSound(s: Backend, workerId: string)
    requires Sound(s) && workerId !in s.pool
    ensures Sound(AddWorker(s, workerId))
  {
    hide MediaSound, EntriesOwnHandles, ClosedOnce, DeadAreDue, EntriesJoined, LiveAreLinked, RootsSound, RouterLive, Sound, TablesSound, LinksSound, RoutersSound;
    hide SameEntries;
    Parts(s);
    AddWorkerMedia(s, workerId);
    AddWorkerRouters(s, workerId);
    AddWorkerJoined(s, workerId);
    SameEntriesTables(s, AddWorker(s, workerId));
    SoundFrom(AddWorker(s, workerId));
  }

  // ---- Whole operations ----

  lemma JoinPeerSound(s: Backend, c: Command, o: Oracle)
    requires Sound(s)
    ensures Sound(JoinPeerOp(s, c, o).0)
  {
    hide Sound, EnsureRoomRouter;
    EnsureRoomRouterSound(s, c.roomId, o);
    var (s1, ready) := EnsureRoomRouter(s, c.roomId, o);
    if ready {
      AddPeerSound(s1, c.roomId, c.peerId);
    }
  }

  lemma CreateTransportSound(s: Backend, c: Command, o: Oracle)
    requires Sound(s)
    ensures Sound(CreateTransportOp(s, c, o).0)
  {
    hide Sound, EnsureRoomRouter, AddTransport;
    EnsureRoomRouterSound(s, c.roomId, o);
    var (s1, ready) := EnsureRoomRouter(s, c.roomId, o);
    if ready && c.transportId !in s1.transports && c.peerId in PeersIn(s, c.roomId) {
      AddTransportSound(s1, c);
    }
  }

  lemma ProduceSound(s: Backend, c: Command, o: Oracle)
    requires Sound(s)
    ensures Sound(ProduceOp(s, c, o).0)
  {
    hide Sound, AddProducer;
    var trackType := if c.trackType != "" then c.trackType else DefaultTrackType(c.kind);
    if c.transportId in s.transports && c.producerId !in s.producers && s.transports[c.transportId].handle in s.media {
      AddProducerSound(s, c, trackType);
    }
  }

  lemma ConsumeSound(s: Backend, c: Command, o: Oracle)
    requires Sound(s)
    ensures Sound(ConsumeOp(s, c, o).0)
  {
    hide Sound, AddConsumer;
    var consumerId := if c.consumerId != "" then c.consumerId else c.producerId + "-consumer-" + o.generatedId;
    if && c.transportId in s.transports && c.producerId in s.producers && consumerId !in s.consumers
       && s.transports[c.transportId].handle in s.media && s.producers[c.producerId].handle in s.media
       && s.producers[c.producerId].roomId == s.transports[c.transportId].roomId {
      AddConsumerSound(s, c, consumerId);
    }
  }

  /** Whatever the request and the library's answers, an operation takes a sound state to a sound state. */
  lemma HandlesSound(s: Backend, operation: Operation, c: Command, o: Oracle, next: Backend, reply: Reply)
    requires Sound(s) && Handles(s, operation, c, o, next, reply)
    ensures Sound(next)
  {
    hide Sound, Shrunk, JoinPeerOp, CreateTransportOp, ProduceOp, ConsumeOp, EnsureRoomRouter;
    match operation {
      case CreateRouter => EnsureRoomRouterSound(s, c.roomId, o);
      case JoinPeer => JoinPeerSound(s, c, o);
      case CreateWebRtcTransport => CreateTransportSound(s, c, o);
      case Produce => ProduceSound(s, c, o);
      case Consume => ConsumeSound(s, c, o);
      case _ =>
    }
  }

  lemma FewerHandles(was: Backend, next: Backend, dying: set<Handle>)
    requires Shrunk(was, next, dying)
    ensures next.media.Keys <= was.media.Keys
    ensures next.media.Keys == was.media.Keys ==> next.media == was.media
  {
  }

  lemma WorkerHandleKilled(s: Backend, workerId: string)
    requires Sound(s) && workerId in s.pool
    ensures TablesSound(Kill(s, {s.pool[workerId]})) && SameRooms(s, Kill(s, {s.pool[workerId]}))
    ensures Shrunk(s, Kill(s, {s.pool[workerId]}), {s.pool[workerId]})
  {
    hide MediaSound, EntriesOwnHandles, ClosedOnce, DeadAreDue, EntriesJoined, LiveAreLinked, RouterLive, Sound, TablesSound, LinksSound, RoutersSound;
    hide Kill, Shrunk;
    Parts(s);
    KillSound(s, {s.pool[workerId]});
  }

  /** The states of a worker's death: before, its handles dead, some callbacks run, the worker out of the pool. */
  lemma WorkerRemoved(s0: Backend, s1: Backend, s2: Backend, s3: Backend, workerId: string)
    requires Sound(s0) && workerId in s0.pool && TablesSound(s2)
    requires SameRooms(s0, s1) && SameRooms(s1, s2) && s3 == s2.(pool := s2.pool - {workerId})
    requires Shrunk(s0, s1, {s0.pool[workerId]}) && Shrunk(s1, s2, {})
    ensures TablesSound(s3) && RoutersSound(s3, RoomsOn(s0, workerId))
    ensures Shrunk(s0, s3, {s0.pool[workerId]})
  {
    hide MediaSound, EntriesOwnHandles, ClosedOnce, DeadAreDue, EntriesJoined, LiveAreLinked, RootsSound, RouterLive, Sound, TablesSound, LinksSound, RoutersSound;
    hide Shrunk;
    var dying := {s0.pool[workerId]};
    Parts(s0);
    PoolOnlySound(s2, s3);
    ShrunkTwice(s0, s1, s2, dying, {}, dying);
    ShrunkTwice(s0, s2, s3, dying, {}, dying);
    ShrunkFacts(s0, s3, dying);
    WorkerLost(s0, s3, workerId);
  }
}
