/** Why teardown works: how closings compose, and why the tables stay sound whatever order callbacks come in. */
module SfuBackendClosing {
  import opened MediaTypes
  import opened SfuBackend

  function HandlesFor(s: Backend, targets: set<Callback>): set<Handle> {
    set t | t in targets && Target(s, t).Some? :: Target(s, t).value
  }

  function ConsumerTargets(s: Backend, roomId: string, peerId: string): set<Callback> {
    set id | id in s.consumers && s.consumers[id].roomId == roomId && s.consumers[id].peerId == peerId :: ConsumerClosed(id)
  }

  function ProducerTargets(s: Backend, roomId: string, peerId: string): set<Callback> {
    set id | id in s.producers && s.producers[id].roomId == roomId && s.producers[id].peerId == peerId :: ProducerClosed(id)
  }

  function TransportTargets(s: Backend, roomId: string, peerId: string): set<Callback> {
    set id | id in s.transports && s.transports[id].roomId == roomId && s.transports[id].peerId == peerId :: TransportClosed(id)
  }

  /** What a peer holds in a room. */
  function PeerTargets(s: Backend, roomId: string, peerId: string): set<Callback> {
    ConsumerTargets(s, roomId, peerId) + ProducerTargets(s, roomId, peerId) + TransportTargets(s, roomId, peerId)
  }

  /** What is held in a room by anyone. */
  function RoomTargets(s: Backend, roomId: string): set<Callback> {
    (set id | id in s.transports && s.transports[id].roomId == roomId :: TransportClosed(id))
    + (set id | id in s.producers && s.producers[id].roomId == roomId :: ProducerClosed(id))
    + (set id | id in s.consumers && s.consumers[id].roomId == roomId :: ConsumerClosed(id))
  }

  /** The consumers of a producer, in any room. */
  function SubscriberTargets(s: Backend, producerId: string): set<Callback> {
    set id | id in s.consumers && s.consumers[id].producerId == producerId :: ConsumerClosed(id)
  }

  function RouterHandles(s: Backend, roomId: string): set<Handle> {
    if roomId in s.routers then {s.routers[roomId].handle} else {}
  }

  function RouterOf(s: Backend, roomId: string): seq<Handle> {
    if roomId in s.routers then [s.routers[roomId].handle] else []
  }

  /** Everything closing a room takes down. */
  function RoomHandles(s: Backend, roomId: string): set<Handle> {
    HandlesFor(s, RoomTargets(s, roomId)) + RouterHandles(s, roomId)
  }

  ghost predicate RoomGone(was: Backend, next: Backend, roomId: string) {
    && next.pool == was.pool
    && next.roomPeers == was.roomPeers - {roomId}
    && next.routers == was.routers - {roomId}
    && next.workerByRoom == was.workerByRoom - {roomId}
    && next.closedRouters == was.closedRouters + RouterOf(was, roomId)
  }

  /** Handles that turned out dead with their entries gone may be counted among the closed. */
  lemma ShrunkWidens(was: Backend, next: Backend, dying: set<Handle>, more: set<Handle>)
    requires Shrunk(was, next, dying) && MediaSound(next) && dying <= more
    requires forall h :: h in more ==> h !in next.media
    requires forall t :: Target(next, t).Some? ==> Target(next, t).value !in more
    ensures Shrunk(was, next, more)
  {
    assert forall id :: id in next.transports ==> Target(next, TransportClosed(id)).Some?;
    assert forall id :: id in next.producers ==> Target(next, ProducerClosed(id)).Some?;
    assert forall id :: id in next.consumers ==> Target(next, ConsumerClosed(id)).Some?;
    assert forall h :: h in next.media ==> next.media[h] !! more;
    assert Survivors(was.media, more) == next.media;
    MoreCallbacks(was, dying, more);
    hide CallbacksOf;
  }

  lemma MoreCallbacks(s: Backend, dying: set<Handle>, more: set<Handle>)
    requires dying <= more
    ensures CallbacksOf(s, dying) <= CallbacksOf(s, more)
  {
  }

  lemma SameRoomsTwice(a: Backend, b: Backend, c: Backend)
    requires SameRooms(a, b) && SameRooms(b, c)
    ensures SameRooms(a, c)
  {
  }

  lemma KeepsMedia(was: Backend, next: Backend)
    requires Shrunk(was, next, {})
    ensures next.media == was.media
  {
  }

  lemma SoundEnough(s: Backend, target: Callback)
    requires TablesSound(s)
    ensures LinksSound(s) && ClosedOnce(s) && DeadAreDue(s, Some(target))
  {
  }

  lemma TargetsOnlyShrink(was: Backend, next: Backend, dying: set<Handle>)
    requires Shrunk(was, next, dying)
    ensures forall t :: Target(next, t).Some? ==> Target(was, t) == Target(next, t)
  {
  }

  lemma HandleOwned(s: Backend, target: Callback)
    requires TablesSound(s) && Target(s, target).Some?
    ensures Target(s, target).value in s.made && s.made[Target(s, target).value] == target
  {
  }

  lemma HeldIff(s: Backend, targets: set<Callback>, target: Callback)
    requires TablesSound(s) && Target(s, target).Some?
    ensures Target(s, target).value in HandlesFor(s, targets) <==> target in targets
  {
  }

  lemma DeadEntryGone(was: Backend, next: Backend, dying: set<Handle>, target: Callback)
    requires Shrunk(was, next, dying) && Target(was, target).Some? && Target(next, target).None?
    ensures Target(was, target).value !in next.media
  {
  }

  /** Once every target is gone, all their handles are dead, whichever way each one went. */
  lemma ShrunkToGoal(was: Backend, next: Backend, dying: set<Handle>, targets: set<Callback>)
    requires TablesSound(was) && TablesSound(next) && Shrunk(was, next, dying) && dying <= HandlesFor(was, targets)
    requires forall t :: t in targets ==> Target(next, t).None?
    ensures Shrunk(was, next, HandlesFor(was, targets))
  {
    var goal := HandlesFor(was, targets);
    assert MediaSound(next);
    assert next.made == was.made;
    hide TablesSound, Shrunk, MediaSound, Target;
    forall h | h in goal
      ensures h !in next.media
    {
      var t :| t in targets && Target(was, t) == Some(h);
      DeadEntryGone(was, next, dying, t);
    }
    forall t | Target(next, t).Some?
      ensures Target(next, t).value !in goal
    {
      HandleOwned(next, t);
      if Target(next, t).value in goal {
        var t' :| t' in targets && Target(was, t') == Target(next, t);
        HandleOwned(was, t');
      }
    }
    ShrunkWidens(was, next, dying, goal);
  }

  /** Entries keep their room and peer, so what the peer still holds later it held before. */
  lemma PeerTargetsOnlyShrink(was: Backend, next: Backend, dying: set<Handle>, roomId: string, peerId: string)
    requires Shrunk(was, next, dying)
    ensures forall t :: t in ConsumerTargets(next, roomId, peerId) <==>
              t in ConsumerTargets(was, roomId, peerId) && Target(next, t).Some?
    ensures forall t :: t in ProducerTargets(next, roomId, peerId) <==>
              t in ProducerTargets(was, roomId, peerId) && Target(next, t).Some?
    ensures forall t :: t in TransportTargets(next, roomId, peerId) <==>
              t in TransportTargets(was, roomId, peerId) && Target(next, t).Some?
  {
  }

  lemma PeerClosed(s0: Backend, s1: Backend, s2: Backend, s3: Backend, roomId: string, peerId: string)
    requires TablesSound(s0) && TablesSound(s3)
    requires Shrunk(s0, s1, HandlesFor(s0, ConsumerTargets(s0, roomId, peerId)))
    requires Shrunk(s1, s2, HandlesFor(s1, ProducerTargets(s1, roomId, peerId)))
    requires Shrunk(s2, s3, HandlesFor(s2, TransportTargets(s2, roomId, peerId)))
    requires forall t :: t in ConsumerTargets(s0, roomId, peerId) ==> Target(s1, t).None?
    requires forall t :: t in ProducerTargets(s1, roomId, peerId) ==> Target(s2, t).None?
    requires forall t :: t in TransportTargets(s2, roomId, peerId) ==> Target(s3, t).None?
    ensures Shrunk(s0, s3, HandlesFor(s0, PeerTargets(s0, roomId, peerId)))
    ensures PeerTargets(s3, roomId, peerId) == {}
  {
    hide TablesSound, Shrunk, ConsumerTargets, ProducerTargets, TransportTargets, Target;
    var d1 := HandlesFor(s0, ConsumerTargets(s0, roomId, peerId));
    var d2 := HandlesFor(s1, ProducerTargets(s1, roomId, peerId));
    var d3 := HandlesFor(s2, TransportTargets(s2, roomId, peerId));
    PeerTargetsOnlyShrink(s0, s1, d1, roomId, peerId);
    PeerTargetsOnlyShrink(s1, s2, d2, roomId, peerId);
    PeerTargetsOnlyShrink(s2, s3, d3, roomId, peerId);
    TargetsOnlyShrink(s0, s1, d1);
    TargetsOnlyShrink(s1, s2, d2);
    TargetsOnlyShrink(s2, s3, d3);
    ShrunkTwice(s0, s1, s2, d1, d2, d1 + d2);
    ShrunkTwice(s0, s2, s3, d1 + d2, d3, d1 + d2 + d3);
    ShrunkToGoal(s0, s3, d1 + d2 + d3, PeerTargets(s0, roomId, peerId));
  }

  lemma ShrunkFacts(was: Backend, next: Backend, dying: set<Handle>)
    requires Shrunk(was, next, dying)
    ensures next.media == Survivors(was.media, dying) && next.made == was.made && next.nextHandle == was.nextHandle
  {
  }

  lemma HeldAreMade(s: Backend, targets: set<Callback>)
    requires TablesSound(s)
    ensures HandlesFor(s, targets) <= s.made.Keys
  {
  }

  lemma RoomTargetsOnlyShrink(was: Backend, next: Backend, dying: set<Handle>, roomId: string)
    requires Shrunk(was, next, dying)
    ensures forall t :: t in RoomTargets(next, roomId) <==> t in RoomTargets(was, roomId) && Target(next, t).Some?
  {
  }

  lemma PeerWithinRoom(s: Backend, roomId: string, peerId: string)
    ensures PeerTargets(s, roomId, peerId) <= RoomTargets(s, roomId)
  {
  }

  lemma HeldInRoom(s0: Backend, before: Backend, dying: set<Handle>, roomId: string, peerId: string)
    requires Shrunk(s0, before, dying)
    ensures HandlesFor(before, PeerTargets(before, roomId, peerId)) <= HandlesFor(s0, RoomTargets(s0, roomId))
  {
    hide Shrunk, RoomTargets, PeerTargets;
    RoomTargetsOnlyShrink(s0, before, dying, roomId);
    TargetsOnlyShrink(s0, before, dying);
    PeerWithinRoom(before, roomId, peerId);
  }

  lemma EmptyStaysEmpty(was: Backend, next: Backend, dying: set<Handle>, roomId: string)
    requires Shrunk(was, next, dying)
    ensures forall p :: PeerTargets(was, roomId, p) == {} ==> PeerTargets(next, roomId, p) == {}
  {
  }

  lemma NobodyHoldsNothing(s: Backend, roomId: string)
    requires TablesSound(s)
    requires forall p :: p in PeersIn(s, roomId) ==> PeerTargets(s, roomId, p) == {}
    ensures RoomTargets(s, roomId) == {}
  {
  }

  ghost predicate NothingIn(s: Backend, roomId: string) {
    && (forall id :: id in s.transports ==> s.transports[id].roomId != roomId)
    && (forall id :: id in s.producers ==> s.producers[id].roomId != roomId)
    && (forall id :: id in s.consumers ==> s.consumers[id].roomId != roomId)
  }

  lemma NoTargetsNothingIn(s: Backend, roomId: string)
    requires RoomTargets(s, roomId) == {}
    ensures NothingIn(s, roomId)
  {
    forall id | id in s.transports ensures s.transports[id].roomId != roomId {
      assert TransportClosed(id) !in RoomTargets(s, roomId);
    }
    forall id | id in s.producers ensures s.producers[id].roomId != roomId {
      assert ProducerClosed(id) !in RoomTargets(s, roomId);
    }
    forall id | id in s.consumers ensures s.consumers[id].roomId != roomId {
      assert ConsumerClosed(id) !in RoomTargets(s, roomId);
    }
  }

  /** The same tables under other room maps. */
  ghost predicate OnlyRoomsDiffer(was: Backend, next: Backend) {
    next == was.(roomPeers := next.roomPeers, routers := next.routers, workerByRoom := next.workerByRoom,
                 closedRouters := next.closedRouters)
  }

  lemma LinksForgotten(was: Backend, next: Backend, roomId: string)
    requires LiveAreLinked(was) && NothingIn(was, roomId) && OnlyRoomsDiffer(was, next)
    requires next.routers == was.routers || next.routers == was.routers - {roomId}
    ensures LiveAreLinked(next)
  {
  }

  lemma JoinedForgotten(was: Backend, next: Backend, roomId: string)
    requires EntriesJoined(was) && NothingIn(was, roomId) && OnlyRoomsDiffer(was, next)
    requires next.roomPeers == was.roomPeers - {roomId}
    requires next.routers == was.routers || next.routers == was.routers - {roomId}
    ensures EntriesJoined(next)
  {
  }

  lemma LabelsOnly(was: Backend, next: Backend)
    requires OnlyRoomsDiffer(was, next)
    ensures MediaSound(was) ==> MediaSound(next)
    ensures EntriesOwnHandles(was) ==> EntriesOwnHandles(next)
    ensures ClosedOnce(was) ==> ClosedOnce(next)
    ensures DeadAreDue(was, None) ==> DeadAreDue(next, None)
  {
  }

  lemma RoomsForgotten(was: Backend, next: Backend, roomId: string)
    requires TablesSound(was) && RoomTargets(was, roomId) == {} && OnlyRoomsDiffer(was, next)
    requires next.roomPeers == was.roomPeers - {roomId}
    requires next.routers == was.routers || next.routers == was.routers - {roomId}
    ensures TablesSound(next)
  {
    hide MediaSound, EntriesOwnHandles, ClosedOnce, DeadAreDue, EntriesJoined, LiveAreLinked, RoomTargets, OnlyRoomsDiffer;
    NoTargetsNothingIn(was, roomId);
    LinksForgotten(was, next, roomId);
    JoinedForgotten(was, next, roomId);
    LabelsOnly(was, next);
  }

  lemma SameTables(was: Backend, next: Backend)
    requires OnlyRoomsDiffer(was, next)
    ensures Shrunk(was, next, {})
  {
  }

  lemma SameTargets(was: Backend, next: Backend, roomId: string)
    requires OnlyRoomsDiffer(was, next)
    ensures RoomTargets(next, roomId) == RoomTargets(was, roomId)
  {
  }

  lemma RouterHandleFree(s: Backend, roomId: string, stale: set<string>)
    requires RoutersSound(s, stale)
    ensures RouterHandles(s, roomId) !! s.made.Keys
  {
  }

  lemma NoRouterHandles(s: Backend, roomId: string)
    ensures RouterHandles(s, roomId) == if roomId in s.routers then {s.routers[roomId].handle} else {}
  {
  }

  lemma RoutersAfterDrop(was: Backend, next: Backend, roomId: string, stale: set<string>)
    requires RoutersSound(was, stale) && RoomGone(was, next, roomId)
    requires next.media == Survivors(was.media, RouterHandles(was, roomId))
    requires next.made == was.made && next.nextHandle == was.nextHandle
    ensures RoutersSound(next, stale - {roomId})
  {
    forall r | r in next.routers && r !in stale - {roomId}
      ensures RouterLive(next, r)
    {
      assert RouterLive(was, r);
    }
  }

  /** A room without its peer set, its router about to be closed. */
  function PeersForgotten(s: Backend, roomId: string): Backend {
    s.(roomPeers := s.roomPeers - {roomId}, closedRouters := s.closedRouters + RouterOf(s, roomId))
  }

  lemma PeersForgottenSound(s: Backend, roomId: string)
    requires TablesSound(s) && RoomTargets(s, roomId) == {}
    ensures TablesSound(PeersForgotten(s, roomId)) && RouterHandles(PeersForgotten(s, roomId), roomId) == RouterHandles(s, roomId)
    ensures PeersForgotten(s, roomId).made == s.made
  {
    hide TablesSound, RoomTargets, RouterOf;
    RoomsForgotten(s, PeersForgotten(s, roomId), roomId);
  }

  /** The four states of dropping a room: before, without its peers, without its router, without its assignment. */
  lemma RoomDropped(s1: Backend, s2: Backend, s3: Backend, s4: Backend, roomId: string, stale: set<string>)
    requires TablesSound(s3) && RoutersSound(s1, stale) && RoomTargets(s1, roomId) == {}
    requires s2 == PeersForgotten(s1, roomId)
    requires Shrunk(s2, s3, RouterHandles(s2, roomId)) && SameRooms(s2, s3)
    requires s4 == s3.(routers := s3.routers - {roomId}, workerByRoom := s3.workerByRoom - {roomId})
    ensures TablesSound(s4) && RoutersSound(s4, stale - {roomId})
    ensures Shrunk(s1, s4, RouterHandles(s1, roomId)) && RoomGone(s1, s4, roomId)
  {
    hide TablesSound, Shrunk, RoutersSound, RoomTargets, Target;
    var dying := RouterHandles(s1, roomId);
    SameTargets(s1, s2, roomId);
    RoomTargetsOnlyShrink(s2, s3, dying, roomId);
    RoomsForgotten(s3, s4, roomId);
    SameTables(s1, s2);
    SameTables(s3, s4);
    ShrunkTwice(s1, s2, s3, {}, dying, dying);
    ShrunkTwice(s1, s3, s4, dying, {}, dying);
    ShrunkFacts(s1, s4, dying);
    RoutersAfterDrop(s1, s4, roomId, stale);
  }

  lemma AbsentIsNoOp(s: Backend, target: Callback)
    ensures Target(s, target).None? ==> SafeClose(s, target) == s
  {
  }

  lemma UnchangedMediaQuiet(s: Backend, target: Callback)
    ensures SafeClose(s, target).media == s.media ==> SafeClose(s, target).pending == s.pending
  {
  }

  lemma StaysGone(was: Backend, next: Backend, dying: set<Handle>, target: Callback)
    requires Shrunk(was, next, dying) && Target(was, target).None?
    ensures Target(next, target).None?
  {
  }

  lemma NothingShrunk(s: Backend)
    ensures Shrunk(s, s, {}) && SameRooms(s, s)
  {
  }

  function Drop(s: Backend, callback: Callback): Backend {
    s.(pending := s.pending - {callback})
  }

  lemma DropTrims(s: Backend, callback: Callback)
    ensures Shrunk(s, Drop(s, callback), {}) && SameRooms(s, Drop(s, callback))
  {
  }

  lemma DropDue(s: Backend, callback: Callback)
    requires ClosedOnce(s) && DeadAreDue(s, None)
    ensures ClosedOnce(Drop(s, callback)) && DeadAreDue(Drop(s, callback), Some(callback))
  {
  }

  lemma DropSound(s: Backend, callback: Callback)
    requires TablesSound(s)
    ensures LinksSound(Drop(s, callback)) && ClosedOnce(Drop(s, callback)) && DeadAreDue(Drop(s, callback), Some(callback))
  {
    hide LinksSound, ClosedOnce, DeadAreDue, Shrunk, SameRooms, Drop;
    DropTrims(s, callback);
    DropDue(s, callback);
    ShrunkSound(s, Drop(s, callback), {});
  }

  /** Whatever a callback finds under its id, the tables stay sound. */
  lemma DeliverySound(s: Backend, callback: Callback)
    requires TablesSound(s)
    ensures TablesSound(Deliver(s, callback)) && SameRooms(s, Deliver(s, callback))
    ensures Shrunk(s, Deliver(s, callback), Targets(s, callback))
  {
    hide LinksSound, ClosedOnce, DeadAreDue, SafeClose, Shrunk;
    DropTrims(s, callback);
    DropSound(s, callback);
    SafeCloseSound(Drop(s, callback), callback);
    assert Targets(Drop(s, callback), callback) == Targets(s, callback);
    ShrunkTwice(s, Drop(s, callback), Deliver(s, callback), {}, Targets(s, callback), Targets(s, callback));
  }

  /** A closing that kills nothing makes nothing due. */
  lemma QuietPending(s: Backend, callback: Callback)
    requires MediaSound(s) && Quiet(s, callback)
    ensures Deliver(s, callback).pending == s.pending - {callback}
    ensures Survivors(s.media, Targets(s, callback)) == s.media
  {
    NothingOnDead(s, Targets(s, callback));
    DropTargets(s, callback);
    hide MediaSound, Survivors, CallbacksOf;
  }

  lemma DropTargets(s: Backend, callback: Callback)
    ensures Targets(Drop(s, callback), callback) == Targets(s, callback)
    ensures CallbacksOf(Detach(Drop(s, callback), callback), Targets(s, callback)) == CallbacksOf(s, Targets(s, callback))
  {
  }

  /** A callback for an entry already dead, or gone, tidies the tables and kills nothing. */
  lemma QuietDelivery(s: Backend, callback: Callback)
    requires TablesSound(s) && Quiet(s, callback)
    ensures TablesSound(Deliver(s, callback)) && SameRooms(s, Deliver(s, callback))
    ensures Shrunk(s, Deliver(s, callback), {})
    ensures Deliver(s, callback).pending == s.pending - {callback}
  {
    assert MediaSound(s);
    hide TablesSound, SameRooms, MediaSound, Shrunk, Deliver, Quiet, Survivors;
    DeliverySound(s, callback);
    QuietPending(s, callback);
    ShrunkNarrows(s, Deliver(s, callback), Targets(s, callback));
  }

  lemma ShrunkNarrows(was: Backend, next: Backend, dying: set<Handle>)
    requires Shrunk(was, next, dying) && Survivors(was.media, dying) == was.media
    ensures Shrunk(was, next, {})
  {
  }

  /** Nothing alive lives on a dead handle. */
  lemma NothingOnDead(s: Backend, dead: set<Handle>)
    requires MediaSound(s) && forall h :: h in dead ==> h !in s.media
    ensures Survivors(s.media, dead) == s.media && CallbacksOf(s, dead) == {}
  {
  }
}
