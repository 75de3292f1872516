/**
 Joins that wait. A join checks the limits, waits for the worker pool, assigns a worker, waits for a
 router, checks the worker's limit again and adds the peer; between any two of these points other joins,
 departures and worker births and deaths may run. The limit per worker survives every interleaving.
 */
module InterleavedJoins {
  import opened MediaTypes
  import opened WorkerPool

  datatype Limits = Limits(rooms: nat, peersPerRoom: nat, totalPeers: nat, peersPerWorker: nat)

  /** Where a handler that needs a room's router is suspended. */
  datatype Stage = AwaitsPool | AwaitsRouter(worker: WorkerId) | RouterReady

  /** `joining` names the peer of a join; other operations wait for a router too but add nobody. */
  datatype Handler = Handler(roomId: string, joining: Option<string>, stage: Stage)

  datatype Server = Server(
    pool: Pool,
    routers: map<string, WorkerId>,
    serial: WorkerId,
    starting: set<WorkerId>,
    handlers: map<nat, Handler>)

  const EMPTY := Server(Pool([], 0, {}, map[], map[]), map[], 0, {}, map[])

  datatype Step =
    | Arrives(id: nat, roomId: string, joining: Option<string>)
    | PoolReady(id: nat, routerClosed: bool)
    | RouterMade(id: nat)
    | Fails(id: nat)
    | Finishes(id: nat)
    | Leaves(roomId: string, peerId: string)
    | WorkerStarts
    | WorkerReady(worker: WorkerId)
    | WorkerCloses(worker: WorkerId)
    | WorkerDies(worker: WorkerId)

  function Joined(s: Pool): set<(string, string)> {
    set r, p | r in s.roomPeers && p in s.roomPeers[r] :: (r, p)
  }

  /** The checks made once, before any wait. */
  predicate RoomCapacityForJoin(s: Server, limits: Limits, roomId: string, peerId: string) {
    peerId in PeersOf(s.pool, roomId) ||
    (&& (roomId in s.routers || |s.routers| < limits.rooms)
     && (roomId in s.pool.roomPeers ==> |PeersOf(s.pool, roomId)| < limits.peersPerRoom)
     && |Joined(s.pool)| < limits.totalPeers
     && Fits(s.pool, roomId, peerId, limits.peersPerWorker))
  }

  function RoomsClosed(s: Server, rooms: set<string>): Server {
    s.(pool := s.pool.(roomPeers := s.pool.roomPeers - rooms, workerByRoom := s.pool.workerByRoom - rooms),
       routers := s.routers - rooms)
  }

  predicate HasPoolWorker(s: Pool, roomId: string) {
    roomId in s.workerByRoom && s.workerByRoom[roomId] in s.workers
  }

  /** A live router whose room has no pool worker is forgotten, and its room's assignment with it. */
  function Unrouted(s: Server, roomId: string, routerClosed: bool): (s1: Server)
    ensures s1.handlers == s.handlers
  {
    if roomId in s.routers && !routerClosed && !HasPoolWorker(s.pool, roomId)
    then s.(routers := s.routers - {roomId}, pool := s.pool.(workerByRoom := s.pool.workerByRoom - {roomId}))
    else s
  }

  function Suspended(s: Server, id: nat, stage: Stage): Server
    requires id in s.handlers
  {
    s.(handlers := s.handlers[id := s.handlers[id].(stage := stage)])
  }

  function Ended(s: Server, id: nat): Server {
    s.(handlers := s.handlers - {id})
  }

  /** After the pool is ready: reuse the router, or keep the room's worker, or pick one, or give up. */
  ghost predicate Placed(s: Server, id: nat, routerClosed: bool, cap: nat, s': Server)
    requires id in s.handlers
  {
    var roomId := s.handlers[id].roomId;
    var s1 := Unrouted(s, roomId, routerClosed);
    if roomId in s.routers && !routerClosed && HasPoolWorker(s.pool, roomId) then s' == Suspended(s, id, RouterReady)
    else if HasPoolWorker(s1.pool, roomId) then s' == Suspended(s1, id, AwaitsRouter(s1.pool.workerByRoom[roomId]))
    else Picked(s1, id, roomId, cap, s')
  }

  ghost predicate Picked(s: Server, id: nat, roomId: string, cap: nat, s': Server)
    requires id in s.handlers
  {
    if forall j :: !Eligible(s.pool, roomId, j, cap) then s' == Ended(s, id)
    else
      s.pool.cursor < |s.pool.workers| &&
      exists j: nat :: j < |s.pool.workers| && IsPick(s.pool, roomId, cap, j)
                  && s' == Suspended(s.(pool := Assigned(s.pool, roomId, j)), id, AwaitsRouter(s.pool.workers[j]))
  }

  function Left(s: Server, roomId: string, peerId: string): Server {
    if roomId !in s.pool.roomPeers then s
    else
      var remaining := s.pool.roomPeers[roomId] - {peerId};
      if remaining == {} then RoomsClosed(s, {roomId})
      else s.(pool := s.pool.(roomPeers := s.pool.roomPeers[roomId := remaining]))
  }

  /** The `died` handler: out of the pool first, then the rooms whose routers it hosted. */
  function Died(s: Server, w: WorkerId): Server {
    var affected := set r | r in s.routers && s.routers[r] == w;
    RoomsClosed(s.(pool := Without(s.pool.(closed := s.pool.closed + {w}), {w})), affected)
  }

  function Finished(s: Server, id: nat, cap: nat): Server
    requires id in s.handlers
  {
    var h := s.handlers[id];
    if h.joining.Some? && Fits(s.pool, h.roomId, h.joining.value, cap)
    then Ended(s.(pool := WithPeer(s.pool, h.roomId, h.joining.value)), id)
    else Ended(s, id)
  }

  ghost predicate Steps(s: Server, limits: Limits, step: Step, s': Server) {
    match step
    case Arrives(id, roomId, joining) =>
      id !in s.handlers &&
      if joining.Some? && !RoomCapacityForJoin(s, limits, roomId, joining.value) then s' == s
      else s' == s.(pool := Without(s.pool, s.pool.closed), handlers := s.handlers[id := Handler(roomId, joining, AwaitsPool)])
    case PoolReady(id, routerClosed) =>
      id in s.handlers && s.handlers[id].stage.AwaitsPool? && Placed(s, id, routerClosed, limits.peersPerWorker, s')
    case RouterMade(id) =>
      && id in s.handlers && s.handlers[id].stage.AwaitsRouter?
      && s' == Suspended(s, id, RouterReady).(routers := s.routers[s.handlers[id].roomId := s.handlers[id].stage.worker])
    case Fails(id) => id in s.handlers && !s.handlers[id].stage.RouterReady? && s' == Ended(s, id)
    case Finishes(id) =>
      id in s.handlers && s.handlers[id].stage.RouterReady? && s' == Finished(s, id, limits.peersPerWorker)
    case Leaves(roomId, peerId) => s' == Left(s, roomId, peerId)
    case WorkerStarts => s' == s.(serial := s.serial + 1, starting := s.starting + {s.serial + 1})
    case WorkerReady(w) =>
      w in s.starting && s' == s.(starting := s.starting - {w}, pool := s.pool.(workers := s.pool.workers + [w]))
    case WorkerCloses(w) => w <= s.serial && s' == s.(pool := s.pool.(closed := s.pool.closed + {w}))
    case WorkerDies(w) => w <= s.serial && s' == Died(s, w)
  }

  // ---- What every step keeps ----

  /** Ids come from the serial number, and a room is assigned only to a worker that has been in the pool. */
  ghost predicate IdsSound(s: Server) {
    && (forall w :: w in s.starting ==> w <= s.serial && w !in s.pool.workers)
    && (forall w :: w in s.pool.workers ==> w <= s.serial)
    && (forall r :: r in s.pool.workerByRoom ==> s.pool.workerByRoom[r] <= s.serial && s.pool.workerByRoom[r] !in s.starting)
    && (forall i, j :: 0 <= i < j < |s.pool.workers| ==> s.pool.workers[i] != s.pool.workers[j])
    && (s.pool.workers != [] ==> s.pool.cursor < |s.pool.workers|)
    && (s.pool.workers == [] ==> s.pool.cursor == 0)
    && (forall w :: w in s.pool.closed ==> w <= s.serial)
  }

  ghost predicate Sound(s: Server, cap: nat) {
    IdsSound(s) && WithinCap(s.pool, cap)
  }

  lemma WithoutSound(s: Server, gone: set<WorkerId>, cap: nat)
    requires Sound(s, cap)
    ensures Sound(s.(pool := Without(s.pool, gone)), cap)
  {
    FewerWithinCap(s.pool, Without(s.pool, gone), cap);
  }

  lemma RoomsClosedSound(s: Server, rooms: set<string>, cap: nat)
    requires Sound(s, cap)
    ensures Sound(RoomsClosed(s, rooms), cap)
  {
    FewerWithinCap(s.pool, RoomsClosed(s, rooms).pool, cap);
  }

  lemma ClosedSound(s: Server, w: WorkerId, cap: nat)
    requires Sound(s, cap) && w <= s.serial
    ensures Sound(s.(pool := s.pool.(closed := s.pool.closed + {w})), cap)
  {
    FewerWithinCap(s.pool, s.pool.(closed := s.pool.closed + {w}), cap);
  }

  lemma DiedSound(s: Server, w: WorkerId, cap: nat)
    requires Sound(s, cap) && w <= s.serial
    ensures Sound(Died(s, w), cap)
  {
    var s1 := s.(pool := s.pool.(closed := s.pool.closed + {w}));
    var s2 := s1.(pool := Without(s1.pool, {w}));
    hide Sound, Without;
    ClosedSound(s, w, cap);
    WithoutSound(s1, {w}, cap);
    RoomsClosedSound(s2, (set r | r in s.routers && s.routers[r] == w), cap);
  }

  lemma LeftSound(s: Server, roomId: string, peerId: string, cap: nat)
    requires Sound(s, cap)
    ensures Sound(Left(s, roomId, peerId), cap)
  {
    if roomId in s.pool.roomPeers && s.pool.roomPeers[roomId] - {peerId} == {} {
      RoomsClosedSound(s, {roomId}, cap);
    } else {
      FewerWithinCap(s.pool, Left(s, roomId, peerId).pool, cap);
    }
  }

  lemma UnroutedSound(s: Server, roomId: string, routerClosed: bool, cap: nat)
    requires Sound(s, cap)
    ensures Sound(Unrouted(s, roomId, routerClosed), cap)
  {
    FewerWithinCap(s.pool, Unrouted(s, roomId, routerClosed).pool, cap);
  }

  lemma AssignedSound(s: Server, roomId: string, cap: nat, j: nat)
    requires Sound(s, cap) && Eligible(s.pool, roomId, j, cap) && !HasPoolWorker(s.pool, roomId)
    ensures Sound(s.(pool := Assigned(s.pool, roomId, j)), cap)
  {
    assert j < |s.pool.workers|;
    AssignmentWithinCap(s.pool, roomId, cap, j);
    hide WithinCap, Eligible;
    NextIndex(j, |s.pool.workers|);
    var next := s.(pool := Assigned(s.pool, roomId, j));
    assert s.pool.workers[j] in s.pool.workers;
    assert next.pool.workers == s.pool.workers && next.pool.cursor < |next.pool.workers|;
  }

  lemma PickIsEligible(s: Pool, roomId: string, cap: nat, j: nat)
    requires s.cursor < |s.workers| && IsPick(s, roomId, cap, j)
    ensures Eligible(s, roomId, j, cap)
  {
  }

  lemma HandlersDoNotMatter(s: Server, handlers: map<nat, Handler>, cap: nat)
    requires Sound(s, cap)
    ensures Sound(s.(handlers := handlers), cap)
  {
  }

  lemma PickedSound(s: Server, id: nat, roomId: string, cap: nat, s': Server)
    requires Sound(s, cap) && id in s.handlers && Picked(s, id, roomId, cap, s') && !HasPoolWorker(s.pool, roomId)
    ensures Sound(s', cap)
  {
    hide Sound, IsPick, Eligible, Assigned;
    if forall j :: !Eligible(s.pool, roomId, j, cap) {
      HandlersDoNotMatter(s, s'.handlers, cap);
    } else {
      var j: nat :| j < |s.pool.workers| && IsPick(s.pool, roomId, cap, j)
               && s' == Suspended(s.(pool := Assigned(s.pool, roomId, j)), id, AwaitsRouter(s.pool.workers[j]));
      PickIsEligible(s.pool, roomId, cap, j);
      AssignedSound(s, roomId, cap, j);
      HandlersDoNotMatter(s.(pool := Assigned(s.pool, roomId, j)), s'.handlers, cap);
    }
  }

  lemma PlacedSound(s: Server, id: nat, routerClosed: bool, cap: nat, s': Server)
    requires Sound(s, cap) && id in s.handlers && Placed(s, id, routerClosed, cap, s')
    ensures Sound(s', cap)
  {
    hide WithinCap, Picked, Unrouted;
    var roomId := s.handlers[id].roomId;
    UnroutedSound(s, roomId, routerClosed, cap);
    var s1 := Unrouted(s, roomId, routerClosed);
    if Picked(s1, id, roomId, cap, s') && !HasPoolWorker(s1.pool, roomId) {
      PickedSound(s1, id, roomId, cap, s');
    }
  }

  lemma NextIndex(j: nat, n: nat)
    requires j < n
    ensures (j + 1) % n < n
  {
  }

  /** A worker that has never been in the pool serves no room, so it joins with no load. */
  lemma WorkerReadySound(s: Server, w: WorkerId, cap: nat)
    requires Sound(s, cap) && w in s.starting
    ensures Sound(s.(starting := s.starting - {w}, pool := s.pool.(workers := s.pool.workers + [w])), cap)
  {
    var next := s.pool.(workers := s.pool.workers + [w]);
    forall v | Up(next, v)
      ensures |Served(next, v)| <= cap
    {
      assert RoomsOf(next, v) == RoomsOf(s.pool, v);
      assert Served(next, v) == Served(s.pool, v);
      if v == w {
        assert RoomsOf(s.pool, w) == {};
        assert Served(s.pool, w) == {};
      } else {
        assert Up(s.pool, v);
      }
    }
  }

  lemma FinishedSound(s: Server, id: nat, cap: nat)
    requires Sound(s, cap) && id in s.handlers
    ensures Sound(Finished(s, id, cap), cap)
  {
    var h := s.handlers[id];
    if h.joining.Some? && Fits(s.pool, h.roomId, h.joining.value, cap) {
      PeerAddedWithinCap(s.pool, h.roomId, h.joining.value, cap);
    }
  }

  lemma StepSound(s: Server, limits: Limits, step: Step, s': Server)
    requires Sound(s, limits.peersPerWorker) && Steps(s, limits, step, s')
    ensures Sound(s', limits.peersPerWorker)
  {
    hide Without, Died, Left, Finished, Placed, WithinCap, RoomCapacityForJoin;
    var cap := limits.peersPerWorker;
    match step {
      case Arrives(_, _, _) => WithoutSound(s, s.pool.closed, cap);
      case PoolReady(id, routerClosed) => PlacedSound(s, id, routerClosed, cap, s');
      case Finishes(id) => FinishedSound(s, id, cap);
      case Leaves(roomId, peerId) => LeftSound(s, roomId, peerId, cap);
      case WorkerReady(w) => WorkerReadySound(s, w, cap);
      case WorkerCloses(w) => ClosedSound(s, w, cap);
      case WorkerDies(w) => DiedSound(s, w, cap);
      case _ =>
    }
  }

  // ---- Runs ----

  datatype Moment = Moment(before: Server, step: Step, after: Server)

  function ServerAfter(run: seq<Moment>): Server {
    if run == [] then EMPTY else run[|run| - 1].after
  }

  ghost predicate IsRun(run: seq<Moment>, limits: Limits) {
    run == [] ||
    (var last := run[|run| - 1];
     && IsRun(run[..|run| - 1], limits)
     && last.before == ServerAfter(run[..|run| - 1])
     && Steps(last.before, limits, last.step, last.after))
  }

  lemma {:induction false} RunSound(run: seq<Moment>, limits: Limits)
    requires IsRun(run, limits)
    ensures Sound(ServerAfter(run), limits.peersPerWorker)
  {
    if run == [] {
      assert ServerAfter(run).pool.workers == [];
    } else {
      hide Sound, Steps;
      var last := run[|run| - 1];
      RunSound(run[..|run| - 1], limits);
      StepSound(last.before, limits, last.step, last.after);
    }
  }

  /**
   However joins, departures and worker births and deaths interleave, no worker that is up ever serves
   more peers than the limit.
   */
  lemma WorkerLimitHolds(run: seq<Moment>, limits: Limits)
    requires IsRun(run, limits)
    ensures forall w :: Up(ServerAfter(run).pool, w) ==> |Served(ServerAfter(run).pool, w)| <= limits.peersPerWorker
  {
    RunSound(run, limits);
  }

  // ---- The limits checked only before the waits ----

  lemma Extended(run: seq<Moment>, limits: Limits, step: Step, next: Server) returns (longer: seq<Moment>)
    requires IsRun(run, limits) && Steps(ServerAfter(run), limits, step, next)
    ensures IsRun(longer, limits) && ServerAfter(longer) == next && longer == run + [Moment(ServerAfter(run), step, next)]
  {
    hide Steps;
    longer := run + [Moment(ServerAfter(run), step, next)];
    assert longer[..|longer| - 1] == run;
  }

  /** Worker 1 is up and two joins of room "r" are under way. */
  function TwoJoins(routers: map<string, WorkerId>, workerByRoom: map<string, WorkerId>, roomPeers: map<string, set<string>>,
                    handlers: map<nat, Handler>): Server
  {
    Server(Pool([1], 0, {}, workerByRoom, roomPeers), routers, 1, {}, handlers)
  }

  lemma BothAdmitted(limits: Limits, s2: Server, s3: Server, s4: Server)
    requires limits.rooms > 0 && limits.totalPeers > 0
    requires s2 == TwoJoins(map[], map[], map[], map[])
    requires s3 == TwoJoins(map[], map[], map[], map[0 := Handler("r", Some("a"), AwaitsPool)])
    requires s4 == TwoJoins(map[], map[], map[], map[0 := Handler("r", Some("a"), AwaitsPool), 1 := Handler("r", Some("b"), AwaitsPool)])
    ensures Steps(s2, limits, Arrives(0, "r", Some("a")), s3)
    ensures Steps(s3, limits, Arrives(1, "r", Some("b")), s4)
  {
  }

  lemma FirstPlaced(limits: Limits, s: Server, next: Server)
    requires limits.peersPerWorker > 0 && "r" !in s.pool.workerByRoom && "r" !in s.routers
    requires s.pool.workers == [1] && s.pool.cursor == 0 && s.pool.closed == {} && s.pool.roomPeers == map[]
    requires 0 in s.handlers && s.handlers[0].roomId == "r" && s.handlers[0].stage.AwaitsPool?
    requires next == Suspended(s.(pool := s.pool.(workerByRoom := s.pool.workerByRoom["r" := 1])), 0, AwaitsRouter(1))
    ensures Steps(s, limits, PoolReady(0, false), next)
  {
    assert Served(s.pool, 1) == {};
    assert Eligible(s.pool, "r", 0, limits.peersPerWorker);
    assert IsPick(s.pool, "r", limits.peersPerWorker, 0);
    assert Assigned(s.pool, "r", 0) == next.pool;
  }

  lemma FinishAdds(limits: Limits, s: Server, id: nat, next: Server)
    requires id in s.handlers && s.handlers[id].joining.Some? && s.handlers[id].stage.RouterReady?
    requires s.pool.workerByRoom == map["r" := 1] && s.handlers[id].roomId == "r"
    requires |PeersOf(s.pool, "r")| + 1 <= limits.peersPerWorker
    requires next == s.(pool := WithPeer(s.pool, "r", s.handlers[id].joining.value), handlers := s.handlers - {id})
    ensures Steps(s, limits, Finishes(id), next)
  {
    assert Served(s.pool, 1) == Tagged("r", PeersOf(s.pool, "r"));
    TaggedSize("r", PeersOf(s.pool, "r"));
  }

  /** Two joins of an empty room, each admitted while nobody is in it, both finish. */
  lemma BothJoin(limits: Limits) returns (run: seq<Moment>)
    requires limits.rooms > 0 && limits.totalPeers > 0 && limits.peersPerWorker > 1
    ensures IsRun(run, limits) && PeersOf(ServerAfter(run).pool, "r") == {"a", "b"}
  {
    hide Steps, IsRun, ServerAfter;
    run := JoinsAdmitted(limits);
    run := JoinsReady(limits, run);
    var ready := ServerAfter(run);
    var half := ready.(pool := WithPeer(ready.pool, "r", "a"), handlers := ready.handlers - {0});
    FinishAdds(limits, ready, 0, half);
    run := Extended(run, limits, Finishes(0), half);
    assert PeersOf(half.pool, "r") == {"a"};
    var full := half.(pool := WithPeer(half.pool, "r", "b"), handlers := half.handlers - {1});
    FinishAdds(limits, half, 1, full);
    run := Extended(run, limits, Finishes(1), full);
    assert PeersOf(full.pool, "r") == {"a", "b"};
  }

  /** The limit per room is checked only before the waits, and interleaving breaks it. */
  lemma RoomLimitDoesNotHold(limits: Limits) returns (run: seq<Moment>)
    requires limits.rooms > 0 && limits.peersPerRoom == 1 && limits.totalPeers > 0 && limits.peersPerWorker > 1
    ensures IsRun(run, limits) && |PeersOf(ServerAfter(run).pool, "r")| > limits.peersPerRoom
  {
    run := BothJoin(limits);
  }

  /** So is the limit on all peers together. */
  lemma TotalLimitDoesNotHold(limits: Limits) returns (run: seq<Moment>)
    requires limits.rooms > 0 && limits.totalPeers == 1 && limits.peersPerWorker > 1
    ensures IsRun(run, limits) && |Joined(ServerAfter(run).pool)| > limits.totalPeers
  {
    run := BothJoin(limits);
    var pool := ServerAfter(run).pool;
    TaggedSize("r", PeersOf(pool, "r"));
    assert Tagged("r", PeersOf(pool, "r")) <= Joined(pool);
    SubsetSize(Tagged("r", PeersOf(pool, "r")), Joined(pool));
  }

  lemma JoinsAdmitted(limits: Limits) returns (run: seq<Moment>)
    requires limits.rooms > 0 && limits.totalPeers > 0
    ensures IsRun(run, limits)
    ensures ServerAfter(run) == TwoJoins(map[], map[], map[], map[0 := Handler("r", Some("a"), AwaitsPool), 1 := Handler("r", Some("b"), AwaitsPool)])
  {
    var s1 := EMPTY.(serial := 1, starting := {1});
    var s2 := TwoJoins(map[], map[], map[], map[]);
    var s3 := TwoJoins(map[], map[], map[], map[0 := Handler("r", Some("a"), AwaitsPool)]);
    var s4 := TwoJoins(map[], map[], map[], map[0 := Handler("r", Some("a"), AwaitsPool), 1 := Handler("r", Some("b"), AwaitsPool)]);
    Opening(limits, s1, s2);
    BothAdmitted(limits, s2, s3, s4);
    run := [];
    assert IsRun(run, limits) && ServerAfter(run) == EMPTY;
    hide Steps, IsRun, ServerAfter;
    run := Extended(run, limits, WorkerStarts, s1);
    run := Extended(run, limits, WorkerReady(1), s2);
    run := Extended(run, limits, Arrives(0, "r", Some("a")), s3);
    run := Extended(run, limits, Arrives(1, "r", Some("b")), s4);
  }

  lemma JoinsReady(limits: Limits, start: seq<Moment>) returns (run: seq<Moment>)
    requires limits.peersPerWorker > 1 && IsRun(start, limits)
    requires ServerAfter(start) == TwoJoins(map[], map[], map[], map[0 := Handler("r", Some("a"), AwaitsPool), 1 := Handler("r", Some("b"), AwaitsPool)])
    ensures IsRun(run, limits)
    ensures ServerAfter(run) == TwoJoins(map["r" := 1], map["r" := 1], map[],
                                         map[0 := Handler("r", Some("a"), RouterReady), 1 := Handler("r", Some("b"), RouterReady)])
  {
    hide IsRun, ServerAfter, Steps;
    var s4 := ServerAfter(start);
    var s5 := Suspended(s4.(pool := s4.pool.(workerByRoom := s4.pool.workerByRoom["r" := 1])), 0, AwaitsRouter(1));
    FirstPlaced(limits, s4, s5);
    var s6 := Suspended(s5, 0, RouterReady).(routers := s5.routers["r" := 1]);
    var s7 := Suspended(s6, 1, RouterReady);
    RouterReused(limits, s5, s6, s7);
    run := Extended(start, limits, PoolReady(0, false), s5);
    run := Extended(run, limits, RouterMade(0), s6);
    run := Extended(run, limits, PoolReady(1, false), s7);
  }

  lemma Opening(limits: Limits, s1: Server, s2: Server)
    requires s1 == EMPTY.(serial := 1, starting := {1}) && s2 == TwoJoins(map[], map[], map[], map[])
    ensures Steps(EMPTY, limits, WorkerStarts, s1) && Steps(s1, limits, WorkerReady(1), s2)
  {
  }

  lemma RouterReused(limits: Limits, s5: Server, s6: Server, s7: Server)
    requires 0 in s5.handlers && s5.handlers[0] == Handler("r", Some("a"), AwaitsRouter(1))
    requires s6 == Suspended(s5, 0, RouterReady).(routers := s5.routers["r" := 1])
    requires 1 in s6.handlers && s6.handlers[1] == Handler("r", Some("b"), AwaitsPool) && HasPoolWorker(s6.pool, "r")
    requires s7 == Suspended(s6, 1, RouterReady)
    ensures Steps(s5, limits, RouterMade(0), s6) && Steps(s6, limits, PoolReady(1, false), s7)
  {
  }

  /** Exactly when the end of a join respects the room's limit: the peer was there already, or there was room left. */
  lemma RoomLimitKeptIff(s: Server, id: nat, limits: Limits)
    requires id in s.handlers && s.handlers[id].joining.Some?
    requires |PeersOf(s.pool, s.handlers[id].roomId)| <= limits.peersPerRoom
    ensures var h := s.handlers[id];
            |PeersOf(Finished(s, id, limits.peersPerWorker).pool, h.roomId)| <= limits.peersPerRoom <==>
            || h.joining.value in PeersOf(s.pool, h.roomId)
            || !Fits(s.pool, h.roomId, h.joining.value, limits.peersPerWorker)
            || |PeersOf(s.pool, h.roomId)| < limits.peersPerRoom
  {
  }
}
