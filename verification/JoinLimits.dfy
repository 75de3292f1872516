/**
 The limits per room and in total, which a join checks only when it arrives. Joins that are under way count
 as much as peers that are there: with them, the limits are kept exactly.
 */
module JoinLimits {
  import opened MediaTypes
  import opened WorkerPool
  import opened InterleavedJoins

  /** Everyone a suspended join will add, by room. */
  function Coming(s: Server): set<(string, string)> {
    set id | id in s.handlers && s.handlers[id].joining.Some? :: (s.handlers[id].roomId, s.handlers[id].joining.value)
  }

  function Expected(s: Server): set<(string, string)> {
    Joined(s.pool) + Coming(s)
  }

  function ComingTo(s: Server, roomId: string): set<string> {
    set id | id in s.handlers && s.handlers[id].roomId == roomId && s.handlers[id].joining.Some? :: s.handlers[id].joining.value
  }

  /** Who is in the room, and who is on the way. */
  function ExpectedIn(s: Server, roomId: string): set<string> {
    PeersOf(s.pool, roomId) + ComingTo(s, roomId)
  }

  lemma ExpectedSplits(s: Server, roomId: string, peerId: string)
    ensures peerId in ExpectedIn(s, roomId) <==> (roomId, peerId) in Expected(s)
  {
    if (roomId, peerId) in Coming(s) {
      var id :| id in s.handlers && s.handlers[id].joining.Some? && (s.handlers[id].roomId, s.handlers[id].joining.value) == (roomId, peerId);
      assert peerId in ComingTo(s, roomId);
    }
    if peerId in ComingTo(s, roomId) {
      var id :| id in s.handlers && s.handlers[id].roomId == roomId && s.handlers[id].joining.Some? && s.handlers[id].joining.value == peerId;
      assert (roomId, peerId) in Coming(s);
    }
  }

  /** A join that passes the checks made on arrival. */
  predicate Admitted(s: Server, step: Step, s': Server) {
    step.Arrives? && step.joining.Some? && step.id in s'.handlers
  }

  function NewlyExpected(s: Server, step: Step, s': Server): set<(string, string)> {
    if Admitted(s, step, s') then {(step.roomId, step.joining.value)} else {}
  }

  // ---- One step ----

  lemma SuspendedExpected(s: Server, id: nat, stage: Stage)
    requires id in s.handlers
    ensures Coming(Suspended(s, id, stage)) == Coming(s)
  {
    var next := Suspended(s, id, stage);
    assert forall i :: i in s.handlers <==> i in next.handlers;
    assert forall i :: i in s.handlers ==> next.handlers[i].roomId == s.handlers[i].roomId && next.handlers[i].joining == s.handlers[i].joining;
  }

  lemma EndedExpected(s: Server, id: nat)
    ensures Coming(Ended(s, id)) <= Coming(s)
  {
  }

  lemma PlacedExpected(s: Server, id: nat, routerClosed: bool, cap: nat, s': Server)
    requires id in s.handlers && Placed(s, id, routerClosed, cap, s')
    ensures Coming(s') <= Coming(s) && s'.pool.roomPeers == s.pool.roomPeers
  {
    hide IsPick, Eligible;
    assert s'.handlers == s.handlers - {id} || (id in s'.handlers && s'.handlers == s.handlers[id := s.handlers[id].(stage := s'.handlers[id].stage)]);
    if s'.handlers == s.handlers - {id} {
      EndedExpected(s, id);
      assert Coming(s') == Coming(Ended(s, id));
    } else {
      SuspendedExpected(s, id, s'.handlers[id].stage);
      assert Coming(s') == Coming(Suspended(s, id, s'.handlers[id].stage));
    }
  }

  lemma FinishedExpected(s: Server, id: nat, cap: nat)
    requires id in s.handlers
    ensures Expected(Finished(s, id, cap)) <= Expected(s)
  {
    EndedExpected(s, id);
    var h, next := s.handlers[id], Finished(s, id, cap);
    assert Coming(next) == Coming(Ended(s, id));
    if h.joining.Some? {
      assert (h.roomId, h.joining.value) in Coming(s);
    }
    hide Coming, Fits;
  }

  lemma ArrivedExpected(s: Server, limits: Limits, step: Step, s': Server)
    requires step.Arrives? && Steps(s, limits, step, s')
    ensures Expected(s') <= Expected(s) + NewlyExpected(s, step, s')
    ensures Admitted(s, step, s') ==> Expected(s') == Expected(s) + NewlyExpected(s, step, s')
    ensures s'.pool.roomPeers == s.pool.roomPeers
  {
    hide RoomCapacityForJoin;
    if Admitted(s, step, s') {
      assert forall id :: id in s.handlers ==> id in s'.handlers && s'.handlers[id] == s.handlers[id];
      assert s'.handlers[step.id].joining == step.joining;
    }
  }

  lemma LeftExpected(s: Server, next: Server)
    requires next.handlers == s.handlers && forall r :: r in next.pool.roomPeers ==> r in s.pool.roomPeers && next.pool.roomPeers[r] <= s.pool.roomPeers[r]
    ensures Expected(next) <= Expected(s)
  {
  }

  /** Only an admitted join brings in somebody new; everyone else was there or on the way before. */
  lemma StepExpected(s: Server, limits: Limits, step: Step, s': Server)
    requires Steps(s, limits, step, s')
    ensures Expected(s') <= Expected(s) + NewlyExpected(s, step, s')
  {
    hide RoomCapacityForJoin, Placed, Finished;
    match step {
      case PoolReady(id, routerClosed) => PlacedExpected(s, id, routerClosed, limits.peersPerWorker, s');
      case RouterMade(id) => SuspendedExpected(s, id, RouterReady);
      case Fails(id) => EndedExpected(s, id);
      case Finishes(id) => FinishedExpected(s, id, limits.peersPerWorker);
      case Arrives(_, _, _) => ArrivedExpected(s, limits, step, s');
      case _ => LeftExpected(s, s');
    }
  }

  // ---- What each step comes to, in numbers ----

  /** The worker that serves a room is up and serves as many as it may. */
  ghost predicate WorkerFull(s: Server, roomId: string, cap: nat) {
    && roomId in s.pool.workerByRoom
    && s.pool.workerByRoom[roomId] in s.pool.workers
    && s.pool.workerByRoom[roomId] !in s.pool.closed
    && |Served(s.pool, s.pool.workerByRoom[roomId])| >= cap
  }

  /**
   A newcomer is turned away exactly if the room is full, or all rooms together are, or the room would need a
   router and there are as many as there may be, or the room's worker is full; then nothing changes. A peer
   that is in the room already always gets its handler.
   */
  lemma JoinTurnedAwayIff(s: Server, limits: Limits, id: nat, roomId: string, peerId: string, s': Server)
    requires Steps(s, limits, Arrives(id, roomId, Some(peerId)), s')
    ensures peerId !in PeersOf(s.pool, roomId) ==>
              (id !in s'.handlers <==>
               || (roomId in s.pool.roomPeers && |s.pool.roomPeers[roomId]| >= limits.peersPerRoom)
               || |Joined(s.pool)| >= limits.totalPeers
               || (roomId !in s.routers && |s.routers| >= limits.rooms)
               || WorkerFull(s, roomId, limits.peersPerWorker))
    ensures peerId in PeersOf(s.pool, roomId) ==> id in s'.handlers
    ensures id !in s'.handlers ==> s' == s
    ensures id in s'.handlers ==>
              && s'.handlers == s.handlers[id := Handler(roomId, Some(peerId), AwaitsPool)]
              && s'.routers == s.routers && s'.pool.roomPeers == s.pool.roomPeers && s'.pool.workerByRoom == s.pool.workerByRoom
              && forall w :: w in s'.pool.workers <==> w in s.pool.workers && w !in s.pool.closed
  {
    hide Served, Joined;
  }

  /** A join that has its router adds its peer, and nothing else, unless the worker is full; either way it is over. */
  lemma JoinEnds(s: Server, limits: Limits, id: nat, s': Server)
    requires Steps(s, limits, Finishes(id), s') && s.handlers[id].joining.Some?
    ensures var h := s.handlers[id];
            && s'.handlers == s.handlers - {id} && s'.routers == s.routers && s'.pool.workerByRoom == s.pool.workerByRoom
            && PeersOf(s'.pool, h.roomId) == PeersOf(s.pool, h.roomId)
                                              + (if WorkerFull(s, h.roomId, limits.peersPerWorker) then {} else {h.joining.value})
            && forall r :: r != h.roomId ==> PeersOf(s'.pool, r) == PeersOf(s.pool, r)
  {
    hide Served;
  }

  /** Who leaves is gone, everybody else stays, and an emptied room goes with its router and its worker. */
  lemma LeaverIsGone(s: Server, limits: Limits, roomId: string, peerId: string, s': Server)
    requires Steps(s, limits, Leaves(roomId, peerId), s')
    ensures forall r :: PeersOf(s'.pool, r) == PeersOf(s.pool, r) - if r == roomId then {peerId} else {}
    ensures roomId in s.pool.roomPeers && s.pool.roomPeers[roomId] <= {peerId} ==>
              roomId !in s'.pool.roomPeers && roomId !in s'.routers && roomId !in s'.pool.workerByRoom
    ensures forall r :: r != roomId ==>
              (r in s'.routers <==> r in s.routers) && (r in s'.pool.workerByRoom <==> r in s.pool.workerByRoom)
    ensures s'.handlers == s.handlers && s'.pool.workers == s.pool.workers
  {
  }

  /** A worker that dies takes along exactly the rooms whose routers it hosted. */
  lemma DeadWorkersRooms(s: Server, limits: Limits, w: WorkerId, s': Server)
    requires Steps(s, limits, WorkerDies(w), s')
    ensures forall v :: v in s'.pool.workers <==> v in s.pool.workers && v != w
    ensures forall r :: r in s'.routers <==> r in s.routers && s.routers[r] != w
    ensures forall r :: PeersOf(s'.pool, r) == if r in s.routers && s.routers[r] == w then {} else PeersOf(s.pool, r)
    ensures forall r :: r in s'.pool.workerByRoom <==> r in s.pool.workerByRoom && !(r in s.routers && s.routers[r] == w)
  {
  }

  /** A router that has been made is recorded with the worker it was made on, and its join may end. */
  lemma RouterRecorded(s: Server, limits: Limits, id: nat, s': Server)
    requires Steps(s, limits, RouterMade(id), s')
    ensures s'.routers == s.routers[s.handlers[id].roomId := s.handlers[id].stage.worker] && s'.pool == s.pool
    ensures s'.handlers == s.handlers[id := Handler(s.handlers[id].roomId, s.handlers[id].joining, RouterReady)]
  {
  }

  /** A worker that is up and could take the room with everybody in it. */
  ghost predicate CouldTake(s: Server, roomId: string, cap: nat, w: WorkerId) {
    w in s.pool.workers && w !in s.pool.closed && |Served(s.pool, w)| + |PeersOf(s.pool, roomId)| <= cap
  }

  /**
   After the wait for the pool: a live router on a pool worker is reused; otherwise the room keeps its worker
   if that is in the pool, or gets one that serves fewest; if none could take it, the join is over.
   */
  lemma RoomPlaced(s: Server, limits: Limits, id: nat, routerClosed: bool, s': Server)
    requires Steps(s, limits, PoolReady(id, routerClosed), s')
    ensures var roomId := s.handlers[id].roomId;
            var kept := roomId in s.pool.workerByRoom && s.pool.workerByRoom[roomId] in s.pool.workers;
            && (kept && roomId in s.routers && !routerClosed ==> s' == s.(handlers := s'.handlers) && id in s'.handlers && s'.handlers[id].stage == RouterReady)
            && (kept && !(roomId in s.routers && !routerClosed) ==>
                  id in s'.handlers && s'.handlers[id].stage == AwaitsRouter(s.pool.workerByRoom[roomId]))
            && (!kept && roomId in s.routers && !routerClosed ==> roomId !in s'.routers)
            && (!kept ==> (id in s'.handlers <==> exists w :: CouldTake(s, roomId, limits.peersPerWorker, w)))
            && (!kept && id in s'.handlers ==>
                  && s'.handlers[id].stage.AwaitsRouter?
                  && CouldTake(s, roomId, limits.peersPerWorker, s'.handlers[id].stage.worker)
                  && (forall w :: CouldTake(s, roomId, limits.peersPerWorker, w) ==>
                        |Served(s.pool, s'.handlers[id].stage.worker)| <= |Served(s.pool, w)|)
                  && roomId in s'.pool.workerByRoom && s'.pool.workerByRoom[roomId] == s'.handlers[id].stage.worker)
  {
    var roomId := s.handlers[id].roomId;
    if !HasPoolWorker(s.pool, roomId) {
      var s1 := Unrouted(s, roomId, routerClosed);
      UnroutedServes(s, roomId, routerClosed);
      PickedTakes(s1, id, roomId, limits.peersPerWorker, s');
      assert forall w :: CouldTake(s1, roomId, limits.peersPerWorker, w) <==> CouldTake(s, roomId, limits.peersPerWorker, w);
    }
  }

  /** Forgetting an assignment to a worker outside the pool changes nobody's load. */
  lemma UnroutedServes(s: Server, roomId: string, routerClosed: bool)
    requires !HasPoolWorker(s.pool, roomId)
    ensures var s1 := Unrouted(s, roomId, routerClosed);
            && s1.pool.workers == s.pool.workers && s1.pool.closed == s.pool.closed && s1.pool.roomPeers == s.pool.roomPeers
            && s1.handlers == s.handlers && !HasPoolWorker(s1.pool, roomId)
            && forall w :: w in s.pool.workers ==> Served(s1.pool, w) == Served(s.pool, w)
  {
    var s1 := Unrouted(s, roomId, routerClosed);
    forall w | w in s.pool.workers ensures Served(s1.pool, w) == Served(s.pool, w) {
      assert RoomsOf(s1.pool, w) == RoomsOf(s.pool, w);
    }
  }

  lemma PickedTakes(s: Server, id: nat, roomId: string, cap: nat, s': Server)
    requires id in s.handlers && Picked(s, id, roomId, cap, s')
    ensures id in s'.handlers <==> exists w :: CouldTake(s, roomId, cap, w)
    ensures id in s'.handlers ==>
              && s'.handlers[id].stage.AwaitsRouter?
              && CouldTake(s, roomId, cap, s'.handlers[id].stage.worker)
              && (forall w :: CouldTake(s, roomId, cap, w) ==> |Served(s.pool, s'.handlers[id].stage.worker)| <= |Served(s.pool, w)|)
              && roomId in s'.pool.workerByRoom && s'.pool.workerByRoom[roomId] == s'.handlers[id].stage.worker
    ensures s'.routers == s.routers
  {
    hide Served, RoomsOf;
    if exists w :: CouldTake(s, roomId, cap, w) {
      var w :| CouldTake(s, roomId, cap, w);
      var j :| 0 <= j < |s.pool.workers| && s.pool.workers[j] == w;
      assert Eligible(s.pool, roomId, j, cap);
      forall v | CouldTake(s, roomId, cap, v)
        ensures |Served(s.pool, s'.handlers[id].stage.worker)| <= |Served(s.pool, v)|
      {
        var k :| 0 <= k < |s.pool.workers| && s.pool.workers[k] == v;
        assert Eligible(s.pool, roomId, k, cap);
      }
    } else {
      forall j: nat ensures !Eligible(s.pool, roomId, j, cap) {
        assert j < |s.pool.workers| ==> !CouldTake(s, roomId, cap, s.pool.workers[j]);
      }
    }
  }

  // ---- Runs in which every join looks ahead ----

  /** Every admitted join of the room has found space for itself and all that were on their way. */
  ghost predicate RoomGuarded(run: seq<Moment>, limits: Limits, roomId: string) {
    forall i :: 0 <= i < |run| && Admitted(run[i].before, run[i].step, run[i].after) && run[i].step.roomId == roomId ==>
      |ExpectedIn(run[i].before, roomId) + {run[i].step.joining.value}| <= limits.peersPerRoom
  }

  ghost predicate TotalGuarded(run: seq<Moment>, limits: Limits) {
    forall i :: 0 <= i < |run| && Admitted(run[i].before, run[i].step, run[i].after) ==>
      |Expected(run[i].before) + {(run[i].step.roomId, run[i].step.joining.value)}| <= limits.totalPeers
  }

  lemma StepExpectedIn(s: Server, limits: Limits, step: Step, s': Server, roomId: string)
    requires Steps(s, limits, step, s')
    ensures ExpectedIn(s', roomId) <= ExpectedIn(s, roomId) +
              if Admitted(s, step, s') && step.roomId == roomId then {step.joining.value} else {}
  {
    StepExpected(s, limits, step, s');
    hide Steps, ExpectedIn, Expected, Admitted;
    forall p | p in ExpectedIn(s', roomId)
      ensures p in ExpectedIn(s, roomId) || (Admitted(s, step, s') && step.roomId == roomId && p == step.joining.value)
    {
      ExpectedSplits(s', roomId, p);
      ExpectedSplits(s, roomId, p);
    }
  }

  /** Then neither the peers of the room nor those with the ones on their way ever exceed its limit. */
  lemma {:induction false} RoomLimitHolds(run: seq<Moment>, limits: Limits, roomId: string)
    requires IsRun(run, limits) && RoomGuarded(run, limits, roomId)
    ensures |ExpectedIn(ServerAfter(run), roomId)| <= limits.peersPerRoom
    ensures |PeersOf(ServerAfter(run).pool, roomId)| <= limits.peersPerRoom
  {
    var s' := ServerAfter(run);
    if run == [] {
      assert ExpectedIn(s', roomId) == {};
    } else {
      hide Steps, ExpectedIn, Admitted;
      var last := run[|run| - 1];
      RoomLimitHolds(run[..|run| - 1], limits, roomId);
      StepExpectedIn(last.before, limits, last.step, last.after, roomId);
      var bound := ExpectedIn(last.before, roomId) +
                   if Admitted(last.before, last.step, last.after) && last.step.roomId == roomId then {last.step.joining.value} else {};
      SubsetSize(ExpectedIn(s', roomId), bound);
      assert ExpectedIn(last.before, roomId) + {} == ExpectedIn(last.before, roomId);
    }
    InIsExpected(s', roomId);
    SubsetSize(PeersOf(s'.pool, roomId), ExpectedIn(s', roomId));
  }

  lemma InIsExpected(s: Server, roomId: string)
    ensures PeersOf(s.pool, roomId) <= ExpectedIn(s, roomId)
  {
  }

  lemma TotalStep(s: Server, limits: Limits, step: Step, s': Server)
    requires Steps(s, limits, step, s') && |Expected(s)| <= limits.totalPeers
    requires Admitted(s, step, s') ==> |Expected(s) + {(step.roomId, step.joining.value)}| <= limits.totalPeers
    ensures |Expected(s')| <= limits.totalPeers
  {
    StepExpected(s, limits, step, s');
    hide Steps, Expected, Admitted;
    SubsetSize(Expected(s'), Expected(s) + NewlyExpected(s, step, s'));
    assert Expected(s) + {} == Expected(s);
  }

  lemma {:induction false} TotalLimitHolds(run: seq<Moment>, limits: Limits)
    requires IsRun(run, limits) && TotalGuarded(run, limits)
    ensures |Expected(ServerAfter(run))| <= limits.totalPeers
    ensures |Joined(ServerAfter(run).pool)| <= limits.totalPeers
  {
    if run == [] {
      assert Expected(EMPTY) == {};
    } else {
      LastStep(run, limits);
      var earlier, last := run[..|run| - 1], run[|run| - 1];
      assert TotalGuarded(earlier, limits);
      hide Steps, Admitted, Expected, IsRun;
      TotalLimitHolds(earlier, limits);
      TotalStep(last.before, limits, last.step, last.after);
    }
    JoinedIsExpected(ServerAfter(run));
    SubsetSize(Joined(ServerAfter(run).pool), Expected(ServerAfter(run)));
  }

  lemma JoinedIsExpected(s: Server)
    ensures Joined(s.pool) <= Expected(s)
  {
  }

  lemma LastStep(run: seq<Moment>, limits: Limits)
    requires IsRun(run, limits) && run != []
    ensures var last := run[|run| - 1];
            && IsRun(run[..|run| - 1], limits) && last.before == ServerAfter(run[..|run| - 1])
            && Steps(last.before, limits, last.step, last.after)
  {
    hide Steps;
  }

  // ---- Runs in which joins come one by one ----

  /** No join of the room is admitted while another one is under way. */
  ghost predicate OneByOneIn(run: seq<Moment>, roomId: string) {
    forall i :: 0 <= i < |run| && Admitted(run[i].before, run[i].step, run[i].after) && run[i].step.roomId == roomId ==>
      ComingTo(run[i].before, roomId) == {}
  }

  ghost predicate OneByOne(run: seq<Moment>) {
    forall i :: 0 <= i < |run| && Admitted(run[i].before, run[i].step, run[i].after) ==> Coming(run[i].before) == {}
  }

  lemma LoneJoinFits(s: Server, limits: Limits, step: Step, s': Server)
    requires Steps(s, limits, step, s') && Admitted(s, step, s') && 1 <= limits.peersPerRoom
    requires ComingTo(s, step.roomId) == {} && |ExpectedIn(s, step.roomId)| <= limits.peersPerRoom
    ensures |ExpectedIn(s, step.roomId) + {step.joining.value}| <= limits.peersPerRoom
  {
    hide Joined, Served, Fits;
    var present := PeersOf(s.pool, step.roomId);
    assert ExpectedIn(s, step.roomId) == present;
    if step.joining.value in present {
      assert present + {step.joining.value} == present;
    }
  }

  /** Then the check on arrival is enough: the room never exceeds its limit. */
  lemma {:induction false} OneByOneInLimit(run: seq<Moment>, limits: Limits, roomId: string)
    requires IsRun(run, limits) && OneByOneIn(run, roomId) && 1 <= limits.peersPerRoom
    ensures RoomGuarded(run, limits, roomId)
    ensures |PeersOf(ServerAfter(run).pool, roomId)| <= limits.peersPerRoom
  {
    if run != [] {
      LastStep(run, limits);
      var earlier, last := run[..|run| - 1], run[|run| - 1];
      assert OneByOneIn(earlier, roomId);
      OneByOneInLimit(earlier, limits, roomId);
      hide Steps, ExpectedIn, IsRun;
      RoomLimitHolds(earlier, limits, roomId);
      if Admitted(last.before, last.step, last.after) && last.step.roomId == roomId {
        LoneJoinFits(last.before, limits, last.step, last.after);
      }
      GuardedLonger(run, limits, roomId);
    }
    RoomLimitHolds(run, limits, roomId);
  }

  lemma GuardedLonger(run: seq<Moment>, limits: Limits, roomId: string)
    requires run != [] && RoomGuarded(run[..|run| - 1], limits, roomId)
    requires var last := run[|run| - 1];
             Admitted(last.before, last.step, last.after) && last.step.roomId == roomId ==>
               |ExpectedIn(last.before, roomId) + {last.step.joining.value}| <= limits.peersPerRoom
    ensures RoomGuarded(run, limits, roomId)
  {
    hide ExpectedIn;
    var earlier := run[..|run| - 1];
    forall i | 0 <= i < |run| && Admitted(run[i].before, run[i].step, run[i].after) && run[i].step.roomId == roomId
      ensures |ExpectedIn(run[i].before, roomId) + {run[i].step.joining.value}| <= limits.peersPerRoom
    {
      if i < |run| - 1 {
        assert earlier[i] == run[i];
      }
    }
  }

  lemma LoneJoinFitsTotal(s: Server, limits: Limits, step: Step, s': Server)
    requires Steps(s, limits, step, s') && Admitted(s, step, s')
    requires Coming(s) == {} && |Expected(s)| <= limits.totalPeers
    ensures |Expected(s) + {(step.roomId, step.joining.value)}| <= limits.totalPeers
  {
    hide Served, Fits;
    assert Expected(s) == Joined(s.pool);
    if step.joining.value in PeersOf(s.pool, step.roomId) {
      assert Joined(s.pool) + {(step.roomId, step.joining.value)} == Joined(s.pool);
    }
  }

  /** And all rooms together never exceed theirs if no join is admitted while any other is under way. */
  lemma {:induction false} OneByOneLimit(run: seq<Moment>, limits: Limits)
    requires IsRun(run, limits) && OneByOne(run)
    ensures TotalGuarded(run, limits)
    ensures |Joined(ServerAfter(run).pool)| <= limits.totalPeers
  {
    if run != [] {
      LastStep(run, limits);
      var earlier, last := run[..|run| - 1], run[|run| - 1];
      assert OneByOne(earlier);
      OneByOneLimit(earlier, limits);
      hide Steps, Expected, IsRun;
      TotalLimitHolds(earlier, limits);
      if Admitted(last.before, last.step, last.after) {
        LoneJoinFitsTotal(last.before, limits, last.step, last.after);
      }
      TotalGuardedLonger(run, limits);
    }
    TotalLimitHolds(run, limits);
  }

  lemma TotalGuardedLonger(run: seq<Moment>, limits: Limits)
    requires run != [] && TotalGuarded(run[..|run| - 1], limits)
    requires var last := run[|run| - 1];
             Admitted(last.before, last.step, last.after) ==>
               |Expected(last.before) + {(last.step.roomId, last.step.joining.value)}| <= limits.totalPeers
    ensures TotalGuarded(run, limits)
  {
    hide Expected;
    var earlier := run[..|run| - 1];
    forall i | 0 <= i < |run| && Admitted(run[i].before, run[i].step, run[i].after)
      ensures |Expected(run[i].before) + {(run[i].step.roomId, run[i].step.joining.value)}| <= limits.totalPeers
    {
      if i < |run| - 1 {
        assert earlier[i] == run[i];
      }
    }
  }

  // ---- What may follow a run without further arrivals ----

  ghost predicate Continues(run: seq<Moment>, longer: seq<Moment>) {
    && |run| <= |longer| && longer[..|run|] == run
    && forall i :: |run| <= i < |longer| ==> !longer[i].step.Arrives?
  }

  lemma ContinuesTwice(a: seq<Moment>, b: seq<Moment>, c: seq<Moment>)
    requires Continues(a, b) && Continues(b, c)
    ensures Continues(a, c)
  {
    assert c[..|a|] == b[..|a|];
    forall i | |a| <= i < |c| ensures !c[i].step.Arrives? {
      if i < |b| {
        assert c[i] == c[..|b|][i] == b[i];
      }
    }
  }

  /** Nobody new is expected in a continuation. */
  lemma {:induction false} ContinuedExpected(run: seq<Moment>, longer: seq<Moment>, limits: Limits)
    requires IsRun(longer, limits) && Continues(run, longer)
    ensures Expected(ServerAfter(longer)) <= Expected(ServerAfter(run))
    decreases |longer|
  {
    if |longer| > |run| {
      var earlier, last := longer[..|longer| - 1], longer[|longer| - 1];
      assert earlier[..|run|] == run;
      assert Continues(run, earlier);
      ContinuedExpected(run, earlier, limits);
      StepExpected(last.before, limits, last.step, last.after);
    } else {
      assert longer == run;
    }
  }

  lemma Onward(run: seq<Moment>, limits: Limits, step: Step, next: Server) returns (longer: seq<Moment>)
    requires IsRun(run, limits) && Steps(ServerAfter(run), limits, step, next) && !step.Arrives?
    ensures IsRun(longer, limits) && ServerAfter(longer) == next && Continues(run, longer)
  {
    hide Steps, IsRun;
    longer := Extended(run, limits, step, next);
  }

  lemma StaysHere(run: seq<Moment>)
    ensures Continues(run, run)
  {
  }

  // ---- A room's suspended joins can always be brought to their end ----

  /** No join of the room would have to wait for a worker to be picked. */
  predicate Housed(s: Server, roomId: string) {
    HasPoolWorker(s.pool, roomId) || forall id :: id in s.handlers && s.handlers[id].roomId == roomId ==> !s.handlers[id].stage.AwaitsPool?
  }

  /** A fresh worker could take the room. */
  predicate Placeable(s: Server, roomId: string, cap: nat) {
    Housed(s, roomId) || |PeersOf(s.pool, roomId)| <= cap
  }

  /** The same peers, the same handlers but for their stages, and no room worse off for a worker. */
  ghost predicate SameJoins(s: Server, s': Server) {
    && s'.pool.roomPeers == s.pool.roomPeers
    && s'.handlers.Keys == s.handlers.Keys
    && (forall id :: id in s.handlers ==> s'.handlers[id].roomId == s.handlers[id].roomId && s'.handlers[id].joining == s.handlers[id].joining)
    && (forall r :: Housed(s, r) ==> Housed(s', r))
  }

  lemma SameTwice(a: Server, b: Server, c: Server)
    requires SameJoins(a, b) && SameJoins(b, c)
    ensures SameJoins(a, c)
  {
    hide Housed;
  }

  lemma {:induction false} BestExists(s: Pool, roomId: string, cap: nat, offset: nat) returns (best: Option<nat>)
    requires s.cursor < |s.workers| && offset <= |s.workers|
    ensures BestUpTo(s, roomId, cap, offset, best) && (best.Some? ==> best.value < |s.workers|)
    decreases offset
  {
    hide BestUpTo, Projected, RoomsOf;
    if offset == 0 {
      NothingScanned(s, roomId, cap);
      best := None;
    } else {
      var before := BestExists(s, roomId, cap, offset - 1);
      ScanStep(s, roomId, cap, offset - 1, before);
      best := Better(s, roomId, cap, before, Rotated(s.cursor, offset - 1, |s.workers|));
    }
  }

  /** If any worker is eligible, one is picked. */
  lemma PickExists(s: Pool, roomId: string, cap: nat, j: nat) returns (picked: nat)
    requires s.cursor < |s.workers| && Eligible(s, roomId, j, cap)
    ensures picked < |s.workers| && IsPick(s, roomId, cap, picked)
  {
    var best := BestExists(s, roomId, cap, |s.workers|);
    hide BestUpTo, IsPick, Eligible;
    AllScanned(s, roomId, cap, best);
    picked := best.value;
  }

  /** A worker started now is up and serves nobody, so it could take any room that is not too full by itself. */
  lemma FreshWorkerEligible(s: Server, roomId: string, cap: nat)
    requires IdsSound(s) && |PeersOf(s.pool, roomId)| <= cap
    ensures var pool := s.pool.(workers := s.pool.workers + [s.serial + 1]);
            Eligible(pool, roomId, |s.pool.workers|, cap) && pool.cursor < |pool.workers|
  {
    var w := s.serial + 1;
    var pool := s.pool.(workers := s.pool.workers + [w]);
    assert RoomsOf(pool, w) == {};
    assert Served(pool, w) == {};
  }

  lemma WorkerComesUp(s: Server, limits: Limits, s1: Server, s2: Server)
    requires IdsSound(s) && s1 == s.(serial := s.serial + 1, starting := s.starting + {s.serial + 1})
    requires s2 == Staffed(s)
    ensures Steps(s, limits, WorkerStarts, s1) && Steps(s1, limits, WorkerReady(s.serial + 1), s2)
  {
    assert s.serial + 1 !in s.starting;
    assert s1.starting - {s.serial + 1} == s.starting;
  }

  /** The server with one worker more, just started. */
  function Staffed(s: Server): Server {
    s.(serial := s.serial + 1, pool := s.pool.(workers := s.pool.workers + [s.serial + 1]))
  }

  lemma AddsWorker(run: seq<Moment>, limits: Limits) returns (longer: seq<Moment>)
    requires IsRun(run, limits) && IdsSound(ServerAfter(run))
    ensures IsRun(longer, limits) && Continues(run, longer) && ServerAfter(longer) == Staffed(ServerAfter(run))
  {
    hide Steps, IsRun, Continues, ServerAfter, IdsSound, Staffed;
    var s := ServerAfter(run);
    var s1 := s.(serial := s.serial + 1, starting := s.starting + {s.serial + 1});
    WorkerComesUp(s, limits, s1, Staffed(s));
    var one := Onward(run, limits, WorkerStarts, s1);
    longer := Onward(one, limits, WorkerReady(s.serial + 1), Staffed(s));
    ContinuesTwice(run, one, longer);
  }

  /** A join that waits for the pool goes on, and its room gets a worker. */
  lemma PicksWorker(run: seq<Moment>, limits: Limits, id: nat, j: nat) returns (longer: seq<Moment>)
    requires IsRun(run, limits) && ServerAfter(run).pool.cursor < |ServerAfter(run).pool.workers|
    requires id in ServerAfter(run).handlers && ServerAfter(run).handlers[id].stage.AwaitsPool?
    requires var roomId := ServerAfter(run).handlers[id].roomId;
             Eligible(ServerAfter(run).pool, roomId, j, limits.peersPerWorker) && !HasPoolWorker(ServerAfter(run).pool, roomId)
    ensures IsRun(longer, limits) && Continues(run, longer) && SameJoins(ServerAfter(run), ServerAfter(longer))
    ensures HasPoolWorker(ServerAfter(longer).pool, ServerAfter(run).handlers[id].roomId)
  {
    var s := ServerAfter(run);
    var roomId := s.handlers[id].roomId;
    var picked := PickExists(s.pool, roomId, limits.peersPerWorker, j);
    var next := Suspended(s.(pool := Assigned(s.pool, roomId, picked)), id, AwaitsRouter(s.pool.workers[picked]));
    hide IsPick, Eligible, IsRun, Assigned;
    assert Picked(s, id, roomId, limits.peersPerWorker, next);
    hide Picked;
    assert Steps(s, limits, PoolReady(id, true), next);
    hide Steps;
    longer := Onward(run, limits, PoolReady(id, true), next);
    AssignedHoused(s, id, roomId, picked, next);
  }

  lemma AssignedHoused(s: Server, id: nat, roomId: string, picked: nat, next: Server)
    requires picked < |s.pool.workers| && id in s.handlers
    requires next == Suspended(s.(pool := Assigned(s.pool, roomId, picked)), id, AwaitsRouter(s.pool.workers[picked]))
    ensures SameJoins(s, next) && HasPoolWorker(next.pool, roomId)
  {
    assert next.pool.workers == s.pool.workers;
    assert s.pool.workers[picked] in s.pool.workers;
  }

  lemma MoreWorkersHoused(s: Server, s': Server)
    requires s' == s.(serial := s'.serial, pool := s.pool.(workers := s'.pool.workers))
    requires forall w :: w in s.pool.workers ==> w in s'.pool.workers
    ensures SameJoins(s, s')
  {
  }

  lemma FindsHouse(run: seq<Moment>, limits: Limits, roomId: string) returns (longer: seq<Moment>)
    requires IsRun(run, limits) && Placeable(ServerAfter(run), roomId, limits.peersPerWorker)
    ensures IsRun(longer, limits) && Continues(run, longer) && SameJoins(ServerAfter(run), ServerAfter(longer))
    ensures Housed(ServerAfter(longer), roomId)
  {
    var s := ServerAfter(run);
    hide IsRun, SameJoins, Continues, ServerAfter;
    if Housed(s, roomId) {
      StaysHere(run);
      NoChange(s);
      longer := run;
    } else {
      RunSound(run, limits);
      var id :| id in s.handlers && s.handlers[id].roomId == roomId && s.handlers[id].stage.AwaitsPool?;
      FreshWorkerEligible(s, roomId, limits.peersPerWorker);
      var staffed := AddsWorker(run, limits);
      var s1 := ServerAfter(staffed);
      MoreWorkersHoused(s, s1);
      if HasPoolWorker(s1.pool, roomId) {
        longer := staffed;
      } else {
        longer := PicksWorker(staffed, limits, id, |s.pool.workers|);
        ContinuesTwice(run, staffed, longer);
        SameTwice(s, s1, ServerAfter(longer));
      }
    }
  }

  lemma NoChange(s: Server)
    ensures SameJoins(s, s)
  {
  }

  lemma SamePlaceable(s: Server, s': Server, roomId: string, cap: nat)
    requires SameJoins(s, s') && Placeable(s, roomId, cap)
    ensures Placeable(s', roomId, cap)
  {
    hide Housed;
  }

  lemma {:induction false} FindHouses(run: seq<Moment>, limits: Limits, rooms: set<string>) returns (longer: seq<Moment>)
    requires IsRun(run, limits) && forall r :: r in rooms ==> Placeable(ServerAfter(run), r, limits.peersPerWorker)
    ensures IsRun(longer, limits) && Continues(run, longer) && SameJoins(ServerAfter(run), ServerAfter(longer))
    ensures forall r :: r in rooms ==> Housed(ServerAfter(longer), r)
    decreases rooms
  {
    hide IsRun, Continues, Housed, ServerAfter, Placeable;
    if rooms == {} {
      StaysHere(run);
      NoChange(ServerAfter(run));
      longer := run;
    } else {
      var r :| r in rooms;
      var first := FindsHouse(run, limits, r);
      forall q | q in rooms ensures Placeable(ServerAfter(first), q, limits.peersPerWorker) {
        SamePlaceable(ServerAfter(run), ServerAfter(first), q, limits.peersPerWorker);
      }
      longer := FindHouses(first, limits, rooms - {r});
      ContinuesTwice(run, first, longer);
      SameTwice(ServerAfter(run), ServerAfter(first), ServerAfter(longer));
    }
  }

  // ---- Finishing ----

  /** The handler's own room, or any other, has a worker or needs none. */
  lemma GetsReady(run: seq<Moment>, limits: Limits, id: nat) returns (longer: seq<Moment>)
    requires IsRun(run, limits) && id in ServerAfter(run).handlers && Housed(ServerAfter(run), ServerAfter(run).handlers[id].roomId)
    ensures IsRun(longer, limits) && Continues(run, longer) && SameJoins(ServerAfter(run), ServerAfter(longer))
    ensures ServerAfter(longer).handlers[id].stage.RouterReady?
  {
    var s := ServerAfter(run);
    hide IsRun, Continues, ServerAfter, SameJoins, Eligible, IsPick;
    StaysHere(run);
    NoChange(s);
    longer := run;
    if s.handlers[id].stage.AwaitsPool? {
      var next := Suspended(s, id, AwaitsRouter(s.pool.workerByRoom[s.handlers[id].roomId]));
      assert Steps(s, limits, PoolReady(id, true), next);
      longer := Onward(run, limits, PoolReady(id, true), next);
      StageSame(s, id, next.handlers[id].stage, s.routers);
    }
    var s1 := ServerAfter(longer);
    if s1.handlers[id].stage.AwaitsRouter? {
      var routers := s1.routers[s1.handlers[id].roomId := s1.handlers[id].stage.worker];
      var next := Suspended(s1, id, RouterReady).(routers := routers);
      assert Steps(s1, limits, RouterMade(id), next);
      var made := Onward(longer, limits, RouterMade(id), next);
      StageSame(s1, id, RouterReady, routers);
      ContinuesTwice(run, longer, made);
      SameTwice(s, s1, next);
      longer := made;
    }
  }

  lemma StageSame(s: Server, id: nat, stage: Stage, routers: map<string, WorkerId>)
    requires id in s.handlers && !stage.AwaitsPool?
    ensures SameJoins(s, Suspended(s, id, stage).(routers := routers))
  {
  }

  /** A worker that has closed is not counted against: its rooms take in whoever is ready. */
  lemma Uncounts(run: seq<Moment>, limits: Limits, roomId: string) returns (longer: seq<Moment>)
    requires IsRun(run, limits)
    ensures IsRun(longer, limits) && Continues(run, longer) && SameJoins(ServerAfter(run), ServerAfter(longer))
    ensures ServerAfter(longer).handlers == ServerAfter(run).handlers
    ensures var pool := ServerAfter(longer).pool; roomId in pool.workerByRoom ==> !Up(pool, pool.workerByRoom[roomId])
  {
    hide IsRun, Continues, ServerAfter, WithinCap, IdsSound, SameJoins, Steps;
    var s := ServerAfter(run);
    StaysHere(run);
    NoChange(s);
    longer := run;
    if roomId in s.pool.workerByRoom && Up(s.pool, s.pool.workerByRoom[roomId]) {
      RunSound(run, limits);
      var w := s.pool.workerByRoom[roomId];
      WorkerMayClose(s, limits, w);
      longer := Onward(run, limits, WorkerCloses(w), s.(pool := s.pool.(closed := s.pool.closed + {w})));
    }
  }

  lemma WorkerMayClose(s: Server, limits: Limits, w: WorkerId)
    requires IdsSound(s) && w in s.pool.workers
    ensures var next := s.(pool := s.pool.(closed := s.pool.closed + {w}));
            Steps(s, limits, WorkerCloses(w), next) && SameJoins(s, next)
  {
  }

  /** One suspended join, brought to its end: its peer is in the room, and nothing else has changed. */
  ghost predicate OneJoined(s: Server, id: nat, s': Server)
    requires id in s.handlers && s.handlers[id].joining.Some?
  {
    && s'.handlers.Keys == s.handlers.Keys - {id}
    && (forall i :: i in s'.handlers ==> s'.handlers[i].roomId == s.handlers[i].roomId && s'.handlers[i].joining == s.handlers[i].joining)
    && (forall r :: PeersOf(s'.pool, r) == PeersOf(s.pool, r) + if r == s.handlers[id].roomId then {s.handlers[id].joining.value} else {})
    && (forall r :: Housed(s, r) ==> Housed(s', r))
  }

  lemma FinishJoins(s: Server, limits: Limits, id: nat, next: Server)
    requires id in s.handlers && s.handlers[id].stage.RouterReady? && s.handlers[id].joining.Some?
    requires var r := s.handlers[id].roomId; r in s.pool.workerByRoom ==> !Up(s.pool, s.pool.workerByRoom[r])
    requires next == Ended(s.(pool := WithPeer(s.pool, s.handlers[id].roomId, s.handlers[id].joining.value)), id)
    ensures Steps(s, limits, Finishes(id), next) && OneJoined(s, id, next)
  {
  }

  lemma SameThenJoined(a: Server, b: Server, c: Server, id: nat)
    requires SameJoins(a, b) && id in a.handlers && a.handlers[id].joining.Some? && id in b.handlers && b.handlers[id].joining.Some?
    requires OneJoined(b, id, c)
    ensures OneJoined(a, id, c)
  {
    assert forall r :: PeersOf(b.pool, r) == PeersOf(a.pool, r);
    hide Housed, PeersOf;
  }

  lemma JoinsAtLast(run: seq<Moment>, limits: Limits, id: nat) returns (longer: seq<Moment>)
    requires IsRun(run, limits) && id in ServerAfter(run).handlers && ServerAfter(run).handlers[id].joining.Some?
    requires Housed(ServerAfter(run), ServerAfter(run).handlers[id].roomId)
    ensures IsRun(longer, limits) && Continues(run, longer) && OneJoined(ServerAfter(run), id, ServerAfter(longer))
  {
    var s := ServerAfter(run);
    var ready := GetsReady(run, limits, id);
    var open := Uncounts(ready, limits, s.handlers[id].roomId);
    var s2 := ServerAfter(open);
    SameTwice(s, ServerAfter(ready), s2);
    hide IsRun, Continues, ServerAfter, Steps, OneJoined, Up;
    assert s2.handlers[id].roomId == s.handlers[id].roomId && s2.handlers[id].joining == s.handlers[id].joining;
    var next := Ended(s2.(pool := WithPeer(s2.pool, s2.handlers[id].roomId, s2.handlers[id].joining.value)), id);
    FinishJoins(s2, limits, id, next);
    longer := Onward(open, limits, Finishes(id), next);
    ContinuesTwice(run, ready, open);
    ContinuesTwice(run, open, longer);
    SameThenJoined(s, s2, next, id);
  }

  ghost predicate AllIn(s: Server, ids: set<nat>, s': Server)
    requires ids <= s.handlers.Keys
  {
    && (forall r :: PeersOf(s.pool, r) <= PeersOf(s'.pool, r))
    && (forall id :: id in ids && s.handlers[id].joining.Some? ==> s.handlers[id].joining.value in PeersOf(s'.pool, s.handlers[id].roomId))
  }

  lemma {:induction false} AllJoin(run: seq<Moment>, limits: Limits, ids: set<nat>) returns (longer: seq<Moment>)
    requires IsRun(run, limits) && ids <= ServerAfter(run).handlers.Keys
    requires forall id :: id in ids ==> ServerAfter(run).handlers[id].joining.Some? && Housed(ServerAfter(run), ServerAfter(run).handlers[id].roomId)
    ensures IsRun(longer, limits) && Continues(run, longer) && AllIn(ServerAfter(run), ids, ServerAfter(longer))
    decreases ids
  {
    hide IsRun, Continues, ServerAfter, Housed, PeersOf;
    if ids == {} {
      StaysHere(run);
      longer := run;
    } else {
      var id :| id in ids;
      var first := JoinsAtLast(run, limits, id);
      longer := AllJoin(first, limits, ids - {id});
      ContinuesTwice(run, first, longer);
    }
  }

  function JoinsOf(s: Server, rooms: set<string>): set<nat> {
    set id | id in s.handlers && s.handlers[id].joining.Some? && s.handlers[id].roomId in rooms
  }

  /** Without any further arrival, everyone on the way to some rooms can come to be in them. */
  lemma EveryoneArrives(run: seq<Moment>, limits: Limits, rooms: set<string>) returns (longer: seq<Moment>)
    requires IsRun(run, limits) && forall r :: r in rooms ==> Placeable(ServerAfter(run), r, limits.peersPerWorker)
    ensures IsRun(longer, limits) && Continues(run, longer)
    ensures forall r :: r in rooms ==> ExpectedIn(ServerAfter(run), r) <= PeersOf(ServerAfter(longer).pool, r)
    ensures forall r :: PeersOf(ServerAfter(run).pool, r) <= PeersOf(ServerAfter(longer).pool, r)
  {
    var s := ServerAfter(run);
    var housed := FindHouses(run, limits, rooms);
    var s1 := ServerAfter(housed);
    assert forall r :: PeersOf(s1.pool, r) == PeersOf(s.pool, r);
    longer := AllJoin(housed, limits, JoinsOf(s1, rooms));
    ContinuesTwice(run, housed, longer);
    hide IsRun, Continues, ServerAfter, Housed, Placeable, PeersOf;
    forall r | r in rooms ensures ComingTo(s, r) <= PeersOf(ServerAfter(longer).pool, r) {
      forall p | p in ComingTo(s, r) ensures p in PeersOf(ServerAfter(longer).pool, r) {
        var id :| id in s.handlers && s.handlers[id].roomId == r && s.handlers[id].joining.Some? && s.handlers[id].joining.value == p;
        assert id in JoinsOf(s1, rooms);
      }
    }
  }

  lemma ContinuedExpectedIn(run: seq<Moment>, longer: seq<Moment>, limits: Limits, roomId: string)
    requires IsRun(longer, limits) && Continues(run, longer)
    ensures PeersOf(ServerAfter(longer).pool, roomId) <= ExpectedIn(ServerAfter(run), roomId)
  {
    ContinuedExpected(run, longer, limits);
    hide Expected, ExpectedIn, IsRun, Continues, ServerAfter;
    InIsExpected(ServerAfter(longer), roomId);
    forall p | p in PeersOf(ServerAfter(longer).pool, roomId) ensures p in ExpectedIn(ServerAfter(run), roomId) {
      ExpectedSplits(ServerAfter(longer), roomId, p);
      ExpectedSplits(ServerAfter(run), roomId, p);
    }
  }

  lemma FewIsPlaceable(s: Server, roomId: string, limits: Limits)
    requires |PeersOf(s.pool, roomId)| <= limits.peersPerRoom
    ensures limits.peersPerRoom <= limits.peersPerWorker ==> Placeable(s, roomId, limits.peersPerWorker)
  {
  }

  /**
   Exactly when a room is safe from exceeding its limit without any further arrival: when those in it and
   those on their way to it are no more than the limit. (A room can only fail to be placed when it has more
   peers than a worker takes, which is past its own limit already unless that is the larger one.)
   */
  lemma RoomLimitExactly(run: seq<Moment>, limits: Limits, roomId: string)
    requires IsRun(run, limits)
    requires limits.peersPerRoom <= limits.peersPerWorker || Placeable(ServerAfter(run), roomId, limits.peersPerWorker)
    ensures |ExpectedIn(ServerAfter(run), roomId)| <= limits.peersPerRoom <==>
            forall longer :: IsRun(longer, limits) && Continues(run, longer) ==>
              |PeersOf(ServerAfter(longer).pool, roomId)| <= limits.peersPerRoom
  {
    hide IsRun, Continues, ServerAfter, Placeable, ExpectedIn, PeersOf;
    if |ExpectedIn(ServerAfter(run), roomId)| <= limits.peersPerRoom {
      forall longer | IsRun(longer, limits) && Continues(run, longer)
        ensures |PeersOf(ServerAfter(longer).pool, roomId)| <= limits.peersPerRoom
      {
        ContinuedExpectedIn(run, longer, limits, roomId);
        SubsetSize(PeersOf(ServerAfter(longer).pool, roomId), ExpectedIn(ServerAfter(run), roomId));
      }
    } else if |PeersOf(ServerAfter(run).pool, roomId)| > limits.peersPerRoom {
      StaysHere(run);
    } else {
      FewIsPlaceable(ServerAfter(run), roomId, limits);
      var longer := EveryoneArrives(run, limits, {roomId});
      SubsetSize(ExpectedIn(ServerAfter(run), roomId), PeersOf(ServerAfter(longer).pool, roomId));
    }
  }

  /**
   The same seen on arrival, where it can be checked: admitting a join puts the room's limit at risk exactly
   when the newcomer, those in the room and those on their way to it are more than the limit.
   */
  lemma JoinSafeIff(run: seq<Moment>, limits: Limits, step: Step, next: Server)
    requires IsRun(run, limits) && Steps(ServerAfter(run), limits, step, next) && Admitted(ServerAfter(run), step, next)
    requires limits.peersPerRoom <= limits.peersPerWorker || Placeable(next, step.roomId, limits.peersPerWorker)
    ensures |ExpectedIn(ServerAfter(run), step.roomId) + {step.joining.value}| <= limits.peersPerRoom <==>
            forall longer :: IsRun(longer, limits) && Continues(run + [Moment(ServerAfter(run), step, next)], longer) ==>
              |PeersOf(ServerAfter(longer).pool, step.roomId)| <= limits.peersPerRoom
  {
    ArrivedExpected(ServerAfter(run), limits, step, next);
    hide Steps, Continues, Placeable, ExpectedIn, PeersOf, Expected, IsRun, ServerAfter;
    var admitted := Extended(run, limits, step, next);
    ArrivedIn(ServerAfter(run), step, next);
    RoomLimitExactly(admitted, limits, step.roomId);
  }

  lemma ArrivedIn(s: Server, step: Step, next: Server)
    requires Admitted(s, step, next) && Expected(next) == Expected(s) + NewlyExpected(s, step, next)
    ensures ExpectedIn(next, step.roomId) == ExpectedIn(s, step.roomId) + {step.joining.value}
  {
    hide Expected, ExpectedIn;
    forall p ensures p in ExpectedIn(next, step.roomId) <==> p in ExpectedIn(s, step.roomId) || p == step.joining.value {
      ExpectedSplits(s, step.roomId, p);
      ExpectedSplits(next, step.roomId, p);
    }
  }

  function AwaitedRooms(s: Server): set<string> {
    set id | id in s.handlers :: s.handlers[id].roomId
  }

  lemma EveryoneInTotal(run: seq<Moment>, limits: Limits) returns (longer: seq<Moment>)
    requires IsRun(run, limits)
    requires forall r :: r in AwaitedRooms(ServerAfter(run)) ==> Placeable(ServerAfter(run), r, limits.peersPerWorker)
    ensures IsRun(longer, limits) && Continues(run, longer) && Expected(ServerAfter(run)) <= Joined(ServerAfter(longer).pool)
  {
    var s := ServerAfter(run);
    longer := EveryoneArrives(run, limits, AwaitedRooms(s));
    hide IsRun, Continues, ServerAfter, Placeable;
    forall x | x in Expected(s) ensures x in Joined(ServerAfter(longer).pool) {
      var (r, p) := x;
      ExpectedSplits(s, r, p);
      if x in Joined(s.pool) {
        assert p in PeersOf(s.pool, r);
      } else {
        assert r in AwaitedRooms(s);
      }
      assert p in PeersOf(ServerAfter(longer).pool, r);
    }
  }

  lemma FewJoinedIsPlaceable(s: Server, roomId: string, cap: nat)
    requires |Joined(s.pool)| <= cap
    ensures Placeable(s, roomId, cap)
  {
    TaggedSize(roomId, PeersOf(s.pool, roomId));
    SubsetSize(Tagged(roomId, PeersOf(s.pool, roomId)), Joined(s.pool));
  }

  /** The limit on all peers together is safe exactly when those joined and those on their way are no more. */
  lemma TotalLimitExactly(run: seq<Moment>, limits: Limits)
    requires IsRun(run, limits)
    requires limits.totalPeers <= limits.peersPerWorker
             || forall r :: r in AwaitedRooms(ServerAfter(run)) ==> Placeable(ServerAfter(run), r, limits.peersPerWorker)
    ensures |Expected(ServerAfter(run))| <= limits.totalPeers <==>
            forall longer :: IsRun(longer, limits) && Continues(run, longer) ==> |Joined(ServerAfter(longer).pool)| <= limits.totalPeers
  {
    hide IsRun, Continues, ServerAfter, Placeable, Expected, Joined;
    if |Expected(ServerAfter(run))| <= limits.totalPeers {
      forall longer | IsRun(longer, limits) && Continues(run, longer)
        ensures |Joined(ServerAfter(longer).pool)| <= limits.totalPeers
      {
        ContinuedExpected(run, longer, limits);
        JoinedIsExpected(ServerAfter(longer));
        SubsetSize(Joined(ServerAfter(longer).pool), Expected(ServerAfter(run)));
      }
    } else if |Joined(ServerAfter(run).pool)| > limits.totalPeers {
      StaysHere(run);
    } else {
      forall r | limits.totalPeers <= limits.peersPerWorker ensures Placeable(ServerAfter(run), r, limits.peersPerWorker) {
        FewJoinedIsPlaceable(ServerAfter(run), r, limits.peersPerWorker);
      }
      var longer := EveryoneInTotal(run, limits);
      SubsetSize(Expected(ServerAfter(run)), Joined(ServerAfter(longer).pool));
    }
  }
}
