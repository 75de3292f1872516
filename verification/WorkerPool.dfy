/**
 The pool of mediasoup workers: which worker serves which room, how loaded each worker is, and how the
 worker for a new room is picked. Workers are named by the serial number in their id.
 */
module WorkerPool {
  import opened MediaTypes

  type WorkerId = nat

  datatype Load = Load(roomCount: nat, peerCount: nat)

  /** `closed` holds the workers whose process or WebRTC server is closed. */
  datatype Pool = Pool(
    workers: seq<WorkerId>,
    cursor: nat,
    closed: set<WorkerId>,
    workerByRoom: map<string, WorkerId>,
    roomPeers: map<string, set<string>>)

  // ---- Load ----

  function PeersOf(s: Pool, roomId: string): set<string> {
    if roomId in s.roomPeers then s.roomPeers[roomId] else {}
  }

  function RoomsOf(s: Pool, w: WorkerId): set<string> {
    set r | r in s.workerByRoom && s.workerByRoom[r] == w
  }

  /** Everyone served by a worker, as pairs of room and peer: a peer in two rooms is served twice. */
  function Served(s: Pool, w: WorkerId): set<(string, string)> {
    set r, p | r in RoomsOf(s, w) && p in PeersOf(s, r) :: (r, p)
  }

  function LoadOf(s: Pool, w: WorkerId): Load {
    Load(|RoomsOf(s, w)|, |Served(s, w)|)
  }

  function Tagged(r: string, peers: set<string>): set<(string, string)> {
    set p | p in peers :: (r, p)
  }

  lemma {:induction false} TaggedSize(r: string, peers: set<string>)
    ensures |Tagged(r, peers)| == |peers|
  {
    if peers != {} {
      var p :| p in peers;
      TaggedSize(r, peers - {p});
      assert Tagged(r, peers) == Tagged(r, peers - {p}) + {(r, p)};
    }
  }

  /** What a worker serves in some of its rooms. */
  function ServedIn(s: Pool, w: WorkerId, rooms: set<string>): set<(string, string)> {
    set r, p | r in RoomsOf(s, w) && r in rooms && p in PeersOf(s, r) :: (r, p)
  }

  function LoadIn(s: Pool, w: WorkerId, rooms: set<string>): Load {
    Load(|RoomsOf(s, w) * rooms|, |ServedIn(s, w, rooms)|)
  }

  lemma NoRooms(s: Pool, w: WorkerId)
    ensures LoadIn(s, w, {}) == Load(0, 0)
  {
  }

  lemma AllRooms(s: Pool, w: WorkerId)
    ensures LoadIn(s, w, s.workerByRoom.Keys) == LoadOf(s, w)
  {
    assert RoomsOf(s, w) * s.workerByRoom.Keys == RoomsOf(s, w);
    assert ServedIn(s, w, s.workerByRoom.Keys) == Served(s, w);
  }

  lemma OneRoomMore(s: Pool, w: WorkerId, rooms: set<string>, roomId: string)
    requires roomId !in rooms
    ensures LoadIn(s, w, rooms + {roomId}) ==
            var load := LoadIn(s, w, rooms);
            if roomId in RoomsOf(s, w) then Load(load.roomCount + 1, load.peerCount + |PeersOf(s, roomId)|) else load
  {
    var before, after := ServedIn(s, w, rooms), ServedIn(s, w, rooms + {roomId});
    if roomId in RoomsOf(s, w) {
      TaggedSize(roomId, PeersOf(s, roomId));
      assert after == before + Tagged(roomId, PeersOf(s, roomId));
      assert before !! Tagged(roomId, PeersOf(s, roomId));
      assert RoomsOf(s, w) * (rooms + {roomId}) == RoomsOf(s, w) * rooms + {roomId};
    } else {
      assert after == before;
      assert RoomsOf(s, w) * (rooms + {roomId}) == RoomsOf(s, w) * rooms;
    }
  }

  // ---- Picking ----

  /** How far the scan has to go from the cursor to reach an index. */
  function Distance(cursor: nat, index: nat, n: nat): nat
    requires index < n && cursor < n
  {
    if cursor <= index then index - cursor else index + n - cursor
  }

  function Projected(s: Pool, roomId: string, w: WorkerId): nat {
    |Served(s, w)| + |PeersOf(s, roomId)|
  }

  /** A worker that is up and could take the room with all its peers. */
  predicate Eligible(s: Pool, roomId: string, index: nat, cap: nat) {
    index < |s.workers| && s.workers[index] !in s.closed && Projected(s, roomId, s.workers[index]) <= cap
  }

  /** Fewer peers first, then fewer rooms, then nearer to the cursor. */
  predicate Precedes(s: Pool, roomId: string, i: nat, j: nat)
    requires i < |s.workers| && j < |s.workers| && s.cursor < |s.workers|
  {
    var (pi, pj) := (Projected(s, roomId, s.workers[i]), Projected(s, roomId, s.workers[j]));
    var (ri, rj) := (|RoomsOf(s, s.workers[i])|, |RoomsOf(s, s.workers[j])|);
    var (di, dj) := (Distance(s.cursor, i, |s.workers|), Distance(s.cursor, j, |s.workers|));
    pi < pj || (pi == pj && (ri < rj || (ri == rj && di < dj)))
  }

  ghost predicate IsPick(s: Pool, roomId: string, cap: nat, index: nat)
    requires s.cursor < |s.workers|
  {
    Eligible(s, roomId, index, cap) &&
    forall j :: j != index && Eligible(s, roomId, j, cap) ==> Precedes(s, roomId, index, j)
  }

  function Assigned(s: Pool, roomId: string, index: nat): Pool
    requires index < |s.workers|
  {
    s.(cursor := (index + 1) % |s.workers|, workerByRoom := s.workerByRoom[roomId := s.workers[index]])
  }

  /** There is never a choice between two picks. */
  lemma PickUnique(s: Pool, roomId: string, cap: nat, i: nat, j: nat)
    requires s.cursor < |s.workers| && IsPick(s, roomId, cap, i) && IsPick(s, roomId, cap, j)
    ensures i == j
  {
  }

  /**
   What it takes to be picked, in numbers: to be up and to have room for everybody in the room; and among all
   such workers to serve the fewest peers, then the fewest rooms, then to come first in the scan.
   */
  lemma PickIsLeast(s: Pool, roomId: string, cap: nat, i: nat)
    requires s.cursor < |s.workers| && IsPick(s, roomId, cap, i)
    ensures i < |s.workers| && s.workers[i] !in s.closed && |Served(s, s.workers[i])| + |PeersOf(s, roomId)| <= cap
    ensures forall j :: 0 <= j < |s.workers| && j != i && s.workers[j] !in s.closed && |Served(s, s.workers[j])| + |PeersOf(s, roomId)| <= cap ==>
              var (a, b) := (s.workers[i], s.workers[j]);
              || |Served(s, a)| < |Served(s, b)|
              || (|Served(s, a)| == |Served(s, b)| && |RoomsOf(s, a)| < |RoomsOf(s, b)|)
              || (|Served(s, a)| == |Served(s, b)| && |RoomsOf(s, a)| == |RoomsOf(s, b)|
                  && Distance(s.cursor, i, |s.workers|) < Distance(s.cursor, j, |s.workers|))
  {
    hide Served, RoomsOf;
    forall j | 0 <= j < |s.workers| && j != i && s.workers[j] !in s.closed && |Served(s, s.workers[j])| + |PeersOf(s, roomId)| <= cap
      ensures Precedes(s, roomId, i, j)
    {
      assert Eligible(s, roomId, j, cap);
    }
  }

  /** The scan's index at a given distance; every index is reached, at its own distance. */
  function Rotated(cursor: nat, offset: nat, n: nat): (index: nat)
    requires cursor < n && offset < n
    ensures index < n && Distance(cursor, index, n) == offset
    ensures index == (cursor + offset) % n
  {
    ModOfTwice(cursor + offset, n);
    (cursor + offset) % n
  }

  lemma ModOfTwice(x: nat, n: nat)
    requires 0 < n && x < 2 * n
    ensures x % n == if x < n then x else x - n
  {
  }

  lemma RotationReachesAll(cursor: nat, index: nat, n: nat)
    requires cursor < n && index < n
    ensures Rotated(cursor, Distance(cursor, index, n), n) == index
  {
  }

  /** The best of the workers nearer to the cursor than `offset`, if any of them is eligible. */
  ghost predicate BestUpTo(s: Pool, roomId: string, cap: nat, offset: nat, best: Option<nat>)
    requires s.cursor < |s.workers|
  {
    match best
    case None => forall j :: Eligible(s, roomId, j, cap) ==> offset <= Distance(s.cursor, j, |s.workers|)
    case Some(i) =>
      && Eligible(s, roomId, i, cap) && Distance(s.cursor, i, |s.workers|) < offset
      && forall j :: j != i && Eligible(s, roomId, j, cap) && Distance(s.cursor, j, |s.workers|) < offset ==>
           Precedes(s, roomId, i, j)
  }

  /** What the scan keeps when it has looked at one worker more: ties stay with the earlier one. */
  function Better(s: Pool, roomId: string, cap: nat, best: Option<nat>, index: nat): (r: Option<nat>)
    requires index < |s.workers| && (best.Some? ==> best.value < |s.workers|)
  {
    if !Eligible(s, roomId, index, cap) then best
    else if best.None? then Some(index)
    else
      var (p, q) := (Projected(s, roomId, s.workers[index]), Projected(s, roomId, s.workers[best.value]));
      if p < q || (p == q && |RoomsOf(s, s.workers[index])| < |RoomsOf(s, s.workers[best.value])|) then Some(index) else best
  }

  lemma ScanStep(s: Pool, roomId: string, cap: nat, offset: nat, best: Option<nat>)
    requires s.cursor < |s.workers| && offset < |s.workers| && BestUpTo(s, roomId, cap, offset, best)
    ensures BestUpTo(s, roomId, cap, offset + 1, Better(s, roomId, cap, best, Rotated(s.cursor, offset, |s.workers|)))
  {
  }

  lemma NothingScanned(s: Pool, roomId: string, cap: nat)
    requires s.cursor < |s.workers|
    ensures BestUpTo(s, roomId, cap, 0, None)
  {
  }

  lemma AllScanned(s: Pool, roomId: string, cap: nat, best: Option<nat>)
    requires s.cursor < |s.workers| && BestUpTo(s, roomId, cap, |s.workers|, best)
    ensures best.None? ==> forall j :: !Eligible(s, roomId, j, cap)
    ensures best.Some? ==> IsPick(s, roomId, cap, best.value)
  {
  }

  // ---- The join check ----

  predicate Up(s: Pool, w: WorkerId) {
    w in s.workers && w !in s.closed
  }

  /** Whether one more peer fits: only a room on a worker that is up is limited. */
  predicate Fits(s: Pool, roomId: string, peerId: string, cap: nat) {
    peerId in PeersOf(s, roomId)
    || (roomId in s.workerByRoom && Up(s, s.workerByRoom[roomId]) ==> |Served(s, s.workerByRoom[roomId])| + 1 <= cap)
  }

  function WithPeer(s: Pool, roomId: string, peerId: string): Pool {
    s.(roomPeers := s.roomPeers[roomId := PeersOf(s, roomId) + {peerId}])
  }

  // ---- The limit ----

  /** No worker that is up serves more than `cap`. */
  ghost predicate WithinCap(s: Pool, cap: nat) {
    forall w :: Up(s, w) ==> |Served(s, w)| <= cap
  }

  lemma ServedWithPeer(s: Pool, roomId: string, peerId: string, w: WorkerId)
    ensures Served(WithPeer(s, roomId, peerId), w) == Served(s, w) + if roomId in RoomsOf(s, w) then {(roomId, peerId)} else {}
  {
  }

  lemma PeerAddedWithinCap(s: Pool, roomId: string, peerId: string, cap: nat)
    requires WithinCap(s, cap) && Fits(s, roomId, peerId, cap)
    ensures WithinCap(WithPeer(s, roomId, peerId), cap)
  {
    forall w | Up(WithPeer(s, roomId, peerId), w)
      ensures |Served(WithPeer(s, roomId, peerId), w)| <= cap
    {
      assert Up(s, w);
      assert peerId in PeersOf(s, roomId) && roomId in RoomsOf(s, w) ==> (roomId, peerId) in Served(s, w);
      hide Served;
      ServedWithPeer(s, roomId, peerId, w);
      assert Served(s, w) + {} == Served(s, w);
    }
  }

  lemma ServedWithRoom(s: Pool, roomId: string, index: nat, w: WorkerId)
    requires index < |s.workers| && (roomId in s.workerByRoom ==> s.workerByRoom[roomId] != w)
    ensures Served(Assigned(s, roomId, index), w) ==
            Served(s, w) + if w == s.workers[index] then Tagged(roomId, PeersOf(s, roomId)) else {}
  {
  }

  /** A room that no pool worker serves may go, with its peers, to an eligible one. */
  lemma AssignmentWithinCap(s: Pool, roomId: string, cap: nat, index: nat)
    requires WithinCap(s, cap) && Eligible(s, roomId, index, cap)
    requires roomId in s.workerByRoom ==> s.workerByRoom[roomId] !in s.workers
    ensures WithinCap(Assigned(s, roomId, index), cap)
  {
    forall w | Up(Assigned(s, roomId, index), w)
      ensures |Served(Assigned(s, roomId, index), w)| <= cap
    {
      assert Up(s, w);
      hide Served;
      ServedWithRoom(s, roomId, index, w);
      TaggedSize(roomId, PeersOf(s, roomId));
      UnionSize(Served(s, w), Tagged(roomId, PeersOf(s, roomId)));
    }
  }

  lemma UnionSize<T>(a: set<T>, b: set<T>)
    ensures |a + b| <= |a| + |b|
    ensures a + {} == a
  {
  }

  lemma SubsetSize<T>(a: set<T>, b: set<T>)
    requires a <= b
    ensures |a| <= |b|
  {
    assert b == a + (b - a);
  }

  /** Losing workers, rooms or peers overloads nobody. */
  lemma FewerWithinCap(s: Pool, next: Pool, cap: nat)
    requires WithinCap(s, cap)
    requires forall w :: Up(next, w) ==> Up(s, w)
    requires forall r :: r in next.workerByRoom ==> r in s.workerByRoom && next.workerByRoom[r] == s.workerByRoom[r]
    requires forall r :: PeersOf(next, r) <= PeersOf(s, r)
    ensures WithinCap(next, cap)
  {
    forall w | Up(next, w)
      ensures |Served(next, w)| <= cap
    {
      assert Served(next, w) <= Served(s, w);
      SubsetSize(Served(next, w), Served(s, w));
    }
  }

  // ---- The pool in place ----

  class WorkerContexts {
    var workers: seq<WorkerId>
    var cursor: nat
    var closed: set<WorkerId>
    var workerByRoom: map<string, WorkerId>
    var roomPeers: map<string, set<string>>
    const cap: nat

    function State(): Pool
      reads this
    {
      Pool(workers, cursor, closed, workerByRoom, roomPeers)
    }

    constructor (cap: nat)
      ensures State() == Pool([], 0, {}, map[], map[]) && this.cap == cap
    {
      workers, cursor, closed, workerByRoom, roomPeers := [], 0, {}, map[], map[];
      this.cap := cap;
    }

    /** Zeros for every pool worker, then one pass over the assignments. */
    method BuildWorkerLoadSnapshot() returns (snapshot: map<WorkerId, Load>)
      ensures snapshot.Keys == set w | w in workers
      ensures forall w :: w in workers ==> snapshot[w] == LoadOf(State(), w)
    {
      hide LoadIn, LoadOf;
      snapshot := map w | w in workers :: Load(0, 0);
      forall w | w in workers ensures LoadIn(State(), w, {}) == Load(0, 0) { NoRooms(State(), w); }
      var remaining := workerByRoom.Keys;
      ghost var counted: set<string> := {};
      while remaining != {}
        invariant counted == workerByRoom.Keys - remaining && remaining <= workerByRoom.Keys
        invariant snapshot.Keys == set w | w in workers
        invariant forall w :: w in workers ==> snapshot[w] == LoadIn(State(), w, counted)
        decreases remaining
      {
        var roomId :| roomId in remaining;
        remaining := remaining - {roomId};
        var w := workerByRoom[roomId];
        forall v | v in workers
          ensures LoadIn(State(), v, counted + {roomId}) ==
                  var load := LoadIn(State(), v, counted);
                  if v == w then Load(load.roomCount + 1, load.peerCount + |PeersOf(State(), roomId)|) else load
        {
          OneRoomMore(State(), v, counted, roomId);
        }
        counted := counted + {roomId};
        if w in snapshot {
          var peers := if roomId in roomPeers then |roomPeers[roomId]| else 0;
          snapshot := snapshot[w := Load(snapshot[w].roomCount + 1, snapshot[w].peerCount + peers)];
        }
      }
      assert counted == workerByRoom.Keys;
      forall w | w in workers
        ensures snapshot[w] == LoadOf(State(), w)
      {
        AllRooms(State(), w);
      }
    }

    /** One turn of the pool from the cursor, keeping the best worker seen. */
    method ScanWorkers(roomId: string) returns (best: Option<nat>)
      requires cursor < |workers|
      ensures best.None? ==> forall j :: !Eligible(State(), roomId, j, cap)
      ensures best.Some? ==> IsPick(State(), roomId, cap, best.value)
    {
      hide BestUpTo, RoomsOf, Served, Distance;
      var roomPeerCount := if roomId in roomPeers then |roomPeers[roomId]| else 0;
      var snapshot := BuildWorkerLoadSnapshot();
      best := None;
      var bestProjected, bestRooms, offset := 0, 0, 0;
      NothingScanned(State(), roomId, cap);
      while offset < |workers|
        invariant offset <= |workers|
        invariant BestUpTo(State(), roomId, cap, offset, best)
        invariant best.Some? ==> best.value < |workers| && bestProjected == Projected(State(), roomId, workers[best.value])
                                 && bestRooms == |RoomsOf(State(), workers[best.value])|
      {
        var index := Rotated(cursor, offset, |workers|);
        ScanStep(State(), roomId, cap, offset, best);
        var w := workers[index];
        if w !in closed {
          var load := snapshot[w];
          var projected := load.peerCount + roomPeerCount;
          if projected <= cap &&
             (best.None? || projected < bestProjected || (projected == bestProjected && load.roomCount < bestRooms)) {
            best, bestProjected, bestRooms := Some(index), projected, load.roomCount;
          }
        }
        offset := offset + 1;
      }
      AllScanned(State(), roomId, cap, best);
    }

    /** Gives the room to the best worker and moves the cursor past it; none found leaves everything as it was. */
    method PickWorkerContextForRoom(roomId: string) returns (picked: Option<nat>)
      requires workers != [] ==> cursor < |workers|
      modifies this`cursor, this`workerByRoom
      ensures picked.None? ==> State() == old(State()) && forall j :: !Eligible(old(State()), roomId, j, cap)
      ensures picked.Some? ==> old(workers) != [] && IsPick(old(State()), roomId, cap, picked.value)
                               && State() == Assigned(old(State()), roomId, picked.value)
      ensures picked.Some? ==> picked.value < |workers| && workerByRoom == old(workerByRoom)[roomId := workers[picked.value]]
                               && cursor == (picked.value + 1) % |workers|
    {
      hide Projected, Precedes;
      if workers == [] {
        return None;
      }
      picked := ScanWorkers(roomId);
      if picked.Some? {
        workerByRoom := workerByRoom[roomId := workers[picked.value]];
        cursor := (picked.value + 1) % |workers|;
      }
    }

    /** The check made before and after the router is ready. */
    method WorkerPeerCapacityForJoin(roomId: string, peerId: string) returns (ok: bool)
      ensures ok <==> Fits(State(), roomId, peerId, cap)
      ensures !ok <==>
              && !(roomId in roomPeers && peerId in roomPeers[roomId])
              && roomId in workerByRoom && workerByRoom[roomId] in workers && workerByRoom[roomId] !in closed
              && |Served(State(), workerByRoom[roomId])| >= cap
    {
      if roomId in roomPeers && peerId in roomPeers[roomId] {
        return true;
      }
      if roomId !in workerByRoom {
        return true;
      }
      var w := workerByRoom[roomId];
      if w !in workers || w in closed {
        return true;
      }
      var snapshot := BuildWorkerLoadSnapshot();
      return snapshot[w].peerCount + 1 <= cap;
    }

    /** The end of a join: the check again, then the peer is added. */
    method FinishJoin(roomId: string, peerId: string) returns (ok: bool)
      modifies this`roomPeers
      ensures ok <==> Fits(old(State()), roomId, peerId, cap)
      ensures State() == if ok then WithPeer(old(State()), roomId, peerId) else old(State())
      ensures WithinCap(old(State()), cap) ==> WithinCap(State(), cap)
    {
      ok := WorkerPeerCapacityForJoin(roomId, peerId);
      if ok {
        ghost var s := State();
        var peers := if roomId in roomPeers then roomPeers[roomId] else {};
        roomPeers := roomPeers[roomId := peers + {peerId}];
        if WithinCap(s, cap) {
          PeerAddedWithinCap(s, roomId, peerId, cap);
        }
      }
    }

    /** Takes a worker out of the pool, keeping the cursor inside it. */
    method RemoveWorkerContext(w: WorkerId)
      modifies this`workers, this`cursor
      ensures State() == Without(old(State()), {w})
      ensures forall v :: v in workers <==> v in old(workers) && v != w
      ensures cursor == if old(cursor) < |workers| then old(cursor) else 0
    {
      workers := Filtered(workers, {w});
      if cursor >= |workers| {
        cursor := 0;
      }
    }

    /** The synchronous start of `ensureWorkerPool`: closed workers leave the pool. */
    method DropClosedWorkers()
      modifies this`workers, this`cursor
      ensures State() == Without(old(State()), closed)
      ensures forall v :: v in workers <==> v in old(workers) && v !in closed
      ensures cursor == if old(cursor) < |workers| then old(cursor) else 0
    {
      workers := Filtered(workers, closed);
      if cursor >= |workers| {
        cursor := 0;
      }
    }
  }

  function Filtered(workers: seq<WorkerId>, gone: set<WorkerId>): (kept: seq<WorkerId>)
    ensures forall w :: w in kept <==> w in workers && w !in gone
    ensures |kept| <= |workers|
    ensures (forall i, j :: 0 <= i < j < |workers| ==> workers[i] != workers[j])
            ==> forall i, j :: 0 <= i < j < |kept| ==> kept[i] != kept[j]
  {
    if workers == [] then []
    else
      var rest := Filtered(workers[1..], gone);
      if workers[0] in gone then rest else [workers[0]] + rest
  }

  function Without(s: Pool, gone: set<WorkerId>): Pool {
    var kept := Filtered(s.workers, gone);
    s.(workers := kept, cursor := if s.cursor >= |kept| then 0 else s.cursor)
  }
}
