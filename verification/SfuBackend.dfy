/**
 The mediasoup server's runtime state and the mediasoup library under it. A live handle is a key of
 `media`, mapped to every handle it lives on (itself, its transport, its producer, its router, its worker):
 when any of those closes, it dies and its close callback becomes pending. `closed` records each
 `close()` the server issues on a transport, producer or consumer handle, `closedRouters` those on routers.
 */
module SfuBackend {
  import opened MediaTypes

  type Handle = nat

  /** A close callback names the table and the id it was registered with, not the handle. */
  datatype Callback = TransportClosed(id: string) | ProducerClosed(id: string) | ConsumerClosed(id: string)

  datatype RouterEntry = RouterEntry(workerId: string, workerHandle: Handle, handle: Handle)
  datatype TransportEntry = TransportEntry(roomId: string, peerId: string, handle: Handle)
  datatype ProducerEntry = ProducerEntry(roomId: string, peerId: string, transportId: string,
                                         kind: string, trackType: string, handle: Handle)
  datatype ConsumerEntry = ConsumerEntry(roomId: string, peerId: string, transportId: string, producerId: string,
                                         producerPeerId: string, kind: string, trackType: string, handle: Handle)

  datatype Backend = Backend(
    pool: map<string, Handle>,
    workerByRoom: map<string, string>,
    routers: map<string, RouterEntry>,
    roomPeers: map<string, set<string>>,
    transports: map<string, TransportEntry>,
    producers: map<string, ProducerEntry>,
    consumers: map<string, ConsumerEntry>,
    media: map<Handle, set<Handle>>,
    made: map<Handle, Callback>,
    pending: set<Callback>,
    closed: seq<Handle>,
    closedRouters: seq<Handle>,
    nextHandle: Handle)

  const EMPTY := Backend(map[], map[], map[], map[], map[], map[], map[], map[], map[], {}, [], [], 0)

  // ---- The mediasoup library ----

  function Survivors(media: map<Handle, set<Handle>>, dying: set<Handle>): map<Handle, set<Handle>> {
    map h | h in media && media[h] !! dying :: media[h]
  }

  function CallbacksOf(s: Backend, dying: set<Handle>): set<Callback> {
    set h | h in s.media && !(s.media[h] !! dying) && h in s.made :: s.made[h]
  }

  /** Everything that lives on one of the `dying` handles dies, and its callback becomes due. */
  function Kill(s: Backend, dying: set<Handle>): Backend {
    s.(media := Survivors(s.media, dying), pending := s.pending + CallbacksOf(s, dying))
  }

  /** A new handle living on the handles `parents`, with a callback registered. */
  function Create(s: Backend, parents: set<Handle>, callback: Callback): Backend {
    s.(media := s.media[s.nextHandle := parents + {s.nextHandle}],
       made := s.made[s.nextHandle := callback],
       nextHandle := s.nextHandle + 1)
  }

  // ---- The server's close helpers ----

  /** Takes the entry out of its table and issues `close()` on its handle, which is thereby marked closed. */
  function Detach(s: Backend, target: Callback): Backend {
    s.(transports := if target.TransportClosed? then s.transports - {target.id} else s.transports,
       producers := if target.ProducerClosed? then s.producers - {target.id} else s.producers,
       consumers := if target.ConsumerClosed? then s.consumers - {target.id} else s.consumers,
       closed := s.closed + if Target(s, target).Some? then [Target(s, target).value] else [])
  }

  /** Closes one transport, producer or consumer by id; closing an absent one does nothing. */
  function SafeClose(s: Backend, target: Callback): Backend {
    Kill(Detach(s, target), Targets(s, target))
  }

  function Targets(s: Backend, target: Callback): set<Handle> {
    if Target(s, target).Some? then {Target(s, target).value} else {}
  }

  /** A pending callback runs: it closes whatever now bears its id. */
  function Deliver(s: Backend, callback: Callback): Backend {
    SafeClose(s.(pending := s.pending - {callback}), callback)
  }

  /** The handle a callback would close, if its id is still taken. */
  function Target(s: Backend, callback: Callback): Option<Handle> {
    match callback
    case TransportClosed(id) => if id in s.transports then Some(s.transports[id].handle) else None
    case ProducerClosed(id) => if id in s.producers then Some(s.producers[id].handle) else None
    case ConsumerClosed(id) => if id in s.consumers then Some(s.consumers[id].handle) else None
  }

  /** A late callback closes nothing that is still alive. */
  predicate Quiet(s: Backend, callback: Callback) {
    Target(s, callback).Some? ==> Target(s, callback).value !in s.media
  }

  // ---- Integrity ----

  /** Handles are numbered in order of creation and live on live handles only. */
  ghost predicate MediaSound(s: Backend) {
    && (forall h :: h in s.media ==> h < s.nextHandle && h in s.media[h])
    && (forall h, a :: h in s.media && a in s.media[h] ==> a in s.media && s.media[a] <= s.media[h])
    && (forall h :: h in s.made ==> h < s.nextHandle)
  }

  /** An entry holds the handle made for its id, and nobody has closed that handle. */
  ghost predicate EntriesOwnHandles(s: Backend) {
    && (forall id :: id in s.transports ==>
          s.transports[id].handle in s.made && s.made[s.transports[id].handle] == TransportClosed(id))
    && (forall id :: id in s.producers ==>
          s.producers[id].handle in s.made && s.made[s.producers[id].handle] == ProducerClosed(id))
    && (forall id :: id in s.consumers ==>
          s.consumers[id].handle in s.made && s.made[s.consumers[id].handle] == ConsumerClosed(id))
  }

  /** The server closes no handle twice. */
  ghost predicate ClosedOnce(s: Backend) {
    && (forall i, j :: 0 <= i < j < |s.closed| ==> s.closed[i] != s.closed[j])
    && (forall h :: h in s.closed ==> h in s.made)
    && (forall id :: id in s.transports ==> s.transports[id].handle !in s.closed)
    && (forall id :: id in s.producers ==> s.producers[id].handle !in s.closed)
    && (forall id :: id in s.consumers ==> s.consumers[id].handle !in s.closed)
  }

  /** An entry whose handle is dead has its callback coming, or is the one being closed. */
  ghost predicate DeadAreDue(s: Backend, closing: Option<Callback>) {
    && (forall id :: id in s.transports && s.transports[id].handle !in s.media && closing != Some(TransportClosed(id)) ==>
          TransportClosed(id) in s.pending)
    && (forall id :: id in s.producers && s.producers[id].handle !in s.media && closing != Some(ProducerClosed(id)) ==>
          ProducerClosed(id) in s.pending)
    && (forall id :: id in s.consumers && s.consumers[id].handle !in s.media && closing != Some(ConsumerClosed(id)) ==>
          ConsumerClosed(id) in s.pending)
  }

  /** Every entry belongs to a peer of its room, and every room with peers has a router. */
  ghost predicate EntriesJoined(s: Backend) {
    && (forall r :: r in s.roomPeers ==> r in s.routers)
    && (forall id :: id in s.transports ==> s.transports[id].peerId in PeersIn(s, s.transports[id].roomId))
    && (forall id :: id in s.producers ==> s.producers[id].peerId in PeersIn(s, s.producers[id].roomId))
    && (forall id :: id in s.consumers ==> s.consumers[id].peerId in PeersIn(s, s.consumers[id].roomId))
  }

  ghost predicate TransportLinked(s: Backend, t: TransportEntry)
    requires t.handle in s.media
  {
    && t.roomId in s.routers
    && s.media[t.handle] == {t.handle, s.routers[t.roomId].handle, s.routers[t.roomId].workerHandle}
  }

  ghost predicate ProducerLinked(s: Backend, p: ProducerEntry)
    requires p.handle in s.media
  {
    && p.transportId in s.transports
    && s.transports[p.transportId].roomId == p.roomId
    && s.transports[p.transportId].peerId == p.peerId
    && s.transports[p.transportId].handle in s.media
    && s.media[p.handle] == s.media[s.transports[p.transportId].handle] + {p.handle}
  }

  ghost predicate ConsumerLinked(s: Backend, c: ConsumerEntry)
    requires c.handle in s.media
  {
    && c.transportId in s.transports
    && s.transports[c.transportId].roomId == c.roomId
    && s.transports[c.transportId].peerId == c.peerId
    && s.transports[c.transportId].handle in s.media
    && c.producerId in s.producers
    && s.producers[c.producerId].roomId == c.roomId
    && s.producers[c.producerId].peerId == c.producerPeerId
    && s.producers[c.producerId].handle in s.media
    && s.media[c.handle] == s.media[s.transports[c.transportId].handle] + s.media[s.producers[c.producerId].handle] + {c.handle}
  }

  /** An entry whose handle is alive has everything it lives on in the tables, in the same room and for the same peer. */
  ghost predicate LiveAreLinked(s: Backend) {
    && (forall id :: id in s.transports && s.transports[id].handle in s.media ==> TransportLinked(s, s.transports[id]))
    && (forall id :: id in s.producers && s.producers[id].handle in s.media ==> ProducerLinked(s, s.producers[id]))
    && (forall id :: id in s.consumers && s.consumers[id].handle in s.media ==> ConsumerLinked(s, s.consumers[id]))
  }

  ghost predicate LinksSound(s: Backend) {
    MediaSound(s) && EntriesOwnHandles(s) && EntriesJoined(s) && LiveAreLinked(s)
  }

  ghost predicate TablesSound(s: Backend) {
    LinksSound(s) && ClosedOnce(s) && DeadAreDue(s, None)
  }

  /** No router is closed twice, and none that has been closed is in the table. */
  ghost predicate RoutersClosedOnce(s: Backend) {
    && (forall i, j :: 0 <= i < j < |s.closedRouters| ==> s.closedRouters[i] != s.closedRouters[j])
    && (forall h :: h in s.closedRouters ==> h < s.nextHandle)
    && (forall r :: r in s.routers ==> s.routers[r].handle !in s.closedRouters)
  }

  /** Workers are roots, and no two things share a handle. */
  ghost predicate RootsSound(s: Backend) {
    && (forall w :: w in s.pool ==> s.pool[w] in s.media && s.media[s.pool[w]] == {s.pool[w]} && s.pool[w] !in s.made)
    && (forall w, w' :: w in s.pool && w' in s.pool && s.pool[w] == s.pool[w'] ==> w == w')
    && (forall r :: r in s.routers ==> s.routers[r].handle !in s.made && s.routers[r].handle < s.nextHandle)
    && (forall r, w :: r in s.routers && w in s.pool ==> s.routers[r].handle != s.pool[w])
    && (forall r, r' :: r in s.routers && r' in s.routers && s.routers[r].handle == s.routers[r'].handle ==> r == r')
  }

  ghost predicate RouterLive(s: Backend, roomId: string)
    requires roomId in s.routers
  {
    var router := s.routers[roomId];
    && router.workerId in s.pool
    && s.pool[router.workerId] == router.workerHandle
    && roomId in s.workerByRoom && s.workerByRoom[roomId] == router.workerId
    && router.handle in s.media
    && s.media[router.handle] == {router.handle, router.workerHandle}
  }

  /** Outside `stale` rooms, a router is alive on the pool worker to which its room is assigned. */
  ghost predicate RoutersSound(s: Backend, stale: set<string>) {
    RootsSound(s) && RoutersClosedOnce(s) && forall r :: r in s.routers && r !in stale ==> RouterLive(s, r)
  }

  ghost predicate Sound(s: Backend) {
    TablesSound(s) && RoutersSound(s, {})
  }

  function PeersIn(s: Backend, roomId: string): set<string> {
    if roomId in s.roomPeers then s.roomPeers[roomId] else {}
  }

  /** The parts of soundness, by name. */
  lemma Parts(s: Backend)
    requires Sound(s)
    ensures MediaSound(s) && EntriesOwnHandles(s) && ClosedOnce(s) && DeadAreDue(s, None)
    ensures EntriesJoined(s) && LiveAreLinked(s) && RootsSound(s) && RoutersClosedOnce(s)
    ensures LinksSound(s) && TablesSound(s) && RoutersSound(s, {})
    ensures forall r :: r in s.routers ==> RouterLive(s, r)
  {
  }

  /** What the server promises once no callback is outstanding: every link leads to an entry of the same room. */
  ghost predicate Integrity(s: Backend) {
    && (forall id :: id in s.transports ==>
          s.transports[id].roomId in s.routers && s.transports[id].peerId in PeersIn(s, s.transports[id].roomId))
    && (forall id :: id in s.producers ==>
          && s.producers[id].transportId in s.transports
          && s.transports[s.producers[id].transportId].roomId == s.producers[id].roomId
          && s.transports[s.producers[id].transportId].peerId == s.producers[id].peerId)
    && (forall id :: id in s.consumers ==>
          && s.consumers[id].transportId in s.transports
          && s.transports[s.consumers[id].transportId].roomId == s.consumers[id].roomId
          && s.transports[s.consumers[id].transportId].peerId == s.consumers[id].peerId
          && s.consumers[id].producerId in s.producers
          && s.producers[s.consumers[id].producerId].roomId == s.consumers[id].roomId
          && s.producers[s.consumers[id].producerId].peerId == s.consumers[id].producerPeerId)
  }

  ghost predicate AllLive(s: Backend) {
    && (forall id :: id in s.transports ==> s.transports[id].handle in s.media)
    && (forall id :: id in s.producers ==> s.producers[id].handle in s.media)
    && (forall id :: id in s.consumers ==> s.consumers[id].handle in s.media)
  }

  lemma NothingDueAllLive(s: Backend)
    requires DeadAreDue(s, None) && s.pending == {}
    ensures AllLive(s)
  {
  }

  lemma LinkedIntegrity(s: Backend)
    requires EntriesJoined(s) && LiveAreLinked(s) && AllLive(s)
    ensures Integrity(s)
  {
  }

  /** With no callback outstanding nothing dead is left in the tables, so integrity holds. */
  lemma QuiescentIntegrity(s: Backend)
    requires Sound(s) && s.pending == {}
    ensures AllLive(s) && Integrity(s)
  {
    assert EntriesJoined(s) && LiveAreLinked(s) && DeadAreDue(s, None);
    hide Integrity, AllLive, LinksSound, ClosedOnce, RoutersSound, DeadAreDue, EntriesJoined, LiveAreLinked;
    NothingDueAllLive(s);
    LinkedIntegrity(s);
  }

  // ---- What closing leaves ----

  /** Entries of `next` are entries of `was` not closed; entries of `was` still alive are entries of `next`. */
  ghost predicate TransportsTrimmed(was: Backend, next: Backend, dying: set<Handle>) {
    && (forall id :: id in next.transports ==>
          id in was.transports && next.transports[id] == was.transports[id] && was.transports[id].handle !in dying)
    && (forall id :: id in was.transports && was.transports[id].handle in next.media ==> id in next.transports)
  }

  ghost predicate ProducersTrimmed(was: Backend, next: Backend, dying: set<Handle>) {
    && (forall id :: id in next.producers ==>
          id in was.producers && next.producers[id] == was.producers[id] && was.producers[id].handle !in dying)
    && (forall id :: id in was.producers && was.producers[id].handle in next.media ==> id in next.producers)
  }

  ghost predicate ConsumersTrimmed(was: Backend, next: Backend, dying: set<Handle>) {
    && (forall id :: id in next.consumers ==>
          id in was.consumers && next.consumers[id] == was.consumers[id] && was.consumers[id].handle !in dying)
    && (forall id :: id in was.consumers && was.consumers[id].handle in next.media ==> id in next.consumers)
  }

  /**
   The `dying` handles were closed and any number of callbacks for dead entries ran along the way:
   what lived on them is dead, their entries are gone, no entry that is still alive was lost, and no callback
   is due but those that were and those of what died.
   */
  ghost predicate Shrunk(was: Backend, next: Backend, dying: set<Handle>) {
    && next.media == Survivors(was.media, dying)
    && TransportsTrimmed(was, next, dying)
    && ProducersTrimmed(was, next, dying)
    && ConsumersTrimmed(was, next, dying)
    && next.made == was.made
    && next.nextHandle == was.nextHandle
    && next.pending <= was.pending + CallbacksOf(was, dying)
  }

  ghost predicate SameRooms(was: Backend, next: Backend) {
    && next.pool == was.pool
    && next.workerByRoom == was.workerByRoom
    && next.routers == was.routers
    && next.roomPeers == was.roomPeers
    && next.closedRouters == was.closedRouters
  }

  lemma CallbacksTwice(a: Backend, b: Backend, first: set<Handle>, second: set<Handle>)
    requires b.media == Survivors(a.media, first) && b.made == a.made
    ensures CallbacksOf(a, first) + CallbacksOf(b, second) <= CallbacksOf(a, first + second)
  {
  }

  lemma ShrunkTwice(a: Backend, b: Backend, c: Backend, first: set<Handle>, second: set<Handle>, both: set<Handle>)
    requires Shrunk(a, b, first) && Shrunk(b, c, second) && both == first + second
    ensures Shrunk(a, c, both)
  {
    hide CallbacksOf;
    CallbacksTwice(a, b, first, second);
  }

  lemma MediaStaysSound(was: Backend, next: Backend, dying: set<Handle>)
    requires MediaSound(was) && next.media == Survivors(was.media, dying)
    requires next.made == was.made && next.nextHandle == was.nextHandle
    ensures MediaSound(next)
  {
    forall h, a | h in next.media && a in next.media[h]
      ensures a in next.media && next.media[a] <= next.media[h]
    {
      assert h in was.media && a in was.media && was.media[a] <= was.media[h];
    }
  }

  lemma LinksStaySound(was: Backend, next: Backend, dying: set<Handle>)
    requires MediaSound(was) && LiveAreLinked(was) && Shrunk(was, next, dying) && next.routers == was.routers
    ensures LiveAreLinked(next)
  {
  }

  lemma ShrunkSound(was: Backend, next: Backend, dying: set<Handle>)
    requires LinksSound(was) && Shrunk(was, next, dying) && SameRooms(was, next)
    ensures LinksSound(next)
  {
    MediaStaysSound(was, next, dying);
    LinksStaySound(was, next, dying);
    assert forall r :: PeersIn(next, r) == PeersIn(was, r);
  }

  lemma SafeCloseTrims(s: Backend, target: Callback)
    requires MediaSound(s) && EntriesOwnHandles(s)
    ensures Shrunk(s, SafeClose(s, target), Targets(s, target))
    ensures SameRooms(s, SafeClose(s, target)) && Target(SafeClose(s, target), target).None?
  {
    DetachedCallbacks(s, target);
    hide CallbacksOf;
  }

  lemma DetachedCallbacks(s: Backend, target: Callback)
    ensures CallbacksOf(Detach(s, target), Targets(s, target)) == CallbacksOf(s, Targets(s, target))
  {
  }

  lemma SafeCloseOnce(s: Backend, target: Callback)
    requires EntriesOwnHandles(s) && ClosedOnce(s)
    ensures ClosedOnce(SafeClose(s, target))
  {
  }

  lemma KillDue(s: Backend, dying: set<Handle>)
    requires EntriesOwnHandles(s) && DeadAreDue(s, None)
    ensures DeadAreDue(Kill(s, dying), None)
  {
  }

  lemma SafeCloseDue(s: Backend, target: Callback)
    requires EntriesOwnHandles(s) && DeadAreDue(s, Some(target))
    ensures DeadAreDue(SafeClose(s, target), None)
  {
  }

  /** Closing one thing keeps the tables sound, whatever was alive or dead. */
  lemma SafeCloseSound(s: Backend, target: Callback)
    requires LinksSound(s) && ClosedOnce(s) && DeadAreDue(s, Some(target))
    ensures TablesSound(SafeClose(s, target))
    ensures Shrunk(s, SafeClose(s, target), Targets(s, target))
    ensures SameRooms(s, SafeClose(s, target)) && Target(SafeClose(s, target), target).None?
  {
    hide SafeClose, ClosedOnce, DeadAreDue;
    SafeCloseTrims(s, target);
    SafeCloseOnce(s, target);
    SafeCloseDue(s, target);
    ShrunkSound(s, SafeClose(s, target), Targets(s, target));
  }

  lemma KillSound(s: Backend, dying: set<Handle>)
    requires TablesSound(s) && dying !! s.made.Keys
    ensures TablesSound(Kill(s, dying)) && Shrunk(s, Kill(s, dying), dying) && SameRooms(s, Kill(s, dying))
  {
    assert EntriesOwnHandles(s);
    assert ClosedOnce(Kill(s, dying));
    hide LinksSound, DeadAreDue, Kill, ClosedOnce, EntriesOwnHandles;
    KillTrims(s, dying);
    KillDue(s, dying);
    ShrunkSound(s, Kill(s, dying), dying);
  }

  lemma KillTrims(s: Backend, dying: set<Handle>)
    requires EntriesOwnHandles(s) && dying !! s.made.Keys
    ensures Shrunk(s, Kill(s, dying), dying) && SameRooms(s, Kill(s, dying))
  {
  }

  /** Routers of rooms that lose nothing stay alive. */
  lemma RoutersStaySound(was: Backend, next: Backend, dying: set<Handle>, stale: set<string>)
    requires RoutersSound(was, stale) && next.media == Survivors(was.media, dying)
    requires SameRooms(was, next) && next.made == was.made && next.nextHandle == was.nextHandle
    requires dying <= was.made.Keys
    ensures RoutersSound(next, stale)
  {
  }
}
