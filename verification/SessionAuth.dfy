/**
 Who is authenticated on which connection: sessions by handle, and three indexes kept beside them. The
 indexes always say what the sessions say, so the store behaves as the one map of sessions.
 */
module SessionAuth {
  import opened MediaTypes

  type SessionHandle = nat

  /** Tokens, device and database ids do not matter to the indexes. */
  datatype Session = Session(handle: SessionHandle, peerId: string, userId: string, authenticated: bool)

  type Sessions = map<SessionHandle, Session>

  datatype Store = Store(
    byHandle: Sessions,
    peerToHandle: map<string, SessionHandle>,
    userToHandles: map<string, set<SessionHandle>>,
    userToPeers: map<string, set<string>>)

  const EMPTY := Store(map[], map[], map[], map[])

  // ---- The operations, branch by branch ----

  function Insert<T>(buckets: map<string, set<T>>, key: string, x: T): map<string, set<T>> {
    buckets[key := (if key in buckets then buckets[key] else {}) + {x}]
  }

  /** Takes `x` out of a bucket, and the bucket out of the map once it is empty. */
  function Erase<T>(buckets: map<string, set<T>>, key: string, x: T): map<string, set<T>> {
    if key !in buckets then buckets
    else if buckets[key] - {x} == {} then buckets - {key}
    else buckets[key := buckets[key] - {x}]
  }

  function RemoveIndexes(s: Store, session: Session): Store {
    var s1 := s.(peerToHandle := s.peerToHandle - {session.peerId});
    if session.userId == "" then s1
    else s1.(userToHandles := Erase(s1.userToHandles, session.userId, session.handle),
             userToPeers := Erase(s1.userToPeers, session.userId, session.peerId))
  }

  function Removed(s: Store, handle: SessionHandle): Store
    requires handle in s.byHandle
  {
    var s1 := RemoveIndexes(s, s.byHandle[handle]);
    s1.(byHandle := s1.byHandle - {handle})
  }

  function Unbind(s: Store, handle: SessionHandle): Store {
    if handle in s.byHandle then Removed(s, handle) else s
  }

  /** Also used when a peer comes back under another handle; an index entry without a session is just dropped. */
  function DropPeer(s: Store, peerId: string): Store {
    if peerId !in s.peerToHandle then s
    else if s.peerToHandle[peerId] in s.byHandle then Removed(s, s.peerToHandle[peerId])
    else s.(peerToHandle := s.peerToHandle - {peerId})
  }

  function UnbindPeer(s: Store, peerId: string): Store {
    if peerId == "" then s else DropPeer(s, peerId)
  }

  function Added(s: Store, session: Session): Store {
    var s1 := s.(byHandle := s.byHandle[session.handle := session],
                 peerToHandle := s.peerToHandle[session.peerId := session.handle]);
    if session.userId == "" then s1
    else s1.(userToHandles := Insert(s1.userToHandles, session.userId, session.handle),
             userToPeers := Insert(s1.userToPeers, session.userId, session.peerId))
  }

  function Bind(s: Store, session: Session): Store {
    Added(DropPeer(Unbind(s, session.handle), session.peerId), session)
  }

  // ---- What the indexes should say ----

  function HandlesOf(sessions: Sessions, userId: string): set<SessionHandle> {
    set h | h in sessions && sessions[h].userId == userId
  }

  function PeersOf(sessions: Sessions, userId: string): set<string> {
    set h | h in sessions && sessions[h].userId == userId :: sessions[h].peerId
  }

  function Users(sessions: Sessions): set<string> {
    set h | h in sessions && sessions[h].userId != "" :: sessions[h].userId
  }

  /** Each session is filed under its own handle, and no two share a peer. */
  ghost predicate OnePerPeer(sessions: Sessions) {
    && (forall h :: h in sessions ==> sessions[h].handle == h)
    && (forall h, g :: h in sessions && g in sessions && sessions[h].peerId == sessions[g].peerId ==> h == g)
  }

  ghost predicate PeerIndex(sessions: Sessions, index: map<string, SessionHandle>) {
    && (forall h :: h in sessions ==> sessions[h].peerId in index && index[sessions[h].peerId] == h)
    && (forall p :: p in index ==> index[p] in sessions && sessions[index[p]].peerId == p)
  }

  ghost predicate PeersIndexed(s: Store) {
    PeerIndex(s.byHandle, s.peerToHandle)
  }

  function Bucket<T>(buckets: map<string, set<T>>, key: string): set<T> {
    if key in buckets then buckets[key] else {}
  }

  ghost predicate NoEmptyBuckets<T>(buckets: map<string, set<T>>) {
    forall u :: u in buckets ==> u != "" && buckets[u] != {}
  }

  /** The two user indexes say what the sessions say, and keep no empty bucket. */
  ghost predicate UsersIndexed(s: Store) {
    && NoEmptyBuckets(s.userToHandles) && NoEmptyBuckets(s.userToPeers)
    && (forall u :: u != "" ==> Bucket(s.userToHandles, u) == HandlesOf(s.byHandle, u))
    && (forall u :: u != "" ==> Bucket(s.userToPeers, u) == PeersOf(s.byHandle, u))
  }

  ghost predicate Indexed(s: Store) {
    OnePerPeer(s.byHandle) && PeersIndexed(s) && UsersIndexed(s)
  }

  /** Put otherwise: the user indexes are what one would recompute from the sessions. */
  lemma IndexesRecomputed(s: Store)
    requires Indexed(s)
    ensures s.userToHandles == map u | u in Users(s.byHandle) :: HandlesOf(s.byHandle, u)
    ensures s.userToPeers == map u | u in Users(s.byHandle) :: PeersOf(s.byHandle, u)
  {
    assert UsersIndexed(s);
    hide Users, HandlesOf, PeersOf, OnePerPeer, PeersIndexed;
    forall u
      ensures u in s.userToHandles <==> u in Users(s.byHandle)
      ensures u in s.userToPeers <==> u in Users(s.byHandle)
    {
      KnownUser(s.byHandle, u);
      assert u != "" ==> Bucket(s.userToHandles, u) == HandlesOf(s.byHandle, u) && Bucket(s.userToPeers, u) == PeersOf(s.byHandle, u);
    }
    assert forall u :: u in s.userToHandles ==> s.userToHandles[u] == Bucket(s.userToHandles, u);
    assert forall u :: u in s.userToPeers ==> s.userToPeers[u] == Bucket(s.userToPeers, u);
  }

  lemma KnownUser(sessions: Sessions, u: string)
    ensures u in Users(sessions) <==> u != "" && HandlesOf(sessions, u) != {}
    ensures u in Users(sessions) <==> u != "" && PeersOf(sessions, u) != {}
  {
    if h :| h in sessions && sessions[h].userId == u && u != "" {
      assert h in HandlesOf(sessions, u) && sessions[h].peerId in PeersOf(sessions, u);
    }
  }

  // ---- The indexes follow ----

  lemma Erased<T>(buckets: map<string, set<T>>, key: string, x: T)
    requires NoEmptyBuckets(buckets)
    ensures NoEmptyBuckets(Erase(buckets, key, x))
    ensures forall u :: Bucket(Erase(buckets, key, x), u) == Bucket(buckets, u) - if u == key then {x} else {}
  {
  }

  lemma Inserted<T>(buckets: map<string, set<T>>, key: string, x: T)
    requires NoEmptyBuckets(buckets) && key != ""
    ensures NoEmptyBuckets(Insert(buckets, key, x))
    ensures forall u :: Bucket(Insert(buckets, key, x), u) == Bucket(buckets, u) + if u == key then {x} else {}
  {
  }

  lemma SessionsWithout(sessions: Sessions, handle: SessionHandle, u: string)
    requires OnePerPeer(sessions) && handle in sessions
    ensures HandlesOf(sessions - {handle}, u) == HandlesOf(sessions, u) - if u == sessions[handle].userId then {handle} else {}
    ensures PeersOf(sessions - {handle}, u) ==
            PeersOf(sessions, u) - if u == sessions[handle].userId then {sessions[handle].peerId} else {}
  {
    var rest := sessions - {handle};
    forall p | p in PeersOf(sessions, u) && (u == sessions[handle].userId ==> p != sessions[handle].peerId)
      ensures p in PeersOf(rest, u)
    {
      var h :| h in sessions && sessions[h].userId == u && sessions[h].peerId == p;
      assert h in rest && rest[h] == sessions[h];
    }
  }

  lemma PeerIndexWithout(sessions: Sessions, index: map<string, SessionHandle>, handle: SessionHandle)
    requires OnePerPeer(sessions) && PeerIndex(sessions, index) && handle in sessions
    ensures OnePerPeer(sessions - {handle}) && PeerIndex(sessions - {handle}, index - {sessions[handle].peerId})
  {
  }

  lemma RemovedPeers(s: Store, handle: SessionHandle)
    requires OnePerPeer(s.byHandle) && PeersIndexed(s) && handle in s.byHandle
    ensures OnePerPeer(Removed(s, handle).byHandle) && PeersIndexed(Removed(s, handle))
  {
    hide Erase, OnePerPeer, PeerIndex;
    PeerIndexWithout(s.byHandle, s.peerToHandle, handle);
  }

  lemma RemovedUsers(s: Store, handle: SessionHandle)
    requires OnePerPeer(s.byHandle) && UsersIndexed(s) && handle in s.byHandle
    ensures UsersIndexed(Removed(s, handle))
  {
    var session := s.byHandle[handle];
    assert session.handle == handle;
    Erased(s.userToHandles, session.userId, session.handle);
    Erased(s.userToPeers, session.userId, session.peerId);
    hide Erase, Bucket, NoEmptyBuckets, OnePerPeer, HandlesOf, PeersOf;
    forall u | u != ""
      ensures Bucket(Removed(s, handle).userToHandles, u) == HandlesOf(s.byHandle - {handle}, u)
      ensures Bucket(Removed(s, handle).userToPeers, u) == PeersOf(s.byHandle - {handle}, u)
    {
      SessionsWithout(s.byHandle, handle, u);
    }
  }

  lemma RemovedIndexed(s: Store, handle: SessionHandle)
    requires Indexed(s) && handle in s.byHandle
    ensures Indexed(Removed(s, handle)) && Removed(s, handle).byHandle == s.byHandle - {handle}
  {
    hide PeersIndexed, UsersIndexed, OnePerPeer, Erase;
    RemovedPeers(s, handle);
    RemovedUsers(s, handle);
  }

  lemma SessionsWith(sessions: Sessions, session: Session, u: string)
    requires session.handle !in sessions
    ensures var more := sessions[session.handle := session];
            && HandlesOf(more, u) == HandlesOf(sessions, u) + (if u == session.userId then {session.handle} else {})
            && PeersOf(more, u) == PeersOf(sessions, u) + if u == session.userId then {session.peerId} else {}
  {
    var more := sessions[session.handle := session];
    forall p | p in PeersOf(sessions, u) ensures p in PeersOf(more, u) {
      var h :| h in sessions && sessions[h].userId == u && sessions[h].peerId == p;
      assert more[h] == sessions[h];
    }
    assert more[session.handle] == session;
  }

  lemma AddedUsers(s: Store, session: Session)
    requires UsersIndexed(s) && session.handle !in s.byHandle
    ensures UsersIndexed(Added(s, session))
  {
    if session.userId != "" {
      Inserted(s.userToHandles, session.userId, session.handle);
      Inserted(s.userToPeers, session.userId, session.peerId);
    }
    hide Insert, Bucket, NoEmptyBuckets, HandlesOf, PeersOf;
    forall u | u != ""
      ensures Bucket(Added(s, session).userToHandles, u) == HandlesOf(s.byHandle[session.handle := session], u)
      ensures Bucket(Added(s, session).userToPeers, u) == PeersOf(s.byHandle[session.handle := session], u)
    {
      SessionsWith(s.byHandle, session, u);
    }
  }

  lemma AddedPeers(s: Store, session: Session)
    requires OnePerPeer(s.byHandle) && PeersIndexed(s) && session.handle !in s.byHandle && session.peerId !in s.peerToHandle
    ensures OnePerPeer(Added(s, session).byHandle) && PeersIndexed(Added(s, session))
  {
  }

  lemma AddedIndexed(s: Store, session: Session)
    requires Indexed(s) && session.handle !in s.byHandle && session.peerId !in s.peerToHandle
    ensures Indexed(Added(s, session)) && Added(s, session).byHandle == s.byHandle[session.handle := session]
  {
    hide PeersIndexed, UsersIndexed, OnePerPeer, Insert;
    AddedPeers(s, session);
    AddedUsers(s, session);
  }

  // ---- The store is one map ----

  /** Sessions of a peer. There is at most one. */
  function HandlesOfPeer(sessions: Sessions, peerId: string): set<SessionHandle> {
    set h | h in sessions && sessions[h].peerId == peerId
  }

  datatype Op = Binds(session: Session) | Unbinds(handle: SessionHandle) | UnbindsPeer(peerId: string)

  function Apply(s: Store, op: Op): Store {
    match op
    case Binds(session) => Bind(s, session)
    case Unbinds(handle) => Unbind(s, handle)
    case UnbindsPeer(peerId) => UnbindPeer(s, peerId)
  }

  /** The same operations on a map of sessions alone. */
  function ApplyToSessions(sessions: Sessions, op: Op): Sessions {
    match op
    case Binds(session) => (sessions - {session.handle} - HandlesOfPeer(sessions, session.peerId))[session.handle := session]
    case Unbinds(handle) => sessions - {handle}
    case UnbindsPeer(peerId) => if peerId == "" then sessions else sessions - HandlesOfPeer(sessions, peerId)
  }

  lemma UnbindIndexed(s: Store, handle: SessionHandle)
    requires Indexed(s)
    ensures Indexed(Unbind(s, handle)) && Unbind(s, handle).byHandle == s.byHandle - {handle}
  {
    hide Removed;
    if handle in s.byHandle {
      RemovedIndexed(s, handle);
    }
  }

  lemma PeerHandle(s: Store, peerId: string)
    requires Indexed(s)
    ensures peerId in s.peerToHandle ==>
              s.peerToHandle[peerId] in s.byHandle && HandlesOfPeer(s.byHandle, peerId) == {s.peerToHandle[peerId]}
    ensures peerId !in s.peerToHandle ==> HandlesOfPeer(s.byHandle, peerId) == {}
  {
  }

  /** The branch for an index entry without a session is never taken. */
  lemma DropPeerIndexed(s: Store, peerId: string)
    requires Indexed(s)
    ensures peerId in s.peerToHandle ==> s.peerToHandle[peerId] in s.byHandle
    ensures Indexed(DropPeer(s, peerId))
    ensures DropPeer(s, peerId).byHandle == s.byHandle - HandlesOfPeer(s.byHandle, peerId)
    ensures peerId !in DropPeer(s, peerId).peerToHandle
  {
    PeerHandle(s, peerId);
    hide Removed, HandlesOfPeer;
    if peerId in s.peerToHandle {
      RemovedIndexed(s, s.peerToHandle[peerId]);
    }
    DroppedPeerGone(DropPeer(s, peerId), s, peerId);
  }

  lemma DroppedPeerGone(next: Store, s: Store, peerId: string)
    requires Indexed(next) && next.byHandle == s.byHandle - HandlesOfPeer(s.byHandle, peerId)
    ensures peerId !in next.peerToHandle
  {
  }

  lemma ApplyIndexed(s: Store, op: Op)
    requires Indexed(s)
    ensures Indexed(Apply(s, op)) && Apply(s, op).byHandle == ApplyToSessions(s.byHandle, op)
  {
    hide Indexed, Removed, DropPeer, Added;
    match op {
      case Binds(session) =>
        hide Unbind;
        var s1 := Unbind(s, session.handle);
        UnbindIndexed(s, session.handle);
        DropPeerIndexed(s1, session.peerId);
        var s2 := DropPeer(s1, session.peerId);
        AddedIndexed(s2, session);
        assert s2.byHandle == s.byHandle - {session.handle} - HandlesOfPeer(s.byHandle, session.peerId);
      case Unbinds(handle) => UnbindIndexed(s, handle);
      case UnbindsPeer(peerId) => DropPeerIndexed(s, peerId);
    }
  }

  function After(ops: seq<Op>): Store {
    if ops == [] then EMPTY else Apply(After(ops[..|ops| - 1]), ops[|ops| - 1])
  }

  function SessionsAfter(ops: seq<Op>): Sessions {
    if ops == [] then map[] else ApplyToSessions(SessionsAfter(ops[..|ops| - 1]), ops[|ops| - 1])
  }

  /**
   After any operations the four maps agree, and the sessions are those of the one-map store. In particular
   handles and peers are in bijection and every indexed handle has its session.
   */
  lemma {:induction false} IndexesAlwaysAgree(ops: seq<Op>)
    ensures Indexed(After(ops)) && After(ops).byHandle == SessionsAfter(ops)
    ensures forall p :: p in After(ops).peerToHandle ==> After(ops).peerToHandle[p] in After(ops).byHandle
    ensures After(ops).userToHandles == map u | u in Users(SessionsAfter(ops)) :: HandlesOf(SessionsAfter(ops), u)
    ensures After(ops).userToPeers == map u | u in Users(SessionsAfter(ops)) :: PeersOf(SessionsAfter(ops), u)
  {
    if ops != [] {
      hide Apply, ApplyToSessions;
      IndexesAlwaysAgree(ops[..|ops| - 1]);
      ApplyIndexed(After(ops[..|ops| - 1]), ops[|ops| - 1]);
    }
    IndexesRecomputed(After(ops));
  }

  // ---- The store in place ----

  class SessionAuthStore {
    var byHandle: Sessions
    var peerToHandle: map<string, SessionHandle>
    var userToHandles: map<string, set<SessionHandle>>
    var userToPeers: map<string, set<string>>

    function State(): Store
      reads this
    {
      Store(byHandle, peerToHandle, userToHandles, userToPeers)
    }

    constructor ()
      ensures State() == EMPTY && Indexed(State())
    {
      byHandle, peerToHandle, userToHandles, userToPeers := map[], map[], map[], map[];
    }

    method RemoveIndexesNoLock(session: Session)
      modifies this`peerToHandle, this`userToHandles, this`userToPeers
      ensures State() == RemoveIndexes(old(State()), session)
    {
      peerToHandle := peerToHandle - {session.peerId};
      if session.userId != "" {
        if session.userId in userToHandles {
          userToHandles := userToHandles[session.userId := userToHandles[session.userId] - {session.handle}];
          if userToHandles[session.userId] == {} {
            userToHandles := userToHandles - {session.userId};
          }
        }
        if session.userId in userToPeers {
          userToPeers := userToPeers[session.userId := userToPeers[session.userId] - {session.peerId}];
          if userToPeers[session.userId] == {} {
            userToPeers := userToPeers - {session.userId};
          }
        }
      }
    }

    /** What a new session displaces: whatever its handle had, then whatever its peer had. */
    method Displace(session: Session)
      modifies this
      ensures State() == DropPeer(Unbind(old(State()), session.handle), session.peerId)
    {
      ghost var s := State();
      if session.handle in byHandle {
        RemoveIndexesNoLock(byHandle[session.handle]);
        byHandle := byHandle - {session.handle};
      }
      assert State() == Unbind(s, session.handle);
      hide Unbind, RemoveIndexes;
      if session.peerId in peerToHandle {
        var handle := peerToHandle[session.peerId];
        if handle in byHandle {
          RemoveIndexesNoLock(byHandle[handle]);
          byHandle := byHandle - {handle};
        } else {
          peerToHandle := peerToHandle - {session.peerId};
        }
      }
    }

    method BindSession(session: Session)
      modifies this
      ensures State() == Apply(old(State()), Binds(session))
      ensures Indexed(old(State())) ==> Indexed(State())
    {
      hide Indexed, DropPeer, Unbind;
      ghost var s := State();
      Displace(session);
      byHandle := byHandle[session.handle := session];
      peerToHandle := peerToHandle[session.peerId := session.handle];
      if session.userId != "" {
        var handles := if session.userId in userToHandles then userToHandles[session.userId] else {};
        userToHandles := userToHandles[session.userId := handles + {session.handle}];
        var peers := if session.userId in userToPeers then userToPeers[session.userId] else {};
        userToPeers := userToPeers[session.userId := peers + {session.peerId}];
      }
      if Indexed(s) {
        ApplyIndexed(s, Binds(session));
      }
    }

    method UnbindSession(handle: SessionHandle)
      modifies this
      ensures State() == Apply(old(State()), Unbinds(handle))
      ensures Indexed(old(State())) ==> Indexed(State())
    {
      ghost var s := State();
      if handle in byHandle {
        RemoveIndexesNoLock(byHandle[handle]);
        byHandle := byHandle - {handle};
      }
      if Indexed(s) {
        ApplyIndexed(s, Unbinds(handle));
      }
    }

    method UnbindPeerSession(peerId: string)
      modifies this
      ensures State() == Apply(old(State()), UnbindsPeer(peerId))
      ensures Indexed(old(State())) ==> Indexed(State())
    {
      ghost var s := State();
      if peerId != "" && peerId in peerToHandle {
        var handle := peerToHandle[peerId];
        if handle in byHandle {
          RemoveIndexesNoLock(byHandle[handle]);
          byHandle := byHandle - {handle};
        } else {
          peerToHandle := peerToHandle - {peerId};
        }
      }
      if Indexed(s) {
        ApplyIndexed(s, UnbindsPeer(peerId));
      }
    }

    method ResolvePeersForUser(userId: string) returns (peers: seq<string>)
      requires Indexed(State())
      ensures userId != "" ==> Enumerates(peers, PeersOf(byHandle, userId))
      ensures userId == "" ==> peers == []
    {
      assert userId != "" ==> Bucket(userToPeers, userId) == PeersOf(byHandle, userId);
      peers := [];
      if userId !in userToPeers {
        return;
      }
      var bucket := userToPeers[userId];
      hide Indexed, PeersOf;
      var remaining := bucket;
      while remaining != {}
        invariant remaining <= bucket && Enumerates(peers, bucket - remaining)
        decreases remaining
      {
        var peer :| peer in remaining;
        EnumeratesMore(peers, bucket - remaining, peer);
        remaining := remaining - {peer};
        peers := peers + [peer];
        assert bucket - remaining == bucket - (remaining + {peer}) + {peer};
      }
      assert bucket - remaining == bucket;
    }

    /** The sessions of a user, each once; an indexed handle without a session would be skipped. */
    method ListSessionsForUser(userId: string) returns (result: seq<Session>)
      requires Indexed(State())
      ensures userId != "" ==> Enumerates(result, SessionsOf(byHandle, userId))
      ensures userId == "" ==> result == []
    {
      assert userId != "" ==> Bucket(userToHandles, userId) == HandlesOf(byHandle, userId);
      result := [];
      if userId !in userToHandles {
        assert userId != "" ==> HandlesOf(byHandle, userId) == {};
        NoSessions(byHandle, userId);
        return;
      }
      var bucket := userToHandles[userId];
      ghost var sessions := byHandle;
      assert OnePerPeer(sessions);
      hide Indexed, HandlesOf, OnePerPeer, SessionsAt, SessionsOf;
      var remaining := bucket;
      SessionsAtNone(sessions);
      while remaining != {}
        invariant remaining <= bucket && Enumerates(result, SessionsAt(sessions, bucket - remaining))
        decreases remaining
      {
        var handle :| handle in remaining;
        SessionsAtMore(sessions, bucket - remaining, handle);
        remaining := remaining - {handle};
        assert bucket - remaining == bucket - (remaining + {handle}) + {handle};
        if handle in byHandle {
          EnumeratesMore(result, SessionsAt(sessions, bucket - (remaining + {handle})), byHandle[handle]);
          result := result + [byHandle[handle]];
        }
      }
      assert bucket - remaining == bucket;
      SessionsAtUser(sessions, userId);
    }
  }

  function SessionsOf(sessions: Sessions, userId: string): set<Session> {
    set h | h in sessions && sessions[h].userId == userId :: sessions[h]
  }

  function SessionsAt(sessions: Sessions, handles: set<SessionHandle>): set<Session> {
    set h | h in handles && h in sessions :: sessions[h]
  }

  lemma SessionsAtNone(sessions: Sessions)
    ensures SessionsAt(sessions, {}) == {}
  {
  }

  lemma SessionsAtMore(sessions: Sessions, handles: set<SessionHandle>, handle: SessionHandle)
    requires OnePerPeer(sessions) && handle !in handles
    ensures SessionsAt(sessions, handles + {handle}) == SessionsAt(sessions, handles) + if handle in sessions then {sessions[handle]} else {}
    ensures handle in sessions ==> sessions[handle] !in SessionsAt(sessions, handles)
  {
  }

  lemma SessionsAtUser(sessions: Sessions, userId: string)
    ensures SessionsAt(sessions, HandlesOf(sessions, userId)) == SessionsOf(sessions, userId)
  {
  }

  lemma NoSessions(sessions: Sessions, userId: string)
    requires userId != "" ==> HandlesOf(sessions, userId) == {}
    ensures userId != "" ==> SessionsOf(sessions, userId) == {}
  {
    assert forall h :: h in sessions && sessions[h].userId == userId ==> h in HandlesOf(sessions, userId);
  }

  /** Every element of the set, each once. */
  ghost predicate Enumerates<T(!new)>(list: seq<T>, all: set<T>) {
    && (forall x :: x in list <==> x in all)
    && (forall i, j :: 0 <= i < j < |list| ==> list[i] != list[j])
  }

  lemma EnumeratesMore<T(!new)>(list: seq<T>, all: set<T>, x: T)
    requires Enumerates(list, all) && x !in all
    ensures Enumerates(list + [x], all + {x})
  {
  }
}
