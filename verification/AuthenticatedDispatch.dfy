/**
 From a message on a connection to a feature module. The events of one connection are handled one after the
 other, those of different connections interleave; a message first resolves the connection's peer name and
 then is dispatched, and a disconnect first leaves the gateway and then the session store.
 */
module AuthenticatedDispatch {
  import opened MediaTypes
  import opened SessionAuth
  import opened SignalingGateway

  const AUTH_OBJECT := "auth"
  const SESSION_AGENT := "session"

  /** `verified` is the user of a token that verifies and whose session the repository has recorded. */
  datatype Request = Request(objectType: string, agentType: string, actionType: string, verified: Option<string>)

  datatype Verdict = Refused(message: string) | Reaches(objectType: string)

  // ---- One dispatch ----

  function RequireAuthenticatedSession(s: Store, h: SessionHandle, peerId: string, objectType: string): Status {
    if objectType == AUTH_OBJECT then Ok
    else if h !in s.byHandle || !s.byHandle[h].authenticated then
      Failed("Unauthorized. Call auth.bind_session before non-auth actions.")
    else if s.byHandle[h].peerId != peerId then Failed("Auth session peer mismatch.")
    else Ok
  }

  function Dispatch(modules: set<string>, s: Store, h: SessionHandle, peerId: string, r: Request): Verdict {
    if r.objectType == "" || r.actionType == "" then Refused("object and action must not be empty.")
    else if r.objectType !in modules then Refused("No feature module for object: " + r.objectType)
    else
      match RequireAuthenticatedSession(s, h, peerId, r.objectType)
      case Failed(message) => Refused(message)
      case Ok => Reaches(r.objectType)
  }

  /** What a request that reached the auth module makes it do to the sessions. */
  datatype Mark = Keeps | BindsAs(peerId: string, userId: string) | LogsOut

  function AuthMark(h: SessionHandle, peerId: string, r: Request): Mark {
    if (r.agentType != "" && r.agentType != SESSION_AGENT) || h == 0 || peerId == "" then Keeps
    else if r.actionType == "logout_session" then LogsOut
    else if r.actionType != "bind_session" && r.actionType != "restore_session" then Keeps
    else match r.verified
      case None => Keeps
      case Some(userId) => BindsAs(peerId, userId)
  }

  function MarkOf(modules: set<string>, s: Store, h: SessionHandle, peerId: string, r: Request): Mark {
    if Dispatch(modules, s, h, peerId, r) == Reaches(AUTH_OBJECT) then AuthMark(h, peerId, r) else Keeps
  }

  function Marked(s: Store, h: SessionHandle, mark: Mark): Store {
    match mark
    case Keeps => s
    case BindsAs(peerId, userId) => Bind(s, Session(h, peerId, userId, true))
    case LogsOut => Unbind(s, h)
  }

  /** A disconnect is told with a handle, or with a peer whose handle is looked up. */
  function Disconnected(s: Store, peerId: string, h: SessionHandle): Store {
    var resolved := if h == 0 && peerId != "" && peerId in s.peerToHandle then s.peerToHandle[peerId] else h;
    if resolved != 0 then Unbind(s, resolved)
    else if peerId != "" then UnbindPeer(s, peerId)
    else s
  }

  /** Either way exactly the disconnected session goes. */
  lemma DisconnectedSessions(s: Store, peerId: string, h: SessionHandle)
    requires Indexed(s)
    ensures Indexed(Disconnected(s, peerId, h))
    ensures Disconnected(s, peerId, h).byHandle ==
            if h != 0 then s.byHandle - {h}
            else if peerId != "" then s.byHandle - HandlesOfPeer(s.byHandle, peerId)
            else s.byHandle
  {
    PeerHandle(s, peerId);
    UnbindIndexed(s, h);
    if peerId in s.peerToHandle {
      UnbindIndexed(s, s.peerToHandle[peerId]);
    }
    DropPeerIndexed(s, peerId);
  }

  // ---- The world ----

  datatype Stage = Dispatching(peerId: string) | Leaving(peerId: string)

  /** `busy` holds the connections whose handler is between its two halves. */
  datatype World = World(names: Names, store: Store, busy: map<SessionHandle, Stage>)

  const START := World(Names(map[], map[]), EMPTY, map[])

  datatype Step =
    | Connects(h: SessionHandle, word: string)
    | Receives(h: SessionHandle, word: string)
    | Dispatches(h: SessionHandle, request: Request)
    | LeavesGateway(h: SessionHandle)
    | LeavesStore(h: SessionHandle)

  predicate Enabled(w: World, step: Step) {
    step.h != 0 &&
    match step
    case Connects(h, word) => h !in w.busy && (h in w.names.sessionToPeer || Fresh(w.names, word))
    case Receives(h, word) => h !in w.busy && (h in w.names.sessionToPeer || Fresh(w.names, word))
    case Dispatches(h, _) => h in w.busy && w.busy[h].Dispatching?
    case LeavesGateway(h) => h !in w.busy
    case LeavesStore(h) => h in w.busy && w.busy[h].Leaving?
  }

  function PeerOf(n: Names, h: SessionHandle): string {
    if h in n.sessionToPeer then n.sessionToPeer[h] else ""
  }

  function Next(w: World, modules: set<string>, step: Step): World
    requires Enabled(w, step)
  {
    match step
    case Connects(h, word) => w.(names := Resolved(w.names, h, word))
    case Receives(h, word) =>
      var names := Resolved(w.names, h, word);
      w.(names := names, busy := w.busy[h := Dispatching(PeerOf(names, h))])
    case Dispatches(h, r) =>
      w.(store := Marked(w.store, h, MarkOf(modules, w.store, h, w.busy[h].peerId, r)), busy := w.busy - {h})
    case LeavesGateway(h) => w.(names := Departed(w.names, h), busy := w.busy[h := Leaving(PeerOf(w.names, h))])
    case LeavesStore(h) => w.(store := Disconnected(w.store, w.busy[h].peerId, h), busy := w.busy - {h})
  }

  // ---- Runs ----

  predicate IsRun(steps: seq<Step>, modules: set<string>)
    decreases |steps|, 0
  {
    steps == [] ||
    (IsRun(steps[..|steps| - 1], modules) && Enabled(After(steps[..|steps| - 1], modules), steps[|steps| - 1]))
  }

  function After(steps: seq<Step>, modules: set<string>): World
    requires IsRun(steps, modules)
    decreases |steps|, 1
  {
    if steps == [] then START else Next(After(steps[..|steps| - 1], modules), modules, steps[|steps| - 1])
  }

  /** A request that gets to the auth module's session agent. */
  predicate ForSessions(modules: set<string>, r: Request) {
    r.objectType == "auth" && "auth" in modules && (r.agentType == "" || r.agentType == "session")
  }

  /**
   The user a connection is bound to, read from its requests and disconnects alone: that of the last bind or
   restore whose token verified, unless it has logged out or disconnected since.
   */
  function BoundUser(steps: seq<Step>, modules: set<string>, h: SessionHandle): Option<string> {
    if steps == [] then None
    else BoundAfter(BoundUser(steps[..|steps| - 1], modules, h), modules, steps[|steps| - 1], h)
  }

  function BoundAfter(bound: Option<string>, modules: set<string>, step: Step, h: SessionHandle): Option<string> {
    if step.h != h then bound
    else match step
      case Dispatches(_, r) =>
        if !ForSessions(modules, r) then bound
        else if r.actionType == "logout_session" then None
        else if (r.actionType == "bind_session" || r.actionType == "restore_session") && r.verified.Some? then r.verified
        else bound
      case LeavesStore(_) => None
      case _ => bound
  }

  // ---- What every run keeps ----

  /** A connection between its halves has the name it resolved; one on its way out has none. */
  ghost predicate BusySound(w: World) {
    forall h :: h in w.busy ==>
      match w.busy[h]
      case Dispatching(p) => h in w.names.sessionToPeer && w.names.sessionToPeer[h] == p && p != ""
      case Leaving(_) => h !in w.names.sessionToPeer
  }

  predicate IsLeaving(w: World, h: SessionHandle) {
    h in w.busy && w.busy[h].Leaving?
  }

  /** A session in the store belongs to a connection that still has its name, or is on its way out. */
  ghost predicate SessionsNamed(w: World) {
    forall h :: h in w.store.byHandle ==>
      && w.store.byHandle[h].authenticated
      && (IsLeaving(w, h) || (h in w.names.sessionToPeer && w.names.sessionToPeer[h] == w.store.byHandle[h].peerId))
  }

  ghost predicate Sound(w: World) {
    Inverse(w.names) && Indexed(w.store) && BusySound(w) && SessionsNamed(w) && "" !in w.names.peerToSession
  }

  /** Unless it is on its way out, a connection is in the store exactly when it is bound, and for that user. */
  ghost predicate Remembers(w: World, h: SessionHandle, bound: Option<string>) {
    IsLeaving(w, h) || bound == if h in w.store.byHandle then Some(w.store.byHandle[h].userId) else None
  }

  lemma ResolveSound(w: World, h: SessionHandle, word: string)
    requires Sound(w) && h !in w.busy && (h in w.names.sessionToPeer || Fresh(w.names, word))
    ensures Sound(w.(names := Resolved(w.names, h, word)))
  {
  }

  lemma ReceiveSound(w: World, h: SessionHandle)
    requires Sound(w) && h !in w.busy && h in w.names.sessionToPeer
    ensures Sound(w.(busy := w.busy[h := Dispatching(PeerOf(w.names, h))]))
  {
  }

  lemma LeaveGatewaySound(w: World, h: SessionHandle)
    requires Sound(w) && h !in w.busy
    ensures Sound(w.(names := Departed(w.names, h), busy := w.busy[h := Leaving(PeerOf(w.names, h))]))
  {
  }

  /** A bind takes away another connection's session only when that one has already left the gateway. */
  lemma BindEvictsOnlyDeparted(w: World, h: SessionHandle, userId: string, g: SessionHandle)
    requires Sound(w) && h in w.busy && w.busy[h].Dispatching? && g != h && g in w.store.byHandle
    requires g !in Bind(w.store, Session(h, w.busy[h].peerId, userId, true)).byHandle
    ensures g !in w.names.sessionToPeer && IsLeaving(w, g)
  {
    ApplyIndexed(w.store, Binds(Session(h, w.busy[h].peerId, userId, true)));
    hide Indexed, Bind;
    assert w.store.byHandle[g].peerId == w.busy[h].peerId;
  }

  lemma BindSound(w: World, h: SessionHandle, userId: string)
    requires Sound(w) && h in w.busy && w.busy[h].Dispatching?
    ensures var s := Bind(w.store, Session(h, w.busy[h].peerId, userId, true));
            Sound(w.(store := s, busy := w.busy - {h})) && h in s.byHandle && s.byHandle[h] == Session(h, w.busy[h].peerId, userId, true)
    ensures var s := Bind(w.store, Session(h, w.busy[h].peerId, userId, true));
            forall g :: g in s.byHandle && g != h ==> g in w.store.byHandle && s.byHandle[g] == w.store.byHandle[g]
  {
    ApplyIndexed(w.store, Binds(Session(h, w.busy[h].peerId, userId, true)));
    hide Indexed, Bind, Inverse;
  }

  lemma UnbindSound(w: World, h: SessionHandle, s: Store)
    requires Sound(w) && h in w.busy && Indexed(s) && s.byHandle == w.store.byHandle - {h}
    ensures Sound(w.(store := s, busy := w.busy - {h}))
  {
  }

  lemma KeepSound(w: World, h: SessionHandle)
    requires Sound(w) && h in w.busy && w.busy[h].Dispatching?
    ensures Sound(w.(busy := w.busy - {h}))
  {
  }

  lemma DispatchSound(w: World, modules: set<string>, h: SessionHandle, r: Request)
    requires Sound(w) && Enabled(w, Dispatches(h, r))
    ensures Sound(Next(w, modules, Dispatches(h, r)))
    ensures forall g, bound :: Remembers(w, g, bound) ==>
              Remembers(Next(w, modules, Dispatches(h, r)), g, BoundAfter(bound, modules, Dispatches(h, r), g))
  {
    var next := Next(w, modules, Dispatches(h, r));
    assert w.busy[h].peerId != "";
    MarkMeans(modules, w.store, h, w.busy[h].peerId, r);
    hide Sound, Bind, Unbind, MarkOf;
    match MarkOf(modules, w.store, h, w.busy[h].peerId, r) {
      case Keeps => KeepSound(w, h);
      case LogsOut => LogoutSound(w, h);
      case BindsAs(p, userId) =>
        BindSound(w, h, userId);
        forall g | g != h && g in w.store.byHandle && g !in next.store.byHandle ensures IsLeaving(w, g) {
          BindEvictsOnlyDeparted(w, h, userId, g);
        }
    }
  }

  /** What a request on a named connection does to its session. */
  lemma MarkMeans(modules: set<string>, s: Store, h: SessionHandle, peerId: string, r: Request)
    requires h != 0 && peerId != ""
    ensures var mark := MarkOf(modules, s, h, peerId, r);
            && (mark.LogsOut? <==> ForSessions(modules, r) && r.actionType == "logout_session")
            && (mark.BindsAs? <==> ForSessions(modules, r) && r.actionType in {"bind_session", "restore_session"} && r.verified.Some?)
            && (mark.BindsAs? ==> mark.peerId == peerId && Some(mark.userId) == r.verified)
  {
  }

  lemma LogoutSound(w: World, h: SessionHandle)
    requires Sound(w) && h in w.busy
    ensures Sound(w.(store := Unbind(w.store, h), busy := w.busy - {h}))
    ensures Unbind(w.store, h).byHandle == w.store.byHandle - {h}
  {
    UnbindIndexed(w.store, h);
    UnbindSound(w, h, Unbind(w.store, h));
  }

  lemma LeaveStoreSound(w: World, modules: set<string>, h: SessionHandle)
    requires Sound(w) && Enabled(w, LeavesStore(h))
    ensures Sound(Next(w, modules, LeavesStore(h)))
    ensures forall g, bound :: Remembers(w, g, bound) ==>
              Remembers(Next(w, modules, LeavesStore(h)), g, BoundAfter(bound, modules, LeavesStore(h), g))
  {
    DisconnectedSessions(w.store, w.busy[h].peerId, h);
    hide Indexed, Inverse, Disconnected;
    UnbindSound(w, h, Disconnected(w.store, w.busy[h].peerId, h));
  }

  lemma NextSound(w: World, modules: set<string>, step: Step)
    requires Sound(w) && Enabled(w, step)
    ensures Sound(Next(w, modules, step))
    ensures forall g, bound :: Remembers(w, g, bound) ==> Remembers(Next(w, modules, step), g, BoundAfter(bound, modules, step, g))
  {
    match step {
      case Connects(h, word) => ResolveSound(w, h, word);
      case Receives(h, word) =>
        ResolveSound(w, h, word);
        ResolvedInverse(w.names, h, word);
        ReceiveSound(w.(names := Resolved(w.names, h, word)), h);
      case Dispatches(h, r) => DispatchSound(w, modules, h, r);
      case LeavesGateway(h) => LeaveGatewaySound(w, h);
      case LeavesStore(h) => LeaveStoreSound(w, modules, h);
    }
  }

  lemma {:induction false} RunSound(steps: seq<Step>, modules: set<string>, h: SessionHandle)
    requires IsRun(steps, modules)
    ensures Sound(After(steps, modules))
    ensures Remembers(After(steps, modules), h, BoundUser(steps, modules, h))
  {
    if steps != [] {
      hide Sound, Remembers, Next, Enabled, BoundAfter;
      RunSound(steps[..|steps| - 1], modules, h);
      NextSound(After(steps[..|steps| - 1], modules), modules, steps[|steps| - 1]);
    }
  }

  /**
   Over every interleaving: a request reaches its module if and only if module and action exist and, unless it
   is for auth, its connection is bound, that is, the last bind or restore it sent had a token that verifies and
   it has neither logged out nor disconnected since.
   */
  lemma DispatchIffLastBound(steps: seq<Step>, modules: set<string>, h: SessionHandle, r: Request)
    requires IsRun(steps, modules) && Enabled(After(steps, modules), Dispatches(h, r))
    ensures var w := After(steps, modules);
            Dispatch(modules, w.store, h, w.busy[h].peerId, r) == Reaches(r.objectType) <==>
            && r.objectType != "" && r.actionType != "" && r.objectType in modules
            && (r.objectType == "auth" || BoundUser(steps, modules, h).Some?)
  {
    RunSound(steps, modules, h);
    hide Inverse, Indexed, BoundUser;
  }

  /** And its session is the bound user's, under the name the connection bears in the gateway. */
  lemma BoundSession(steps: seq<Step>, modules: set<string>, h: SessionHandle)
    requires IsRun(steps, modules) && h in After(steps, modules).busy && After(steps, modules).busy[h].Dispatching?
    ensures var w := After(steps, modules);
            match BoundUser(steps, modules, h)
            case None => h !in w.store.byHandle
            case Some(u) => h in w.store.byHandle && w.store.byHandle[h] == Session(h, w.busy[h].peerId, u, true)
  {
    RunSound(steps, modules, h);
    hide Inverse, BoundUser;
  }

  /** The gateway's two maps undo each other throughout, and no request is refused for a peer mismatch. */
  lemma NamesStayInverse(steps: seq<Step>, modules: set<string>, h: SessionHandle)
    requires IsRun(steps, modules)
    ensures var w := After(steps, modules);
            && Inverse(w.names)
            && (h in w.busy && w.busy[h].Dispatching? && h in w.store.byHandle ==> w.store.byHandle[h].peerId == w.busy[h].peerId)
  {
    RunSound(steps, modules, h);
    hide Inverse, Indexed, BoundUser;
  }

  /** In a run, a successful bind that costs another connection its session finds that one gone from the gateway. */
  lemma EvictedHasLeft(steps: seq<Step>, modules: set<string>, h: SessionHandle, r: Request, g: SessionHandle)
    requires IsRun(steps, modules) && Enabled(After(steps, modules), Dispatches(h, r)) && g != h
    requires g in After(steps, modules).store.byHandle
    requires g !in Next(After(steps, modules), modules, Dispatches(h, r)).store.byHandle
    ensures g !in After(steps, modules).names.sessionToPeer
  {
    RunSound(steps, modules, h);
    var w := After(steps, modules);
    assert w.busy[h].peerId != "";
    MarkMeans(modules, w.store, h, w.busy[h].peerId, r);
    hide Sound, BoundUser, Bind, After, MarkOf;
    match MarkOf(modules, w.store, h, w.busy[h].peerId, r) {
      case BindsAs(p, userId) => BindEvictsOnlyDeparted(w, h, userId, g);
      case _ =>
    }
  }

  // ---- The application core in place ----

  class ApplicationApi {
    const sessions: SessionAuthStore
    var modules: set<string>

    constructor (sessions: SessionAuthStore, modules: set<string>)
      ensures this.sessions == sessions && this.modules == modules
    {
      this.sessions, this.modules := sessions, modules;
    }

    method DispatchFeature(h: SessionHandle, peerId: string, r: Request) returns (verdict: Verdict)
      ensures verdict == Dispatch(modules, sessions.State(), h, peerId, r)
    {
      if r.objectType == "" || r.actionType == "" {
        return Refused("object and action must not be empty.");
      }
      if r.objectType !in modules {
        return Refused("No feature module for object: " + r.objectType);
      }
      if r.objectType != AUTH_OBJECT {
        if h !in sessions.byHandle || !sessions.byHandle[h].authenticated {
          return Refused("Unauthorized. Call auth.bind_session before non-auth actions.");
        }
        if sessions.byHandle[h].peerId != peerId {
          return Refused("Auth session peer mismatch.");
        }
      }
      return Reaches(r.objectType);
    }

    method NotifySessionDisconnected(peerId: string, h: SessionHandle)
      requires Indexed(sessions.State())
      modifies sessions
      ensures sessions.State() == Disconnected(old(sessions.State()), peerId, h) && Indexed(sessions.State())
    {
      ghost var s := sessions.State();
      DisconnectedSessions(s, peerId, h);
      var resolved := h;
      if resolved == 0 && peerId != "" && peerId in sessions.peerToHandle {
        resolved := sessions.peerToHandle[peerId];
      }
      hide Indexed;
      if resolved != 0 {
        sessions.UnbindSession(resolved);
      } else if peerId != "" {
        sessions.UnbindPeerSession(peerId);
      }
    }
  }
}
