/**
 When the two sides are equal, exactly. A close callback names an id, not a handle; if it comes so late that
 the id has been taken again, it closes the new entry, and the engine is not told. So equality holds as long
 as nothing closes by itself and no command takes an id whose callback is still due, and no longer.
 */
module SfuMirrorEquality {
  import opened MediaTypes
  import E = SfuEngine
  import EngineRuns = SfuEngineRuns
  import opened SfuBackend
  import opened SfuBackendClosing
  import opened SfuBackendOps
  import opened SfuBackendOpsSound
  import opened SfuMirror

  /** A live handle with a callback is held by the entry of its id. */
  ghost predicate LiveHeld(s: Backend) {
    forall h :: h in s.media && h in s.made ==> Target(s, s.made[h]) == Some(h)
  }

  /** No due callback would find a live entry. */
  ghost predicate DueAreQuiet(s: Backend) {
    forall callback :: callback in s.pending ==> Quiet(s, callback)
  }

  /** The callback of the id that a command takes, if the engine passes it on and the server accepts. */
  function TakenId(e: E.Engine, step: Step): Option<Callback> {
    if !step.ClientCommand? || !E.PlanOf(e, step.input).Call? || !step.reply.Accepted? || !step.input.Execute? then None
    else match step.input.intent
      case OpenTransport => Some(TransportClosed(step.input.command.transportId))
      case PublishTrack => Some(ProducerClosed(step.input.command.producerId))
      case ConsumeTrack =>
        (match step.reply.data.consumerId
         case Some(id) => Some(ConsumerClosed(id))
         case None => None)
      case _ => None
  }

  /** An open, publish or consume takes an id whose callback is still due. */
  predicate TakesDueId(w: World, step: Step) {
    TakenId(w.engine, step).Some? && TakenId(w.engine, step).value in w.server.pending
  }

  // ---- Closing ----

  lemma ShrunkHeld(was: Backend, next: Backend, dying: set<Handle>)
    requires LiveHeld(was) && Shrunk(was, next, dying)
    ensures LiveHeld(next)
  {
    forall h | h in next.media && h in next.made
      ensures Target(next, next.made[h]) == Some(h)
    {
      assert Target(was, was.made[h]) == Some(h);
    }
  }

  lemma ShrunkQuiet(was: Backend, next: Backend, dying: set<Handle>)
    requires LiveHeld(was) && DueAreQuiet(was) && Shrunk(was, next, dying)
    ensures DueAreQuiet(next)
  {
    forall callback | callback in next.pending
      ensures Quiet(next, callback)
    {
      if callback in was.pending {
        assert Quiet(was, callback);
      } else {
        DueOfTheDead(was, next, dying, callback);
      }
    }
  }

  /** A callback that has just become due belongs to the entry that died. */
  lemma DueOfTheDead(was: Backend, next: Backend, dying: set<Handle>, callback: Callback)
    requires LiveHeld(was) && Shrunk(was, next, dying) && callback in CallbacksOf(was, dying)
    ensures Quiet(next, callback)
  {
    var h :| h in was.media && !(was.media[h] !! dying) && h in was.made && was.made[h] == callback;
    assert Target(was, callback) == Some(h);
    TargetsOnlyShrink(was, next, dying);
  }

  // ---- Adding ----

  ghost predicate KeepsQuiet(was: Backend, next: Backend) {
    LiveHeld(was) ==> LiveHeld(next) && (DueAreQuiet(was) ==> DueAreQuiet(next))
  }

  lemma NewHandleQuiet(was: Backend, next: Backend)
    requires MediaSound(was) && EntriesOwnHandles(was) && NewHandle(was, next)
    requires next.transports == was.transports && next.producers == was.producers && next.consumers == was.consumers
    requires next.made == was.made && next.pending == was.pending
    ensures KeepsQuiet(was, next)
  {
    HandlesExist(was);
    hide EntriesOwnHandles;
    assert forall t :: Target(next, t) == Target(was, t);
    assert forall t :: Target(was, t).Some? ==> Target(was, t).value < was.nextHandle;
    assert forall h :: h in was.made ==> h < was.nextHandle;
    hide MediaSound, Target;
  }

  lemma AddedQuiet(was: Backend, next: Backend, target: Callback)
    requires MediaSound(was) && EntriesOwnHandles(was) && Target(was, target).None?
    requires NewHandle(was, next) && next.pending == was.pending && next.made == was.made[was.nextHandle := target]
    requires forall t :: Target(next, t) == if t == target then Some(was.nextHandle) else Target(was, t)
    ensures LiveHeld(was) ==> LiveHeld(next)
    ensures LiveHeld(was) && DueAreQuiet(was) && target !in was.pending ==> DueAreQuiet(next)
  {
    HandlesExist(was);
    assert forall t :: Target(was, t).Some? ==> Target(was, t).value < was.nextHandle;
    assert forall h :: h in was.made ==> h < was.nextHandle;
    hide MediaSound, Target, EntriesOwnHandles;
    if LiveHeld(was) {
      forall h | h in next.media && h in next.made ensures Target(next, next.made[h]) == Some(h) {
        if h != was.nextHandle {
          assert Target(was, was.made[h]) == Some(h);
        }
      }
    }
    if DueAreQuiet(was) && target !in was.pending {
      forall t | t in next.pending ensures Quiet(next, t) {
        assert Quiet(was, t);
      }
    }
  }

  lemma AddTransportQuiet(s: Backend, c: Command)
    requires MediaSound(s) && EntriesOwnHandles(s) && c.roomId in s.routers && c.transportId !in s.transports
    ensures LiveHeld(s) ==> LiveHeld(AddTransport(s, c))
    ensures LiveHeld(s) && DueAreQuiet(s) && TransportClosed(c.transportId) !in s.pending ==> DueAreQuiet(AddTransport(s, c))
  {
    var next := AddTransport(s, c);
    hide MediaSound, EntriesOwnHandles;
    AddedQuiet(s, next, TransportClosed(c.transportId));
  }

  lemma AddProducerQuiet(s: Backend, c: Command, trackType: string)
    requires MediaSound(s) && EntriesOwnHandles(s) && c.producerId !in s.producers
    requires c.transportId in s.transports && s.transports[c.transportId].handle in s.media
    ensures LiveHeld(s) ==> LiveHeld(AddProducer(s, c, trackType))
    ensures LiveHeld(s) && DueAreQuiet(s) && ProducerClosed(c.producerId) !in s.pending ==> DueAreQuiet(AddProducer(s, c, trackType))
  {
    hide MediaSound, EntriesOwnHandles;
    AddedQuiet(s, AddProducer(s, c, trackType), ProducerClosed(c.producerId));
  }

  lemma AddConsumerQuiet(s: Backend, c: Command, consumerId: string)
    requires MediaSound(s) && EntriesOwnHandles(s) && consumerId !in s.consumers
    requires c.transportId in s.transports && s.transports[c.transportId].handle in s.media
    requires c.producerId in s.producers && s.producers[c.producerId].handle in s.media
    ensures LiveHeld(s) ==> LiveHeld(AddConsumer(s, c, consumerId))
    ensures LiveHeld(s) && DueAreQuiet(s) && ConsumerClosed(consumerId) !in s.pending ==> DueAreQuiet(AddConsumer(s, c, consumerId))
  {
    hide MediaSound, EntriesOwnHandles;
    AddedQuiet(s, AddConsumer(s, c, consumerId), ConsumerClosed(consumerId));
  }

  lemma RouterQuiet(s: Backend, roomId: string, o: Oracle)
    requires Sound(s)
    ensures KeepsQuiet(s, EnsureRoomRouter(s, roomId, o).0)
  {
    hide EnsureRoomRouter, Sound, MediaSound, EntriesOwnHandles, ClosedOnce, DeadAreDue, LinksSound, TablesSound, RoutersSound;
    hide KeepsQuiet;
    Parts(s);
    EnsureRoomRouterSound(s, roomId, o);
    NewHandleQuiet(s, EnsureRoomRouter(s, roomId, o).0);
  }

  /** Who has joined does not matter to callbacks. */
  lemma AddPeerQuiet(s: Backend, roomId: string, peerId: string)
    ensures KeepsQuiet(s, AddPeer(s, roomId, peerId))
  {
    assert forall t :: Target(AddPeer(s, roomId, peerId), t) == Target(s, t);
  }

  lemma WorkerQuiet(s: Backend, workerId: string)
    requires Sound(s)
    ensures KeepsQuiet(s, AddWorker(s, workerId))
  {
    hide Sound, MediaSound, EntriesOwnHandles, ClosedOnce, DeadAreDue, LinksSound, TablesSound, RoutersSound, KeepsQuiet;
    Parts(s);
    NewHandleQuiet(s, AddWorker(s, workerId));
  }

  // ---- Every operation ----

  lemma JoinQuiet(s: Backend, c: Command, o: Oracle)
    requires Sound(s)
    ensures KeepsQuiet(s, JoinPeerOp(s, c, o).0)
  {
    hide Sound, EnsureRoomRouter, LiveHeld, DueAreQuiet, AddPeer;
    RouterQuiet(s, c.roomId, o);
    AddPeerQuiet(EnsureRoomRouter(s, c.roomId, o).0, c.roomId, c.peerId);
  }

  lemma OpenQuiet(s: Backend, c: Command, o: Oracle)
    requires Sound(s) && LiveHeld(s)
    ensures var (next, data) := CreateTransportOp(s, c, o);
            LiveHeld(next) && (DueAreQuiet(s) && (data.Some? ==> TransportClosed(c.transportId) !in s.pending) ==> DueAreQuiet(next))
  {
    hide Sound, EnsureRoomRouter, LiveHeld, DueAreQuiet, AddTransport, MediaSound, EntriesOwnHandles, ClosedOnce, DeadAreDue;
    hide LinksSound, TablesSound, RoutersSound;
    var s1 := EnsureRoomRouter(s, c.roomId, o).0;
    RouterQuiet(s, c.roomId, o);
    EnsureRoomRouterSound(s, c.roomId, o);
    Parts(s1);
    if CreateTransportOp(s, c, o).1.Some? {
      AddTransportQuiet(s1, c);
    }
  }

  lemma ProduceQuiet(s: Backend, c: Command, o: Oracle)
    requires Sound(s) && LiveHeld(s)
    ensures var (next, data) := ProduceOp(s, c, o);
            LiveHeld(next) && (DueAreQuiet(s) && (data.Some? ==> ProducerClosed(c.producerId) !in s.pending) ==> DueAreQuiet(next))
  {
    hide Sound, LiveHeld, DueAreQuiet, AddProducer, MediaSound, EntriesOwnHandles, ClosedOnce, DeadAreDue;
    hide LinksSound, TablesSound, RoutersSound;
    Parts(s);
    if ProduceOp(s, c, o).1.Some? {
      AddProducerQuiet(s, c, if c.trackType != "" then c.trackType else DefaultTrackType(c.kind));
    }
  }

  lemma ConsumeQuiet(s: Backend, c: Command, o: Oracle)
    requires Sound(s) && LiveHeld(s)
    ensures var (next, data) := ConsumeOp(s, c, o);
            && LiveHeld(next)
            && (data.Some? ==> data.value.consumerId.Some?)
            && (DueAreQuiet(s) && (data.Some? ==> ConsumerClosed(data.value.consumerId.value) !in s.pending) ==> DueAreQuiet(next))
  {
    hide Sound, LiveHeld, DueAreQuiet, AddConsumer, MediaSound, EntriesOwnHandles, ClosedOnce, DeadAreDue;
    hide LinksSound, TablesSound, RoutersSound;
    Parts(s);
    if ConsumeOp(s, c, o).1.Some? {
      AddConsumerQuiet(s, c, if c.consumerId != "" then c.consumerId else c.producerId + "-consumer-" + o.generatedId);
    }
  }

  lemma LeaveQuiet(s: Backend, c: Command, next: Backend, reply: Reply)
    requires Leaves(s, c, next, reply)
    ensures KeepsQuiet(s, next)
  {
    hide Sound, Shrunk, LiveHeld, DueAreQuiet, LeaveHandles, RoomGone;
    if LiveHeld(s) && next != s {
      ShrunkHeld(s, next, LeaveHandles(s, c.roomId, c.peerId));
      if DueAreQuiet(s) { ShrunkQuiet(s, next, LeaveHandles(s, c.roomId, c.peerId)); }
    }
  }

  lemma ShrunkKeepsQuiet(s: Backend, next: Backend, dying: set<Handle>)
    requires Shrunk(s, next, dying)
    ensures KeepsQuiet(s, next)
  {
    hide Shrunk, LiveHeld, DueAreQuiet;
    if LiveHeld(s) {
      ShrunkHeld(s, next, dying);
      if DueAreQuiet(s) { ShrunkQuiet(s, next, dying); }
    }
  }

  /** The id an operation takes, if it answers. */
  function TakenBy(operation: Operation, c: Command, reply: Reply): Option<Callback> {
    if !reply.Accepted? then None
    else match operation
      case CreateWebRtcTransport => Some(TransportClosed(c.transportId))
      case Produce => Some(ProducerClosed(c.producerId))
      case Consume =>
        (match reply.data.consumerId
         case Some(id) => Some(ConsumerClosed(id))
         case None => None)
      case _ => None
  }

  lemma HandlesQuiet(s: Backend, operation: Operation, c: Command, o: Oracle, next: Backend, reply: Reply)
    requires Sound(s) && LiveHeld(s) && Handles(s, operation, c, o, next, reply)
    ensures LiveHeld(next)
    ensures DueAreQuiet(s) && (TakenBy(operation, c, reply).Some? ==> TakenBy(operation, c, reply).value !in s.pending) ==> DueAreQuiet(next)
  {
    hide Sound, Shrunk, LiveHeld, DueAreQuiet, JoinPeerOp, CreateTransportOp, ProduceOp, ConsumeOp, EnsureRoomRouter, Leaves, Answer;
    hide HandlesFor;
    if o.handled {
      match operation {
        case CreateRouter => RouterQuiet(s, c.roomId, o);
        case JoinPeer => JoinQuiet(s, c, o);
        case LeavePeer => LeaveQuiet(s, c, next, reply);
        case ClosePeer => LeaveQuiet(s, c, next, reply);
        case CreateWebRtcTransport => OpenQuiet(s, c, o);
        case Produce => ProduceQuiet(s, c, o);
        case Consume => ConsumeQuiet(s, c, o);
        case CloseProducer =>
          if next != s { ShrunkKeepsQuiet(s, next, HandlesFor(s, ProducerTree(s, c.producerId))); }
        case _ =>
      }
    }
  }

  lemma TakenIsTaken(e: E.Engine, input: E.Input, o: Oracle, reply: Reply, order: seq<string>)
    requires E.PlanOf(e, input).Call?
    ensures TakenBy(E.PlanOf(e, input).operation, E.PlanOf(e, input).sent, reply) == TakenId(e, ClientCommand(input, o, reply, order))
  {
    PlannedCall(e, input);
    hide E.PlanOf;
  }

  lemma StepQuiet(w: World, step: Step, w': World)
    requires Sound(w.server) && LiveHeld(w.server) && Steps(w, step, w')
    ensures LiveHeld(w'.server)
    ensures DueAreQuiet(w.server) && !TakesDueId(w, step) ==> DueAreQuiet(w'.server)
  {
    hide Sound, LiveHeld, DueAreQuiet, Shrunk, Handles, E.PlanOf, TakenId, TakenBy, WorkerHandles, RoomTargets;
    match step {
      case ClientCommand(input, o, reply, order) =>
        if E.PlanOf(w.engine, input).Call? {
          var plan := E.PlanOf(w.engine, input);
          TakenIsTaken(w.engine, input, o, reply, order);
          HandlesQuiet(w.server, plan.operation, plan.sent, o, w'.server, reply);
        }
      case CallbackRuns(callback) => ShrunkKeepsQuiet(w.server, w'.server, Targets(w.server, callback));
      case ClosesItself(target) => ShrunkKeepsQuiet(w.server, w'.server, Targets(w.server, target));
      case WorkerDies(id) => ShrunkKeepsQuiet(w.server, w'.server, WorkerHandles(w.server, id));
      case WorkerStarts(id) => WorkerQuiet(w.server, id);
    }
  }

  // ---- Runs ----

  /** Nothing closes by itself and no worker dies, and no command takes an id whose callback is still due. */
  ghost predicate Undisturbed(run: seq<Moment>) {
    forall i :: 0 <= i < |run| ==> !Spontaneous(run[i].step) && !TakesDueId(run[i].before, run[i].step)
  }

  lemma {:induction false} HeldAlways(run: seq<Moment>)
    requires IsRun(run)
    ensures LiveHeld(WorldAfter(run).server)
  {
    if run != [] {
      hide Sound, Contained, LiveHeld, Steps, TakesDueId;
      var last := run[|run| - 1];
      HeldAlways(run[..|run| - 1]);
      ServerWithinEngine(run[..|run| - 1]);
      StepQuiet(last.before, last.step, last.after);
    }
  }

  /** In an undisturbed run the engine's maps are exactly what is alive on the server, and no callback will change that. */
  lemma {:induction false} EngineAgreesWithServer(run: seq<Moment>)
    requires IsRun(run) && Undisturbed(run)
    ensures Agrees(WorldAfter(run)) && DueAreQuiet(WorldAfter(run).server)
  {
    if run == [] {
      EmptyMirrored();
    } else {
      hide Sound, Contained, Agrees, LiveHeld, Steps, TakesDueId, Spontaneous, Quiet;
      var earlier, last := run[..|run| - 1], run[|run| - 1];
      EngineAgreesWithServer(earlier);
      ServerWithinEngine(earlier);
      HeldAlways(earlier);
      StepQuiet(last.before, last.step, last.after);
      StepIsQuiet(last.before, last.step, last.after);
      StepMirrored(last.before, last.step, last.after);
    }
  }

  lemma StepIsQuiet(w: World, step: Step, w': World)
    requires DueAreQuiet(w.server) && Steps(w, step, w')
    ensures step.CallbackRuns? ==> Quiet(w.server, step.callback)
  {
    hide Commanded, CloseEffect, WorkerDeathEffect, Quiet;
  }

  /** So once an undisturbed run has no callback outstanding, both sides have the same members. */
  lemma QuiescentMembers(run: seq<Moment>)
    requires IsRun(run) && Undisturbed(run)
    ensures forall r :: PeersIn(WorldAfter(run).server, r) == E.MembersOf(WorldAfter(run).engine, r)
  {
    hide IsRun, Undisturbed, LiveTransports, LiveProducers, LiveConsumers, ConsumerLinks;
    EngineAgreesWithServer(run);
  }

  lemma TransportsLive(s: Backend)
    requires AllLive(s)
    ensures LiveTransports(s) == map id | id in s.transports :: E.Transport(s.transports[id].roomId, s.transports[id].peerId)
  {
  }

  lemma ProducersLive(s: Backend)
    requires AllLive(s)
    ensures LiveProducers(s) == map id | id in s.producers :: ProducerView(s.producers[id])
  {
    hide ProducerView;
  }

  lemma ConsumersLive(s: Backend)
    requires AllLive(s)
    ensures LiveConsumers(s) == map id | id in s.consumers :: ConsumerView(s.consumers[id])
  {
    hide ConsumerView;
  }

  /** And the same transports, producers and consumers, with the same rooms, peers and links. */
  lemma QuiescentEquality(run: seq<Moment>)
    requires IsRun(run) && Undisturbed(run) && WorldAfter(run).server.pending == {}
    ensures var s := WorldAfter(run).server;
            var e := WorldAfter(run).engine;
            && e.transports == (map id | id in s.transports :: E.Transport(s.transports[id].roomId, s.transports[id].peerId))
            && e.producers == (map id | id in s.producers :: ProducerView(s.producers[id]))
            && ConsumerLinks(e) == (map id | id in s.consumers :: ConsumerView(s.consumers[id]))
  {
    hide Sound, IsRun, Undisturbed, LiveTransports, LiveProducers, LiveConsumers, ConsumerLinks, MembersAgree, Contained;
    hide AllLive, Integrity, ProducerView, ConsumerView, DueAreQuiet;
    ServerWithinEngine(run);
    EngineAgreesWithServer(run);
    QuiescentIntegrity(WorldAfter(run).server);
    TransportsLive(WorldAfter(run).server);
    ProducersLive(WorldAfter(run).server);
    ConsumersLive(WorldAfter(run).server);
  }

  // ---- The converse ----

  predicate HasLive(s: Backend, target: Callback) {
    Target(s, target).Some? && Target(s, target).value in s.media
  }

  lemma HandlesTakes(s: Backend, operation: Operation, c: Command, o: Oracle, next: Backend, reply: Reply)
    requires Sound(s) && Handles(s, operation, c, o, next, reply) && TakenBy(operation, c, reply).Some?
    ensures next.pending == s.pending && HasLive(next, TakenBy(operation, c, reply).value)
  {
    hide Sound, EnsureRoomRouter;
    if operation.CreateWebRtcTransport? {
      EnsureRoomRouterSound(s, c.roomId, o);
    }
  }

  /** When the server loses an entry the engine knows, they no longer agree. */
  lemma LossDisagrees(w: World, w': World, target: Callback)
    requires Agrees(w) && w'.engine == w.engine && HasLive(w.server, target) && Target(w'.server, target).None?
    ensures !Agrees(w')
  {
    match target {
      case TransportClosed(id) => assert id in LiveTransports(w.server) && id !in LiveTransports(w'.server);
      case ProducerClosed(id) => assert id in LiveProducers(w.server) && id !in LiveProducers(w'.server);
      case ConsumerClosed(id) => assert id in LiveConsumers(w.server) && id !in LiveConsumers(w'.server);
    }
  }

  /** A due callback can always run: this is what it leaves. */
  lemma CanDeliver(w: World, callback: Callback)
    requires Sound(w.server) && callback in w.server.pending
    ensures Steps(w, CallbackRuns(callback), World(w.engine, Deliver(w.server, callback)))
    ensures Target(Deliver(w.server, callback), callback).None?
  {
    var s, next := w.server, Deliver(w.server, callback);
    hide Sound, Shrunk, TablesSound, LinksSound, ClosedOnce, DeadAreDue, RoutersSound, RouterLive, RootsSound, SameRooms, Target;
    hide EntriesJoined, LiveAreLinked, EntriesOwnHandles, MediaSound, SafeClose, HandlesFor, Targets;
    Parts(s);
    DeliverySound(s, callback);
    DropSound(s, callback);
    SafeCloseSound(Drop(s, callback), callback);
    OneHandle(s, callback);
    StillSound(s, next, {callback});
  }

  /** After a command has taken a due id, that callback's delivery ends the agreement. */
  lemma DueIdLosesAgreement(run: seq<Moment>, step: Step, next: World)
    requires IsRun(run) && Undisturbed(run) && Steps(WorldAfter(run), step, next)
    requires TakesDueId(WorldAfter(run), step)
    ensures var callback := TakenId(WorldAfter(run).engine, step).value;
            var last := World(next.engine, Deliver(next.server, callback));
            Steps(next, CallbackRuns(callback), last) && !Agrees(last)
  {
    hide Sound, Contained, Agrees, IsRun, Undisturbed, Handles, E.PlanOf, DueAreQuiet, CloseEffect, Deliver, HasLive, Target;
    ServerWithinEngine(run);
    EngineAgreesWithServer(run);
    var w := WorldAfter(run);
    StepMirrored(w, step, next);
    var plan := E.PlanOf(w.engine, step.input);
    TakenIsTaken(w.engine, step.input, step.oracle, step.reply, step.order);
    HandlesTakes(w.server, plan.operation, plan.sent, step.oracle, next.server, step.reply);
    var callback := TakenId(w.engine, step).value;
    CanDeliver(next, callback);
    LossDisagrees(next, World(next.engine, Deliver(next.server, callback)), callback);
  }

  /**
   Exactly when a step of an undisturbed run is safe, whatever callback runs next: when it does not take an id
   whose callback is still due.
   */
  lemma AgreementSurvivesIff(run: seq<Moment>, step: Step, next: World)
    requires IsRun(run) && Undisturbed(run) && Steps(WorldAfter(run), step, next) && !Spontaneous(step)
    ensures (forall callback, last :: Steps(next, CallbackRuns(callback), last) ==> Agrees(last))
            <==> !TakesDueId(WorldAfter(run), step)
  {
    hide Sound, Contained, Agrees, LiveHeld, DueAreQuiet, IsRun, Undisturbed, TakenId, Steps, Quiet, Deliver;
    var w := WorldAfter(run);
    if TakesDueId(w, step) {
      DueIdLosesAgreement(run, step, next);
    } else {
      ServerWithinEngine(run);
      EngineAgreesWithServer(run);
      HeldAlways(run);
      StepQuiet(w, step, next);
      StepIsQuiet(w, step, next);
      StepMirrored(w, step, next);
      forall callback, last | Steps(next, CallbackRuns(callback), last) ensures Agrees(last) {
        StepIsQuiet(next, CallbackRuns(callback), last);
        StepMirrored(next, CallbackRuns(callback), last);
      }
    }
  }

  /** A transport, producer or consumer that closes by itself ends the agreement exactly if it was alive. */
  lemma ClosingItselfIff(w: World, w': World, target: Callback)
    requires Sound(w.server) && Contained(w) && Agrees(w) && Steps(w, ClosesItself(target), w')
    ensures Agrees(w') <==> !HasLive(w.server, target)
  {
    hide Sound, Contained, Agrees, SameRooms;
    if HasLive(w.server, target) {
      TargetClosed(w.server, w'.server, target);
      LossDisagrees(w, w', target);
    } else {
      ClosedMirrored(w, w', target);
    }
  }

  lemma TargetClosed(s: Backend, next: Backend, target: Callback)
    requires Shrunk(s, next, Targets(s, target))
    ensures Target(next, target).None?
  {
  }

  lemma WorkerDeathDisagrees(w: World, w': World, workerId: string, roomId: string)
    requires Agrees(w) && Steps(w, WorkerDies(workerId), w')
    requires roomId in RoomsOn(w.server, workerId) && PeersIn(w.server, roomId) != {}
    ensures !Agrees(w')
  {
    hide Sound, Shrunk, WorkerHandles, RoomTargets, LiveTransports, LiveProducers, LiveConsumers;
    assert PeersIn(w'.server, roomId) == {};
    assert E.MembersOf(w.engine, roomId) == PeersIn(w.server, roomId);
  }

  /** A worker none of whose rooms has peers. */
  predicate Idle(s: Backend, workerId: string) {
    forall r :: r in RoomsOn(s, workerId) ==> PeersIn(s, r) == {}
  }

  /** Nothing is held in its rooms, so only itself and its routers die. */
  lemma IdleHandles(s: Backend, workerId: string)
    requires EntriesJoined(s) && workerId in s.pool && Idle(s, workerId)
    ensures forall h :: h in WorkerHandles(s, workerId) ==>
              h == s.pool[workerId] || exists r :: r in RoomsOn(s, workerId) && h == s.routers[r].handle
    ensures forall id :: id in s.transports ==> s.transports[id].roomId !in RoomsOn(s, workerId)
  {
    forall r | r in RoomsOn(s, workerId) ensures RoomTargets(s, r) == {} {
      assert PeersIn(s, r) == {};
    }
    hide RoomTargets, Target, EntriesJoined;
    assert forall r :: r in RoomsOn(s, workerId) ==> RoomHandles(s, r) == {s.routers[r].handle};
  }

  /** Another worker's rooms lose neither router nor worker. */
  lemma OthersSpared(s: Backend, workerId: string, roomId: string)
    requires Sound(s) && workerId in s.pool && Idle(s, workerId) && roomId in s.routers && roomId !in RoomsOn(s, workerId)
    ensures s.routers[roomId].handle !in WorkerHandles(s, workerId) && s.routers[roomId].workerHandle !in WorkerHandles(s, workerId)
  {
    hide MediaSound, EntriesOwnHandles, ClosedOnce, DeadAreDue, EntriesJoined, LiveAreLinked, LinksSound, TablesSound, RoutersSound;
    hide Sound, WorkerHandles, RoutersClosedOnce;
    Parts(s);
    IdleHandles(s, workerId);
    RouterNotHeld(s, roomId, {});
    assert RouterLive(s, roomId);
  }

  lemma EntriesSpared(s: Backend, workerId: string, target: Callback)
    requires Sound(s) && workerId in s.pool && Idle(s, workerId) && Target(s, target).Some?
    ensures Target(s, target).value !in WorkerHandles(s, workerId)
  {
    hide MediaSound, EntriesOwnHandles, ClosedOnce, DeadAreDue, EntriesJoined, LiveAreLinked, LinksSound, TablesSound, RoutersSound;
    hide Sound, WorkerHandles, RoutersClosedOnce, RootsSound, RouterLive, Target, Idle;
    Parts(s);
    IdleHandles(s, workerId);
    RootsHeldByNobody(s, target);
  }

  lemma IdleTransportsLive(s: Backend, next: Backend, workerId: string)
    requires Sound(s) && workerId in s.pool && Idle(s, workerId) && Shrunk(s, next, WorkerHandles(s, workerId))
    ensures LiveTransports(next) == LiveTransports(s)
  {
    hide MediaSound, EntriesOwnHandles, ClosedOnce, DeadAreDue, EntriesJoined, LinksSound, TablesSound, RoutersSound;
    hide Sound, WorkerHandles, RoutersClosedOnce, RootsSound, RouterLive, Shrunk, Idle, RoomsOn;
    Parts(s);
    IdleHandles(s, workerId);
    forall id | id in LiveTransports(s) ensures id in LiveTransports(next) {
      assert TransportLinked(s, s.transports[id]);
      TransportDies(s, next, WorkerHandles(s, workerId), id);
      EntriesSpared(s, workerId, TransportClosed(id));
      OthersSpared(s, workerId, s.transports[id].roomId);
    }
    ShrunkLive(s, next, WorkerHandles(s, workerId));
  }

  lemma IdleLive(s: Backend, next: Backend, workerId: string)
    requires Sound(s) && workerId in s.pool && Idle(s, workerId) && Shrunk(s, next, WorkerHandles(s, workerId))
    ensures SameLive(s, next)
  {
    hide MediaSound, EntriesOwnHandles, ClosedOnce, DeadAreDue, EntriesJoined, LinksSound, TablesSound, RoutersSound, LiveAreLinked;
    hide Sound, WorkerHandles, RoutersClosedOnce, RootsSound, RouterLive, Shrunk, Idle, RoomsOn, LiveTransports;
    Parts(s);
    IdleTransportsLive(s, next, workerId);
    forall id | id in LiveProducers(s) ensures id in LiveProducers(next) {
      ProducerDies(s, next, WorkerHandles(s, workerId), id);
      EntriesSpared(s, workerId, ProducerClosed(id));
    }
    forall id | id in LiveConsumers(s) ensures id in LiveConsumers(next) {
      ConsumerDies(s, next, WorkerHandles(s, workerId), id);
      EntriesSpared(s, workerId, ConsumerClosed(id));
    }
    ShrunkLive(s, next, WorkerHandles(s, workerId));
  }

  /** A worker that dies ends the agreement exactly if one of its rooms has peers. */
  lemma WorkerDeathIff(w: World, w': World, workerId: string)
    requires Sound(w.server) && Agrees(w) && Steps(w, WorkerDies(workerId), w')
    ensures Agrees(w') <==> forall r :: r in RoomsOn(w.server, workerId) ==> PeersIn(w.server, r) == {}
  {
    if Idle(w.server, workerId) {
      hide Sound, Shrunk, WorkerHandles, RoomTargets, SameLive, Agrees;
      assert forall r :: PeersIn(w'.server, r) == PeersIn(w.server, r);
      IdleLive(w.server, w'.server, workerId);
      SameAgrees(w, w');
    } else {
      hide Sound, Agrees, Steps;
      var r :| r in RoomsOn(w.server, workerId) && PeersIn(w.server, r) != {};
      WorkerDeathDisagrees(w, w', workerId, r);
    }
  }

  // ---- A run in which it happens ----

  const COMMAND := Command(1, "a", "r", "t", "p", "", "audio", "microphone", "")
  const ALL_WELL := Oracle(true, "w", true, true, true, true, "")
  const PRODUCED := ReplyData(Some("audio"), Some("microphone"), None, None)

  const S1 := AddWorker(EMPTY, "w")
  const S2 := AddRouter(S1, "r", "w")
  const S3 := AddPeer(S2, "r", "a")
  const S4 := AddTransport(S3, COMMAND)
  const S5 := AddProducer(S4, COMMAND, "microphone")
  const S6 := SafeClose(S5, ProducerClosed("p"))
  const S7 := AddProducer(S6, COMMAND, "microphone")

  const E2 := E.EMPTY.(rooms := map["r" := {}])
  const E3 := E2.(rooms := map["r" := {"a"}], peers := map["a" := E.Peer("r", 1)])
  const E4 := E3.(transports := map["t" := E.Transport("r", "a")])
  const E5 := E4.(producers := map["p" := E.Producer("r", "a", "t", "audio", "microphone")])

  function Says(intent: Intent, data: ReplyData): Step {
    ClientCommand(E.Execute(intent, COMMAND, Ok), ALL_WELL, Accepted(data), [])
  }

  ghost predicate EngineDoes(e: E.Engine, intent: Intent, data: ReplyData, e': E.Engine) {
    var input := E.Execute(intent, COMMAND, Ok);
    && !E.IsLeave(input)
    && E.PlanOf(e, input) == E.Call(OperationFor(intent), COMMAND, COMMAND)
    && E.Perform(e, input, Accepted(data), []).engine == e'
  }

  lemma BothDo(e: E.Engine, s: Backend, intent: Intent, data: ReplyData, e': E.Engine, s': Backend)
    requires EngineDoes(e, intent, data, e') && Operates(s, OperationFor(intent), COMMAND, ALL_WELL, s', Accepted(data))
    ensures Steps(World(e, s), Says(intent, data), World(e', s'))
  {
    hide E.PlanOf, E.Perform, Operates;
  }

  lemma EngineCreates()
    ensures EngineDoes(E.EMPTY, CreateRoom, NO_DATA, E2)
  {
  }

  lemma EngineJoins()
    ensures EngineDoes(E2, JoinSession, NO_DATA, E3)
  {
    assert {} + {"a"} == {"a"};
  }

  lemma EngineOpens()
    ensures EngineDoes(E3, OpenTransport, NO_DATA, E4)
  {
  }

  lemma EnginePublishes()
    ensures EngineDoes(E4, PublishTrack, PRODUCED, E5)
  {
  }

  lemma EngineCloses()
    ensures EngineDoes(E5, CloseTrack, NO_DATA, E4)
  {
    assert E.CommitTrackChange(E5, COMMAND, CloseTrack).engine == E4;
  }

  lemma ServerTables()
    ensures S1.pool == map["w" := 0] && S2.pool == S1.pool && S2.media == map[0 := {0}, 1 := {0, 1}]
    ensures S2.routers == map["r" := RouterEntry("w", 0, 1)] && S2.workerByRoom == map["r" := "w"]
    ensures S3 == S2.(roomPeers := map["r" := {"a"}]) && S3.transports == map[]
    ensures S1.pending == {} && S2.pending == {} && S3.pending == {}
    ensures S4.transports == map["t" := TransportEntry("r", "a", 2)] && 2 in S4.media && S4.producers == map[]
    ensures S4.roomPeers == S3.roomPeers && S4.made == map[2 := TransportClosed("t")] && S4.consumers == map[]
    ensures S4.nextHandle == 3 && S4.media[2] == {0, 1, 2} && S4.pending == {}
  {
    assert S1.media == map[0 := {0}];
    assert {1, 0} == {0, 1} && {1, 0} + {2} == {0, 1, 2};
    assert {} + {"a"} == {"a"};
  }

  lemma ServerGrows()
    ensures Operates(S1, CreateRouter, COMMAND, ALL_WELL, S2, Accepted(NO_DATA))
    ensures Operates(S2, JoinPeer, COMMAND, ALL_WELL, S3, Accepted(NO_DATA))
    ensures Operates(S3, CreateWebRtcTransport, COMMAND, ALL_WELL, S4, Accepted(NO_DATA))
  {
    ServerTables();
    hide AddRouter, AddPeer, AddTransport;
  }

  lemma ProducerTables()
    ensures S5.producers == map["p" := ProducerEntry("r", "a", "t", "audio", "microphone", 3)] && 3 in S5.media
    ensures 3 in S5.made && S5.made[3] == ProducerClosed("p") && S5.media[3] == {0, 1, 2, 3} && S5.media[2] == {0, 1, 2}
    ensures S5.transports == S4.transports && S5.roomPeers == S4.roomPeers && S5.consumers == map[] && 2 in S5.media
    ensures S5.pending == {}
  {
    ServerTables();
    hide AddRouter, AddPeer, AddTransport;
    assert {0, 1, 2} + {3} == {0, 1, 2, 3};
  }

  lemma ServerPublishes()
    ensures Operates(S4, Produce, COMMAND, ALL_WELL, S5, Accepted(PRODUCED))
  {
    ServerTables();
    hide AddRouter, AddPeer, AddTransport, AddProducer;
  }

  lemma ClosedTables()
    ensures S6.producers == map[] && ProducerClosed("p") in S6.pending && S6.transports == S4.transports
    ensures 2 in S6.media && S6.roomPeers == S4.roomPeers && S5.producers["p"].handle == 3
  {
    ProducerTables();
    hide AddRouter, AddPeer, AddTransport, AddProducer;
    assert Targets(S5, ProducerClosed("p")) == {3};
    assert S5.media[2] !! {3} && !(S5.media[3] !! {3});
    assert ProducerClosed("p") in CallbacksOf(S5, {3});
  }

  lemma ServerCloses()
    requires Sound(S5)
    ensures Operates(S5, CloseProducer, COMMAND, ALL_WELL, S6, Accepted(NO_DATA))
  {
    ProducerTables();
    hide AddProducer, Sound, TablesSound, LinksSound, RoutersSound, Shrunk, SafeClose, HandlesFor, SameRooms;
    hide MediaSound, EntriesOwnHandles, ClosedOnce, DeadAreDue, EntriesJoined, LiveAreLinked, RootsSound, RouterLive;
    Parts(S5);
    SoundEnough(S5, ProducerClosed("p"));
    SafeCloseSound(S5, ProducerClosed("p"));
    OneHandle(S5, ProducerClosed("p"));
    assert ProducerTree(S5, "p") == {ProducerClosed("p")};
    StillSound(S5, S6, {ProducerClosed("p")});
  }

  lemma ServerPublishesAgain()
    ensures Operates(S6, Produce, COMMAND, ALL_WELL, S7, Accepted(PRODUCED))
  {
    ServerTables();
    ClosedTables();
    hide AddRouter, AddPeer, AddTransport, AddProducer, SafeClose;
  }

  lemma Extended(run: seq<Moment>, step: Step, next: World) returns (longer: seq<Moment>)
    requires IsRun(run) && Steps(WorldAfter(run), step, next)
    ensures IsRun(longer) && WorldAfter(longer) == next && longer == run + [Moment(WorldAfter(run), step, next)]
    ensures Undisturbed(run) && !Spontaneous(step) && !TakesDueId(WorldAfter(run), step) ==> Undisturbed(longer)
  {
    hide Steps, TakesDueId, Spontaneous;
    longer := run + [Moment(WorldAfter(run), step, next)];
    assert longer[..|longer| - 1] == run;
  }

  lemma NothingDue(w: World, step: Step)
    requires w.server.pending == {}
    ensures !TakesDueId(w, step)
  {
    hide TakenId;
  }

  lemma Calmly(run: seq<Moment>, step: Step, next: World) returns (longer: seq<Moment>)
    requires IsRun(run) && Undisturbed(run) && Steps(WorldAfter(run), step, next)
    requires !Spontaneous(step) && WorldAfter(run).server.pending == {}
    ensures IsRun(longer) && WorldAfter(longer) == next && Undisturbed(longer)
  {
    hide Steps, TakesDueId, Spontaneous, Undisturbed, IsRun;
    NothingDue(WorldAfter(run), step);
    longer := Extended(run, step, next);
  }

  lemma PeerJoined() returns (run: seq<Moment>)
    ensures IsRun(run) && Undisturbed(run) && WorldAfter(run) == World(E3, S3)
  {
    EngineCreates(); EngineJoins();
    ServerTables(); ServerGrows(); FirstWorker();
    run := [];
    assert IsRun(run) && Undisturbed(run) && WorldAfter(run) == World(E.EMPTY, EMPTY);
    hide EngineDoes, Operates, Steps, AddWorker, AddRouter, AddPeer, AddTransport, IsRun, Undisturbed, WorldAfter, Spontaneous;
    BothDo(E.EMPTY, S1, CreateRoom, NO_DATA, E2, S2);
    BothDo(E2, S2, JoinSession, NO_DATA, E3, S3);
    NotSpontaneous(WorkerStarts("w"));
    NotSpontaneous(Says(CreateRoom, NO_DATA));
    NotSpontaneous(Says(JoinSession, NO_DATA));
    hide Says;
    run := Calmly(run, WorkerStarts("w"), World(E.EMPTY, S1));
    run := Calmly(run, Says(CreateRoom, NO_DATA), World(E2, S2));
    run := Calmly(run, Says(JoinSession, NO_DATA), World(E3, S3));
  }

  lemma NotSpontaneous(step: Step)
    requires step.WorkerStarts? || step.ClientCommand?
    ensures !Spontaneous(step)
  {
  }

  lemma TransportOpened() returns (run: seq<Moment>)
    ensures IsRun(run) && Undisturbed(run) && WorldAfter(run) == World(E4, S4)
  {
    EngineOpens();
    ServerTables(); ServerGrows();
    hide EngineDoes, Operates, Steps, AddWorker, AddRouter, AddPeer, AddTransport, IsRun, Undisturbed, WorldAfter;
    run := PeerJoined();
    BothDo(E3, S3, OpenTransport, NO_DATA, E4, S4);
    run := Calmly(run, Says(OpenTransport, NO_DATA), World(E4, S4));
  }

  /** A producer, published and closed: its callback is due, and its id is free again. */
  lemma PublishedAndClosed() returns (run: seq<Moment>)
    ensures IsRun(run) && Undisturbed(run) && WorldAfter(run) == World(E4, S6)
  {
    EnginePublishes(); EngineCloses();
    ServerTables(); ProducerTables(); ServerPublishes();
    hide EngineDoes, Operates, Steps, AddWorker, AddRouter, AddPeer, AddTransport, AddProducer, SafeClose, Sound, Contained;
    hide IsRun, Undisturbed, WorldAfter;
    run := TransportOpened();
    BothDo(E4, S4, PublishTrack, PRODUCED, E5, S5);
    run := Calmly(run, Says(PublishTrack, PRODUCED), World(E5, S5));
    ServerWithinEngine(run);
    ServerCloses();
    BothDo(E5, S5, CloseTrack, NO_DATA, E4, S6);
    run := Calmly(run, Says(CloseTrack, NO_DATA), World(E4, S6));
  }

  lemma FirstWorker()
    ensures Steps(World(E.EMPTY, EMPTY), WorkerStarts("w"), World(E.EMPTY, S1))
  {
  }

  /**
   Nothing closes by itself and no worker dies, and yet the two sides part: a producer is published, closed
   and published again under the same id, and then the callback of the first one runs.
   */
  lemma LateCallbackDisagrees() returns (run: seq<Moment>)
    ensures IsRun(run) && !Agrees(WorldAfter(run))
    ensures forall i :: 0 <= i < |run| ==> !Spontaneous(run[i].step)
  {
    ClosedTables();
    EnginePublishes();
    ServerPublishesAgain();
    hide EngineDoes, Operates, Steps, AddWorker, AddRouter, AddPeer, AddTransport, AddProducer, SafeClose, Agrees, Deliver, IsRun;
    run := PublishedAndClosed();
    BothDo(E4, S6, PublishTrack, PRODUCED, E5, S7);
    var publish, next := Says(PublishTrack, PRODUCED), World(E5, S7);
    DueIdLosesAgreement(run, publish, next);
    run := Extended(run, publish, next);
    run := Extended(run, CallbackRuns(ProducerClosed("p")), World(E5, Deliver(S7, ProducerClosed("p"))));
  }
}
