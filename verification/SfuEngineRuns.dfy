/**
 What every run of the engine keeps: the ownership graph, and an event log from which the rooms, the
 published tracks and the life of each room can be read back.
 */
module SfuEngineRuns {
  import opened MediaTypes
  import opened SfuEngine

  // ---- One command ----

  lemma LeaveKeepsGraph(e: Engine, roomId: string, peerId: string)
    requires Graph(e) && roomId in e.rooms && peerId in e.rooms[roomId]
    ensures Graph(WithoutPeer(e, roomId, peerId))
  {
  }

  lemma JoinKeepsGraph(e: Engine, c: Command)
    requires Graph(e) && c.roomId in e.rooms
    ensures Graph(CommitJoin(e, c).engine)
  {
  }

  lemma PublishKeepsGraph(e: Engine, c: Command, data: ReplyData)
    requires Graph(e) && c.transportId in e.transports && c.producerId !in e.producers
    ensures Graph(CommitPublish(e, c, data).engine)
  {
  }

  lemma TrackChangeKeepsGraph(e: Engine, c: Command, intent: Intent)
    requires Graph(e) && c.producerId in e.producers
    ensures Graph(CommitTrackChange(e, c, intent).engine)
  {
  }

  lemma ConsumeKeepsGraph(e: Engine, c: Command, data: ReplyData)
    requires Graph(e) && PlanConsume(e, c, OperationFor(ConsumeTrack)).Call?
    ensures Graph(CommitConsume(e, c, data).engine)
  {
    var next := CommitConsume(e, c, data).engine;
    assert next.rooms == e.rooms && next.transports == e.transports && next.producers == e.producers;
  }

  lemma ResumeConsumerKeepsGraph(e: Engine, c: Command)
    requires Graph(e) && c.consumerId in e.consumers
    ensures Graph(CommitResumeConsumer(e, c).engine)
  {
  }

  lemma RoomAddedKeepsGraph(e: Engine, roomId: string)
    requires Graph(e) && roomId !in e.rooms
    ensures Graph(e.(rooms := e.rooms[roomId := {}]))
  {
  }

  lemma TransportAddedKeepsGraph(e: Engine, c: Command)
    requires Graph(e) && c.transportId !in e.transports && c.peerId in MembersOf(e, c.roomId)
    ensures Graph(e.(transports := e.transports[c.transportId := Transport(c.roomId, c.peerId)]))
  {
  }

  lemma ConsumePlanned(e: Engine, input: Input)
    requires PlanOf(e, input).Call?
    ensures input.Execute? && input.intent.ConsumeTrack? ==>
              PlanConsume(e, input.command, OperationFor(ConsumeTrack)).Call?
  {
  }

  lemma CommitKeepsGraph(e: Engine, input: Input, data: ReplyData, order: seq<string>)
    requires Graph(e) && PlanOf(e, input).Call? && OrderFits(e, input, order)
    ensures Graph(Commit(e, input, data, order).engine)
  {
    ConsumePlanned(e, input);
    Validated(e, input);
    hide PlanOf, PlanConsume, PeersOwned, TransportsOwned, ProducersOwned, ConsumersOwned;
    if IsLeave(input) {
      LeaveKeepsGraph(e, PlanOf(e, input).sent.roomId, PlanOf(e, input).sent.peerId);
    } else {
      var c := input.command;
      match input.intent {
        case CreateRoom => RoomAddedKeepsGraph(e, c.roomId);
        case JoinSession => JoinKeepsGraph(e, c);
        case OpenTransport => TransportAddedKeepsGraph(e, c);
        case PublishTrack => PublishKeepsGraph(e, c, data);
        case PauseTrack => TrackChangeKeepsGraph(e, c, input.intent);
        case ResumeTrack => TrackChangeKeepsGraph(e, c, input.intent);
        case CloseTrack => TrackChangeKeepsGraph(e, c, input.intent);
        case ConsumeTrack => ConsumeKeepsGraph(e, c, data);
        case ResumeConsumer => ResumeConsumerKeepsGraph(e, c);
        case _ =>
      }
    }
  }

  /** Whatever the command and the backend's answer, ownership survives. */
  lemma PerformKeepsGraph(e: Engine, input: Input, reply: Reply, order: seq<string>)
    requires Graph(e) && OrderFits(e, input, order)
    ensures Graph(Perform(e, input, reply, order).engine)
  {
    if PlanOf(e, input).Call? {
      if reply.Accepted? {
        CommitKeepsGraph(e, input, reply.data, order);
      } else if input.Execute? && input.intent.CreateRoom? {
        RoomAddedKeepsGraph(e, input.command.roomId);
      }
    }
  }

  // ---- Reading the log ----

  function ApplyMember(members: set<string>, event: Event, roomId: string): set<string> {
    if event.PeerJoined? && event.roomId == roomId then members + {event.peerId}
    else if event.PeerLeft? && event.roomId == roomId then members - {event.peerId}
    else members
  }

  /** The membership of a room, read from its joins and departures alone. */
  function ReplayMembers(members: set<string>, log: seq<Event>, roomId: string): set<string>
    decreases log
  {
    if log == [] then members else ReplayMembers(ApplyMember(members, log[0], roomId), log[1..], roomId)
  }

  function ApplyTrack(tracks: set<string>, event: Event): set<string> {
    if event.TrackPublished? then tracks + {event.producerId}
    else if event.TrackClosed? then tracks - {event.producerId}
    else tracks
  }

  /** The tracks on air, read from publications and closures alone. */
  function ReplayTracks(tracks: set<string>, log: seq<Event>): set<string>
    decreases log
  {
    if log == [] then tracks else ReplayTracks(ApplyTrack(tracks, log[0]), log[1..])
  }

  /** The starts (true) and ends (false) of a room's sessions, in order. */
  function Lifecycle(log: seq<Event>, roomId: string): seq<bool> {
    if log == [] then []
    else (if log[0].SessionStarted? && log[0].roomId == roomId then [true]
          else if log[0].SessionEnded? && log[0].roomId == roomId then [false]
          else []) + Lifecycle(log[1..], roomId)
  }

  /** Every join and departure of the room carries the membership it leaves behind. */
  predicate CarriesMembers(members: set<string>, log: seq<Event>, roomId: string)
    decreases log
  {
    log == [] ||
    (var after := ApplyMember(members, log[0], roomId);
     && ((log[0].PeerJoined? || log[0].PeerLeft?) && log[0].roomId == roomId ==> log[0].memberPeerIds == after)
     && CarriesMembers(after, log[1..], roomId))
  }

  lemma {:induction false} MembersAppend(members: set<string>, a: seq<Event>, b: seq<Event>, roomId: string)
    ensures ReplayMembers(members, a + b, roomId) == ReplayMembers(ReplayMembers(members, a, roomId), b, roomId)
    ensures CarriesMembers(members, a, roomId) && CarriesMembers(ReplayMembers(members, a, roomId), b, roomId)
            ==> CarriesMembers(members, a + b, roomId)
    decreases a
  {
    if a == [] {
      assert a + b == b;
    } else {
      assert (a + b)[1..] == a[1..] + b;
      MembersAppend(ApplyMember(members, a[0], roomId), a[1..], b, roomId);
    }
  }

  lemma {:induction false} TracksAppend(tracks: set<string>, a: seq<Event>, b: seq<Event>)
    ensures ReplayTracks(tracks, a + b) == ReplayTracks(ReplayTracks(tracks, a), b)
    decreases a
  {
    if a == [] {
      assert a + b == b;
    } else {
      assert (a + b)[1..] == a[1..] + b;
      TracksAppend(ApplyTrack(tracks, a[0]), a[1..], b);
    }
  }

  lemma {:induction false} LifecycleAppend(a: seq<Event>, b: seq<Event>, roomId: string)
    ensures Lifecycle(a + b, roomId) == Lifecycle(a, roomId) + Lifecycle(b, roomId)
  {
    if a == [] {
      assert a + b == b;
    } else {
      assert (a + b)[1..] == a[1..] + b;
      LifecycleAppend(a[1..], b, roomId);
    }
  }

  lemma ReplayAppend(members: set<string>, tracks: set<string>, a: seq<Event>, b: seq<Event>, roomId: string)
    ensures ReplayMembers(members, a + b, roomId) == ReplayMembers(ReplayMembers(members, a, roomId), b, roomId)
    ensures ReplayTracks(tracks, a + b) == ReplayTracks(ReplayTracks(tracks, a), b)
    ensures Lifecycle(a + b, roomId) == Lifecycle(a, roomId) + Lifecycle(b, roomId)
    ensures CarriesMembers(members, a, roomId) && CarriesMembers(ReplayMembers(members, a, roomId), b, roomId)
            ==> CarriesMembers(members, a + b, roomId)
  {
    hide ReplayMembers, ReplayTracks, Lifecycle, CarriesMembers;
    MembersAppend(members, a, b, roomId);
    TracksAppend(tracks, a, b);
    LifecycleAppend(a, b, roomId);
  }

  lemma {:induction false} CarriedAt(members: set<string>, log: seq<Event>, roomId: string, i: nat)
    requires CarriesMembers(members, log, roomId) && i < |log|
    requires (log[i].PeerJoined? || log[i].PeerLeft?) && log[i].roomId == roomId
    ensures log[i].memberPeerIds == ReplayMembers(members, log[..i + 1], roomId)
    decreases i
  {
    assert log[..i + 1][1..] == log[1..][..i];
    if i > 0 {
      CarriedAt(ApplyMember(members, log[0], roomId), log[1..], roomId, i - 1);
    }
  }

  // ---- What one command adds to the log ----

  /** The events of one command take each reading from the state before to the state after. */
  ghost predicate Explains(before: Engine, paused: set<string>, events: seq<Event>, after: Engine, paused': set<string>,
                           roomId: string)
  {
    && ReplayMembers(MembersOf(before, roomId), events, roomId) == MembersOf(after, roomId)
    && CarriesMembers(MembersOf(before, roomId), events, roomId)
    && ReplayTracks(before.producers.Keys - paused, events) == after.producers.Keys - paused'
    && Lifecycle(events, roomId) ==
       (if MembersOf(before, roomId) == {} && MembersOf(after, roomId) != {} then [true]
        else if MembersOf(before, roomId) != {} && MembersOf(after, roomId) == {} then [false]
        else [])
  }

  /** Producers whose last accepted pause, resume or publication was a pause. */
  function PausedAfter(paused: set<string>, input: Input, status: Status): set<string> {
    if input.Disconnected? || status.Failed? then paused
    else if input.intent.PauseTrack? then paused + {input.command.producerId}
    else if input.intent.ResumeTrack? || input.intent.PublishTrack? then paused - {input.command.producerId}
    else paused
  }

  lemma {:induction false} LeaveTrackReadings(e: Engine, c: Command, remaining: set<string>, order: seq<string>,
                                              members: set<string>, tracks: set<string>, roomId: string)
    requires forall id :: id in order ==> id in e.producers
    ensures var events := LeaveTrackEvents(e, c, remaining, order);
            && ReplayMembers(members, events, roomId) == members
            && CarriesMembers(members, events, roomId)
            && Lifecycle(events, roomId) == []
            && ReplayTracks(tracks, events) == tracks - (set id | id in order)
  {
    if order != [] {
      LeaveTrackReadings(e, c, remaining, order[1..], members, tracks - {order[0]}, roomId);
      assert order == [order[0]] + order[1..];
      assert LeaveTrackEvents(e, c, remaining, order)[1..] == LeaveTrackEvents(e, c, remaining, order[1..]);
    }
  }

  lemma OneEvent(event: Event, members: set<string>, tracks: set<string>, roomId: string)
    ensures ReplayMembers(members, [event], roomId) == ApplyMember(members, event, roomId)
    ensures ReplayTracks(tracks, [event]) == ApplyTrack(tracks, event)
    ensures Lifecycle([event], roomId) ==
            if event.SessionStarted? && event.roomId == roomId then [true]
            else if event.SessionEnded? && event.roomId == roomId then [false] else []
    ensures CarriesMembers(members, [event], roomId) <==>
            ((event.PeerJoined? || event.PeerLeft?) && event.roomId == roomId
             ==> event.memberPeerIds == ApplyMember(members, event, roomId))
  {
  }

  lemma TwoEvents(a: Event, b: Event, members: set<string>, tracks: set<string>, roomId: string)
    ensures ReplayMembers(members, [a, b], roomId) == ApplyMember(ApplyMember(members, a, roomId), b, roomId)
    ensures ReplayTracks(tracks, [a, b]) == ApplyTrack(ApplyTrack(tracks, a), b)
    ensures Lifecycle([a, b], roomId) == Lifecycle([a], roomId) + Lifecycle([b], roomId)
    ensures CarriesMembers(members, [a], roomId) && CarriesMembers(ApplyMember(members, a, roomId), [b], roomId)
            ==> CarriesMembers(members, [a, b], roomId)
  {
    assert [a, b] == [a] + [b];
    ReplayAppend(members, tracks, [a], [b], roomId);
    OneEvent(a, members, tracks, roomId);
    OneEvent(b, ApplyMember(members, a, roomId), ApplyTrack(tracks, a), roomId);
  }

  lemma LeaveTailReadings(c: Command, remaining: set<string>, reason: string,
                          members: set<string>, tracks: set<string>, roomId: string)
    requires roomId == c.roomId ==> remaining == members - {c.peerId}
    ensures var tail := LeaveTail(c, remaining, reason);
            && ReplayMembers(members, tail, roomId) == (if roomId == c.roomId then remaining else members)
            && CarriesMembers(members, tail, roomId)
            && ReplayTracks(tracks, tail) == tracks
            && Lifecycle(tail, roomId) == (if roomId == c.roomId && remaining == {} then [false] else [])
  {
    var left := PeerLeft(c.correlationId, c.peerId, c.roomId, reason, remaining, remaining);
    var sessionClosed := SessionClosed(c.correlationId, c.peerId, c.roomId, reason, {c.peerId});
    var members' := ApplyMember(members, left, roomId);
    TwoEvents(left, sessionClosed, members, tracks, roomId);
    OneEvent(left, members, tracks, roomId);
    OneEvent(sessionClosed, members', tracks, roomId);
    if remaining == {} {
      var ended := SessionEnded(c.correlationId, c.peerId, c.roomId, {c.peerId});
      OneEvent(ended, members', tracks, roomId);
      ReplayAppend(members, tracks, [left, sessionClosed], [ended], roomId);
    } else {
      assert LeaveTail(c, remaining, reason) == [left, sessionClosed];
    }
  }

  lemma LeaveExplained(e: Engine, c: Command, reason: string, order: seq<string>, paused: set<string>, roomId: string)
    requires c.roomId in e.rooms && c.peerId in e.rooms[c.roomId]
    requires Lists(order, ClosingProducers(e, c.roomId, c.peerId))
    ensures var o := CommitLeave(e, c, reason, order); Explains(e, paused, o.events, o.engine, paused, roomId)
  {
    hide ReplayMembers, ReplayTracks, Lifecycle, CarriesMembers, LeaveTrackEvents, LeaveTail, WithoutPeer;
    var remaining := e.rooms[c.roomId] - {c.peerId};
    var members := MembersOf(e, roomId);
    var tracks := e.producers.Keys - paused;
    var closed := LeaveTrackEvents(e, c, remaining, order);
    LeaveTrackReadings(e, c, remaining, order, members, tracks, roomId);
    ReplayAppend(members, tracks, closed, LeaveTail(c, remaining, reason), roomId);
    LeaveTailReadings(c, remaining, reason, members, ReplayTracks(tracks, closed), roomId);
    LeaveShrinks(e, c.roomId, c.peerId, roomId);
    assert (set id | id in order) == ClosingProducers(e, c.roomId, c.peerId);
  }

  lemma LeaveShrinks(e: Engine, roomId: string, peerId: string, other: string)
    requires roomId in e.rooms
    ensures WithoutPeer(e, roomId, peerId).producers.Keys == e.producers.Keys - ClosingProducers(e, roomId, peerId)
    ensures MembersOf(WithoutPeer(e, roomId, peerId), other) == MembersOf(e, other) - (if other == roomId then {peerId} else {})
  {
  }

  lemma JoinExplained(e: Engine, c: Command, paused: set<string>, roomId: string)
    requires c.roomId in e.rooms
    ensures var o := CommitJoin(e, c); Explains(e, paused, o.events, o.engine, paused, roomId)
  {
    var o := CommitJoin(e, c);
    var members := MembersOf(e, roomId);
    var tracks := e.producers.Keys - paused;
    var members' := ApplyMember(members, o.events[1], roomId);
    TwoEvents(o.events[0], o.events[1], members, tracks, roomId);
    OneEvent(o.events[0], members, tracks, roomId);
    OneEvent(o.events[1], members, tracks, roomId);
    if e.rooms[c.roomId] == {} {
      OneEvent(o.events[2], members', tracks, roomId);
      ReplayAppend(members, tracks, [o.events[0], o.events[1]], [o.events[2]], roomId);
      assert o.events == [o.events[0], o.events[1]] + [o.events[2]];
    } else {
      assert o.events == [o.events[0], o.events[1]];
    }
  }

  /** A command that touches no room and emits one event of another kind explains itself by its tracks. */
  lemma SingleExplained(e: Engine, e': Engine, event: Event, paused: set<string>, paused': set<string>, roomId: string)
    requires e'.rooms == e.rooms
    requires !event.PeerJoined? && !event.PeerLeft? && !event.SessionStarted? && !event.SessionEnded?
    requires ApplyTrack(e.producers.Keys - paused, event) == e'.producers.Keys - paused'
    ensures Explains(e, paused, [event], e', paused', roomId)
  {
  }

  lemma TrackChangeExplained(e: Engine, c: Command, intent: Intent, paused: set<string>, roomId: string)
    requires c.producerId in e.producers && (intent.PauseTrack? || intent.ResumeTrack? || intent.CloseTrack?)
    ensures var o := CommitTrackChange(e, c, intent);
            Explains(e, paused, o.events, o.engine, PausedAfter(paused, Execute(intent, c, Ok), Ok), roomId)
  {
  }

  lemma PublishExplained(e: Engine, c: Command, data: ReplyData, paused: set<string>, roomId: string)
    requires c.transportId in e.transports
    ensures var o := CommitPublish(e, c, data); Explains(e, paused, o.events, o.engine, paused - {c.producerId}, roomId)
  {
  }

  /** No event, no change of room or producer. */
  lemma SilentExplained(e: Engine, e': Engine, paused: set<string>, roomId: string)
    requires MembersOf(e', roomId) == MembersOf(e, roomId) && e'.producers == e.producers
    ensures Explains(e, paused, [], e', paused, roomId)
  {
  }

  /** What validation has established by the time the backend is called. */
  lemma Validated(e: Engine, input: Input)
    requires PlanOf(e, input).Call?
    ensures IsLeave(input) ==>
              var sent := PlanOf(e, input).sent; sent.roomId in e.rooms && sent.peerId in e.rooms[sent.roomId]
    ensures !IsLeave(input) ==>
              var c := input.command;
              match input.intent
              case CreateRoom => c.roomId !in e.rooms
              case JoinSession => c.roomId in e.rooms
              case OpenTransport => c.transportId !in e.transports && c.peerId in MembersOf(e, c.roomId)
              case PublishTrack => c.transportId in e.transports && c.producerId !in e.producers
              case PauseTrack => c.producerId in e.producers
              case ResumeTrack => c.producerId in e.producers
              case CloseTrack => c.producerId in e.producers
              case ConsumeTrack => c.producerId in e.producers
              case ResumeConsumer => c.consumerId in e.consumers
              case _ => true
  {
  }

  lemma CommitExplained(e: Engine, input: Input, data: ReplyData, order: seq<string>, paused: set<string>, roomId: string)
    requires PlanOf(e, input).Call? && OrderFits(e, input, order)
    ensures var o := Commit(e, input, data, order);
            Explains(e, paused, o.events, o.engine, PausedAfter(paused, input, Ok), roomId)
  {
    hide PlanOf, ReplayMembers, ReplayTracks, Lifecycle, CarriesMembers, Explains;
    hide CommitLeave, CommitJoin, CommitPublish, CommitTrackChange;
    Validated(e, input);
    var o := Commit(e, input, data, order);
    if IsLeave(input) {
      LeaveExplained(e, PlanOf(e, input).sent, LeaveReason(input), order, paused, roomId);
    } else {
      var c := input.command;
      match input.intent {
        case JoinSession => JoinExplained(e, c, paused, roomId);
        case OpenTransport => SingleExplained(e, o.engine, o.events[0], paused, paused, roomId);
        case PublishTrack => PublishExplained(e, c, data, paused, roomId);
        case PauseTrack => TrackChangeExplained(e, c, input.intent, paused, roomId);
        case ResumeTrack => TrackChangeExplained(e, c, input.intent, paused, roomId);
        case CloseTrack => TrackChangeExplained(e, c, input.intent, paused, roomId);
        case ResumeConsumer => SingleExplained(e, o.engine, o.events[0], paused, paused, roomId);
        case _ => SilentExplained(e, o.engine, paused, roomId);
      }
    }
  }

  lemma CommitSucceeds(e: Engine, input: Input, data: ReplyData, order: seq<string>)
    requires PlanOf(e, input).Call? && OrderFits(e, input, order)
    ensures Commit(e, input, data, order).status.Ok?
  {
    Validated(e, input);
    hide PlanOf;
  }

  lemma PerformExplained(e: Engine, input: Input, reply: Reply, order: seq<string>, paused: set<string>, roomId: string)
    requires OrderFits(e, input, order)
    ensures var o := Perform(e, input, reply, order);
            Explains(e, paused, o.events, o.engine, PausedAfter(paused, input, o.status), roomId)
  {
    if PlanOf(e, input).Call? {
      Validated(e, input);
    }
    hide PlanOf, Commit, Explains, OrderFits, MentionsAlreadyExists;
    var o := Perform(e, input, reply, order);
    match PlanOf(e, input) {
      case Refuse(message, blamed) => SingleExplained(e, e, o.events[0], paused, paused, roomId);
      case Settled => SilentExplained(e, e, paused, roomId);
      case Call(_, _, blamed) =>
        if reply.Accepted? {
          CommitExplained(e, input, reply.data, order, paused, roomId);
          CommitSucceeds(e, input, reply.data, order);
        } else if o.status.Failed? {
          SingleExplained(e, e, o.events[0], paused, paused, roomId);
        } else {
          SilentExplained(e, o.engine, paused, roomId);
        }
    }
  }

  // ---- Runs ----

  datatype Record = Record(before: Engine, input: Input, reply: Reply, order: seq<string>, outcome: Outcome)

  function EngineAfter(run: seq<Record>): Engine {
    if run == [] then EMPTY else run[|run| - 1].outcome.engine
  }

  /** A run from the empty engine: any inputs, any backend answers, any hash order. */
  ghost predicate IsRun(run: seq<Record>) {
    run == [] ||
    (var last := run[|run| - 1];
     && IsRun(run[..|run| - 1])
     && last.before == EngineAfter(run[..|run| - 1])
     && OrderFits(last.before, last.input, last.order)
     && last.outcome == Perform(last.before, last.input, last.reply, last.order))
  }

  function LogOf(run: seq<Record>): seq<Event> {
    if run == [] then [] else LogOf(run[..|run| - 1]) + run[|run| - 1].outcome.events
  }

  function PausedIn(run: seq<Record>): set<string> {
    if run == [] then {}
    else PausedAfter(PausedIn(run[..|run| - 1]), run[|run| - 1].input, run[|run| - 1].outcome.status)
  }

  /** Ownership holds after every run. */
  lemma {:induction false} GraphAlways(run: seq<Record>)
    requires IsRun(run)
    ensures Graph(EngineAfter(run))
  {
    if run != [] {
      var last := run[|run| - 1];
      GraphAlways(run[..|run| - 1]);
      PerformKeepsGraph(last.before, last.input, last.reply, last.order);
    }
  }

  lemma {:induction false} LogExplainsEngine(run: seq<Record>, roomId: string)
    requires IsRun(run)
    ensures ReplayMembers({}, LogOf(run), roomId) == MembersOf(EngineAfter(run), roomId)
    ensures CarriesMembers({}, LogOf(run), roomId)
    ensures ReplayTracks({}, LogOf(run)) == EngineAfter(run).producers.Keys - PausedIn(run)
  {
    if run != [] {
      var last := run[|run| - 1];
      var earlier := run[..|run| - 1];
      LogExplainsEngine(earlier, roomId);
      PerformExplained(last.before, last.input, last.reply, last.order, PausedIn(earlier), roomId);
      ReplayAppend({}, {}, LogOf(earlier), last.outcome.events, roomId);
    }
  }

  /**
   Replaying every join and departure ever emitted gives each room's membership, and each of those
   events carries the membership replayed up to and including itself.
   */
  lemma MembershipReplays(run: seq<Record>, roomId: string)
    requires IsRun(run)
    ensures ReplayMembers({}, LogOf(run), roomId) == MembersOf(EngineAfter(run), roomId)
    ensures forall i :: 0 <= i < |LogOf(run)| && (LogOf(run)[i].PeerJoined? || LogOf(run)[i].PeerLeft?)
                        && LogOf(run)[i].roomId == roomId
                        ==> LogOf(run)[i].memberPeerIds == ReplayMembers({}, LogOf(run)[..i + 1], roomId)
  {
    LogExplainsEngine(run, roomId);
    var log := LogOf(run);
    forall i | 0 <= i < |log| && (log[i].PeerJoined? || log[i].PeerLeft?) && log[i].roomId == roomId
      ensures log[i].memberPeerIds == ReplayMembers({}, log[..i + 1], roomId)
    {
      CarriedAt({}, log, roomId, i);
    }
  }

  /** Replaying publications and closures by producer gives the producers that are not paused. */
  lemma TracksReplay(run: seq<Record>, producerId: string)
    requires IsRun(run)
    ensures producerId in ReplayTracks({}, LogOf(run))
            <==> producerId in EngineAfter(run).producers && producerId !in PausedIn(run)
  {
    LogExplainsEngine(run, "");
  }

  predicate Alternates(life: seq<bool>) {
    forall i :: 0 <= i < |life| ==> life[i] == (i % 2 == 0)
  }

  /** A start when members appear, an end when they are gone. */
  function Turn(open: bool, open': bool): seq<bool> {
    if open == open' then [] else [open']
  }

  lemma AlternationExtends(life: seq<bool>, open: bool, open': bool)
    requires Alternates(life) && (open <==> |life| % 2 == 1)
    ensures Alternates(life + Turn(open, open')) && (open' <==> |life + Turn(open, open')| % 2 == 1)
  {
  }

  predicate Occupied(run: seq<Record>, roomId: string) {
    MembersOf(EngineAfter(run), roomId) != {}
  }

  lemma LifecycleGrows(run: seq<Record>, roomId: string)
    requires IsRun(run) && run != []
    ensures var earlier := run[..|run| - 1];
            && IsRun(earlier)
            && Lifecycle(LogOf(run), roomId)
               == Lifecycle(LogOf(earlier), roomId) + Turn(Occupied(earlier, roomId), Occupied(run, roomId))
  {
    hide ReplayMembers, ReplayTracks, CarriesMembers, Lifecycle, Perform, OrderFits;
    var last := run[|run| - 1];
    var earlier := run[..|run| - 1];
    PerformExplained(last.before, last.input, last.reply, last.order, PausedIn(earlier), roomId);
    LifecycleAppend(LogOf(earlier), last.outcome.events, roomId);
  }

  /** A room's sessions start and end in turn, and the room has members exactly while one is open. */
  lemma {:induction false} LifecycleAlternates(run: seq<Record>, roomId: string)
    requires IsRun(run)
    ensures Alternates(Lifecycle(LogOf(run), roomId))
    ensures MembersOf(EngineAfter(run), roomId) != {} <==> |Lifecycle(LogOf(run), roomId)| % 2 == 1
  {
    if run != [] {
      hide IsRun, LogOf, Lifecycle, Alternates, Turn;
      LifecycleGrows(run, roomId);
      var earlier := run[..|run| - 1];
      LifecycleAlternates(earlier, roomId);
      AlternationExtends(Lifecycle(LogOf(earlier), roomId), Occupied(earlier, roomId), Occupied(run, roomId));
    }
  }

  /** A command that does not succeed changes no map and says so in exactly one error event; one that does emits none. */
  lemma FailedCommandsAreNoOps(run: seq<Record>, i: nat)
    requires IsRun(run) && i < |run|
    ensures run[i].outcome.status.Failed? ==>
              && run[i].outcome.engine == run[i].before
              && |run[i].outcome.events| == 1
              && run[i].outcome.events[0].TransportError?
              && run[i].outcome.events[0].reason == run[i].outcome.status.message
    ensures run[i].outcome.status.Ok? ==> forall event :: event in run[i].outcome.events ==> !event.TransportError?
    decreases |run|
  {
    if i < |run| - 1 {
      FailedCommandsAreNoOps(run[..|run| - 1], i);
    } else {
      SuccessEmitsNoError(run[i].before, run[i].input, run[i].reply, run[i].order);
    }
  }

  lemma LeaveEmitsNoError(e: Engine, c: Command, reason: string, order: seq<string>)
    requires c.roomId in e.rooms && Lists(order, ClosingProducers(e, c.roomId, c.peerId))
    ensures forall event :: event in CommitLeave(e, c, reason, order).events ==> !event.TransportError?
  {
    hide WithoutPeer;
    var tracks := LeaveTrackEvents(e, c, e.rooms[c.roomId] - {c.peerId}, order);
    assert forall event :: event in tracks ==> event.TrackClosed?;
  }

  lemma SuccessEmitsNoError(e: Engine, input: Input, reply: Reply, order: seq<string>)
    requires OrderFits(e, input, order)
    ensures var o := Perform(e, input, reply, order);
            o.status.Ok? ==> forall event :: event in o.events ==> !event.TransportError?
  {
    if PlanOf(e, input).Call? {
      Validated(e, input);
    }
    hide PlanOf, MentionsAlreadyExists, CommitLeave;
    if PlanOf(e, input).Call? && IsLeave(input) {
      LeaveEmitsNoError(e, PlanOf(e, input).sent, LeaveReason(input), order);
    }
  }
}
