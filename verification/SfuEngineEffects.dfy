/**
 What each command of the engine comes to: exactly when it succeeds, what the maps hold then, which
 disconnects count, and who is told what.
 */
module SfuEngineEffects {
  import opened MediaTypes
  import opened SfuEngine
  import opened SfuEngineRuns

  // ---- Disconnects ----

  datatype Join = Join(roomId: string, sessionHandle: nat)

  /** The room and the handle of a peer's last successful join, read from the inputs alone. */
  function LastJoin(run: seq<Record>, peerId: string): Option<Join> {
    if run == [] then None
    else
      var last := run[|run| - 1];
      if last.input.Execute? && last.input.intent.JoinSession? && last.input.command.peerId == peerId && last.outcome.status.Ok?
      then Some(Join(last.input.command.roomId, last.input.command.sessionHandle))
      else LastJoin(run[..|run| - 1], peerId)
  }

  predicate Joins(input: Input, status: Status, peerId: string) {
    input.Execute? && input.intent.JoinSession? && input.command.peerId == peerId && status.Ok?
  }

  /** A peer gets its entry from a join, and keeps it as it is until the next one or until it goes. */
  lemma PeerEntries(e: Engine, input: Input, reply: Reply, order: seq<string>, peerId: string)
    requires OrderFits(e, input, order)
    ensures var o := Perform(e, input, reply, order);
            peerId in o.engine.peers ==>
              if Joins(input, o.status, peerId)
              then peerId != "" && input.command.roomId != "" && o.engine.peers[peerId] == Peer(input.command.roomId, input.command.sessionHandle)
              else peerId in e.peers && o.engine.peers[peerId] == e.peers[peerId]
  {
    hide LeaveTrackEvents, LeaveTail, ActiveProducersOf, MentionsAlreadyExists, CommitTrackChange, CommitPublish, CommitConsume;
    if PlanOf(e, input).Call? {
      Validated(e, input);
      JoinNamed(e, input);
      hide PlanOf;
      if reply.Accepted? {
        CommitEntries(e, input, reply.data, order, peerId);
        hide Commit;
      }
    }
  }

  lemma JoinNamed(e: Engine, input: Input)
    requires PlanOf(e, input).Call?
    ensures input.Execute? && input.intent.JoinSession? ==> input.command.peerId != "" && input.command.roomId != ""
  {
  }

  lemma CommitEntries(e: Engine, input: Input, data: ReplyData, order: seq<string>, peerId: string)
    requires PlanOf(e, input).Call? && OrderFits(e, input, order)
    ensures var o := Commit(e, input, data, order);
            && o.status.Ok?
            && (peerId in o.engine.peers ==>
                  if Joins(input, o.status, peerId)
                  then o.engine.peers[peerId] == Peer(input.command.roomId, input.command.sessionHandle)
                  else peerId in e.peers && o.engine.peers[peerId] == e.peers[peerId])
  {
    Validated(e, input);
    hide PlanOf, LeaveTrackEvents, LeaveTail, ActiveProducersOf;
  }

  lemma {:induction false} PeersRemember(run: seq<Record>, peerId: string)
    requires IsRun(run) && peerId in EngineAfter(run).peers
    ensures peerId != "" && EngineAfter(run).peers[peerId].roomId != ""
    ensures LastJoin(run, peerId) ==
            Some(Join(EngineAfter(run).peers[peerId].roomId, EngineAfter(run).peers[peerId].sessionHandle))
  {
    if run != [] {
      var last := run[|run| - 1];
      PeerEntries(last.before, last.input, last.reply, last.order, peerId);
      if !Joins(last.input, last.outcome.status, peerId) {
        PeersRemember(run[..|run| - 1], peerId);
      }
    }
  }

  /** Everything a peer held in a room is gone, with the consumers of its producers, and nothing else is. */
  ghost predicate Stripped(e: Engine, next: Engine, roomId: string, peerId: string) {
    && (forall id :: id in next.transports <==> id in e.transports && !(e.transports[id] == Transport(roomId, peerId)))
    && (forall id :: id in next.transports ==> next.transports[id] == e.transports[id])
    && (forall id :: id in next.producers <==> id in e.producers && !(e.producers[id].roomId == roomId && e.producers[id].peerId == peerId))
    && (forall id :: id in next.producers ==> next.producers[id] == e.producers[id])
    && (forall id :: id in next.consumers <==>
          && id in e.consumers && !(e.consumers[id].roomId == roomId && e.consumers[id].peerId == peerId)
          && (e.consumers[id].producerId in e.producers ==> e.consumers[id].producerId in next.producers))
    && (forall id :: id in next.consumers ==> next.consumers[id] == e.consumers[id])
  }

  /** A peer has left a room; its entry is gone, and everybody else is where they were. */
  ghost predicate PeerGone(e: Engine, next: Engine, roomId: string, peerId: string) {
    && next.peers == e.peers - {peerId}
    && (forall r :: MembersOf(next, r) == MembersOf(e, r) - if r == roomId then {peerId} else {})
    && (roomId in next.rooms <==> MembersOf(next, roomId) != {})
    && (forall r :: r != roomId ==> (r in next.rooms <==> r in e.rooms))
    && Stripped(e, next, roomId, peerId)
  }

  /** Of all events exactly one is a departure, and it is this one. */
  ghost predicate OneDeparture(events: seq<Event>, departure: Event) {
    exists i :: 0 <= i < |events| && events[i] == departure && forall k :: 0 <= k < |events| && k != i ==> !events[k].PeerLeft?
  }

  lemma LeaveStrips(e: Engine, roomId: string, peerId: string)
    requires roomId in e.rooms && peerId in e.rooms[roomId]
    ensures PeerGone(e, WithoutPeer(e, roomId, peerId), roomId, peerId)
  {
    var next := WithoutPeer(e, roomId, peerId);
    forall r ensures MembersOf(next, r) == MembersOf(e, r) - if r == roomId then {peerId} else {} {
      LeaveShrinks(e, roomId, peerId, r);
    }
  }

  lemma LeaveDeparts(e: Engine, c: Command, reason: string, order: seq<string>)
    requires c.roomId in e.rooms && Lists(order, ClosingProducers(e, c.roomId, c.peerId))
    ensures var o := CommitLeave(e, c, reason, order);
            var remaining := MembersOf(e, c.roomId) - {c.peerId};
            OneDeparture(o.events, PeerLeft(c.correlationId, c.peerId, c.roomId, reason, remaining, remaining))
  {
    hide WithoutPeer;
    var remaining := e.rooms[c.roomId] - {c.peerId};
    var events := CommitLeave(e, c, reason, order).events;
    var tracks := LeaveTrackEvents(e, c, remaining, order);
    hide LeaveTrackEvents;
    assert events[|order|] == PeerLeft(c.correlationId, c.peerId, c.roomId, reason, remaining, remaining);
    forall k | 0 <= k < |events| && k != |order| ensures !events[k].PeerLeft? {
      if k < |order| {
        assert events[k] == tracks[k];
      } else {
        assert events[k] == LeaveTail(c, remaining, reason)[k - |order|];
      }
    }
  }

  /**
   The loss of the connection under which a peer last joined, or one where either handle is unknown, takes the
   peer out of its latest room with everything it held there, and says so once.
   */
  lemma DisconnectRemoves(run: seq<Record>, peerId: string, handle: nat, correlationId: string, data: ReplyData, order: seq<string>)
    requires IsRun(run) && peerId in EngineAfter(run).peers
    requires OrderFits(EngineAfter(run), Disconnected(peerId, handle, correlationId), order)
    requires LastJoin(run, peerId).Some?
    requires var joined := LastJoin(run, peerId).value.sessionHandle; handle == joined || handle == 0 || joined == 0
    ensures var e, roomId := EngineAfter(run), LastJoin(run, peerId).value.roomId;
            var o := Perform(e, Disconnected(peerId, handle, correlationId), Accepted(data), order);
            && o.status.Ok? && peerId in MembersOf(e, roomId) && PeerGone(e, o.engine, roomId, peerId)
            && OneDeparture(o.events, PeerLeft(correlationId, peerId, roomId, "disconnected",
                                               MembersOf(o.engine, roomId), MembersOf(o.engine, roomId)))
  {
    var e := EngineAfter(run);
    PeersRemember(run, peerId);
    GraphAlways(run);
    DisconnectLeaves(e, peerId, handle, correlationId);
    hide IsRun, EngineAfter, LastJoin, TransportsOwned, ProducersOwned, ConsumersOwned, PlanOf, CommitLeave, PeerGone, OneDeparture;
    var c := DisconnectCommand(e, peerId, handle, correlationId);
    LeaveEffects(e, c, "disconnected", order);
  }

  lemma DisconnectLeaves(e: Engine, peerId: string, handle: nat, correlationId: string)
    requires peerId != "" && peerId in e.peers && e.peers[peerId].roomId != "" && PeersOwned(e)
    requires handle == e.peers[peerId].sessionHandle || handle == 0 || e.peers[peerId].sessionHandle == 0
    ensures var c := DisconnectCommand(e, peerId, handle, correlationId);
            && PlanOf(e, Disconnected(peerId, handle, correlationId)) == Call(ClosePeer, c, c)
            && c.roomId in e.rooms && peerId in e.rooms[c.roomId]
  {
  }

  lemma LeaveEffects(e: Engine, c: Command, reason: string, order: seq<string>)
    requires c.roomId in e.rooms && c.peerId in e.rooms[c.roomId] && Lists(order, ClosingProducers(e, c.roomId, c.peerId))
    ensures var o := CommitLeave(e, c, reason, order);
            && o.status.Ok? && PeerGone(e, o.engine, c.roomId, c.peerId)
            && OneDeparture(o.events, PeerLeft(c.correlationId, c.peerId, c.roomId, reason,
                                               MembersOf(o.engine, c.roomId), MembersOf(o.engine, c.roomId)))
  {
    LeaveStrips(e, c.roomId, c.peerId);
    LeaveDeparts(e, c, reason, order);
    hide WithoutPeer, LeaveTrackEvents, LeaveTail, Stripped, OneDeparture;
  }

  /** The late loss of an older connection changes nothing and is not heard of. */
  lemma StaleDisconnectIgnored(run: seq<Record>, peerId: string, handle: nat, correlationId: string, reply: Reply, order: seq<string>)
    requires IsRun(run) && LastJoin(run, peerId).Some? && OrderFits(EngineAfter(run), Disconnected(peerId, handle, correlationId), order)
    requires var joined := LastJoin(run, peerId).value.sessionHandle; handle != joined && handle != 0 && joined != 0
    ensures Perform(EngineAfter(run), Disconnected(peerId, handle, correlationId), reply, order) == Outcome(EngineAfter(run), Ok, [])
  {
    if peerId in EngineAfter(run).peers {
      PeersRemember(run, peerId);
    }
  }

  lemma UnknownDisconnectIgnored(e: Engine, peerId: string, handle: nat, correlationId: string, reply: Reply, order: seq<string>)
    requires OrderFits(e, Disconnected(peerId, handle, correlationId), order) && peerId !in e.peers
    ensures Perform(e, Disconnected(peerId, handle, correlationId), reply, order) == Outcome(e, Ok, [])
  {
  }

  // ---- When a command succeeds, and what holds then ----

  /** The engine as it was but for some of its maps. */
  ghost predicate Succeeds(o: Outcome, next: Engine) {
    o.status.Ok? && o.engine == next
  }

  ghost predicate Fails(e: Engine, o: Outcome) {
    o.status.Failed? && o.engine == e
  }

  lemma CreateEffects(e: Engine, c: Command, policy: Status, reply: Reply)
    ensures var o := Perform(e, Execute(CreateRoom, c, policy), reply, []);
            if policy.Ok? && c.roomId != "" && c.roomId !in e.rooms && (reply.Accepted? || MentionsAlreadyExists(reply.message))
            then Succeeds(o, e.(rooms := e.rooms[c.roomId := {}])) && o.events == []
            else Fails(e, o)
  {
    hide MentionsAlreadyExists;
  }

  /** The backend's refusal counts as success when it says, in any capitals, that the room is there already. */
  lemma AlreadyExistsMeans(message: string)
    ensures MentionsAlreadyExists(message) <==>
            exists before, said, after :: message == Joined3(before, said, after) && SameLetters(said, "already exists")
  {
    hide SameLetters, StandsAt, Lower;
    if MentionsAlreadyExists(message) {
      var i :| 0 <= i <= |message| && StandsAt(Lower(message), "already exists", i);
      StandsWithin(message, i);
      SaidThere(message, i);
      assert message == Joined3(message[..i], message[i..i + 14], message[i + 14..]);
    }
    if before, said, after :| message == Joined3(before, said, after) && SameLetters(said, "already exists") {
      SaidLength(said);
      assert message[|before|..|before| + 14] == said;
      SaidThere(message, |before|);
      assert 0 <= |before| <= |message| && StandsAt(Lower(message), "already exists", |before|);
      assert MentionsAlreadyExists(message);
    }
  }

  lemma StandsWithin(message: string, i: nat)
    requires StandsAt(Lower(message), "already exists", i)
    ensures i + 14 <= |message|
  {
  }

  lemma SaidLength(said: string)
    ensures SameLetters(said, "already exists") ==> |said| == 14
  {
  }

  lemma SaidThere(message: string, i: nat)
    requires i + 14 <= |message|
    ensures StandsAt(Lower(message), "already exists", i) <==> SameLetters(message[i..i + 14], "already exists")
  {
    var said, lowered := message[i..i + 14], Lower(message)[i..i + 14];
    assert forall k :: 0 <= k < 14 ==> lowered[k] == LowerChar(said[k]);
    if SameLetters(said, "already exists") {
      assert lowered == "already exists";
    }
  }

  function Joined3(a: string, b: string, c: string): string {
    a + b + c
  }

  predicate SameLetters(said: string, meant: string) {
    |said| == |meant| && forall k :: 0 <= k < |said| ==>
      said[k] == meant[k] || ('A' <= said[k] <= 'Z' && said[k] as int + 32 == meant[k] as int)
  }

  lemma JoinEffects(e: Engine, c: Command, policy: Status, reply: Reply)
    ensures var o := Perform(e, Execute(JoinSession, c, policy), reply, []);
            if policy.Ok? && c.roomId != "" && c.peerId != "" && c.roomId in e.rooms && reply.Accepted?
            then Succeeds(o, e.(rooms := e.rooms[c.roomId := e.rooms[c.roomId] + {c.peerId}],
                                peers := e.peers[c.peerId := Peer(c.roomId, c.sessionHandle)]))
            else Fails(e, o)
  {
    hide ActiveProducersOf;
  }

  lemma OpenEffects(e: Engine, c: Command, policy: Status, reply: Reply)
    ensures var o := Perform(e, Execute(OpenTransport, c, policy), reply, []);
            if && policy.Ok? && c.roomId != "" && c.peerId != "" && c.transportId != "" && c.transportId !in e.transports
               && c.roomId in e.rooms && c.peerId in e.rooms[c.roomId] && reply.Accepted?
            then Succeeds(o, e.(transports := e.transports[c.transportId := Transport(c.roomId, c.peerId)]))
            else Fails(e, o)
  {
  }

  /** The producer is its transport's; the backend's word on kind and track type counts where it gives one. */
  lemma PublishEffects(e: Engine, c: Command, policy: Status, reply: Reply)
    ensures var o := Perform(e, Execute(PublishTrack, c, policy), reply, []);
            if policy.Ok? && c.producerId != "" && c.transportId in e.transports && c.producerId !in e.producers && reply.Accepted?
            then
              var t := e.transports[c.transportId];
              var kind := if reply.data.kind.Some? then reply.data.kind.value else c.kind;
              var trackType := if reply.data.trackType.Some? then reply.data.trackType.value else c.trackType;
              Succeeds(o, e.(producers := e.producers[c.producerId := Producer(t.roomId, t.peerId, c.transportId, kind, trackType)]))
            else Fails(e, o)
  {
  }

  /** The producer is known, the peer's own, and in the room named if one is named. */
  predicate OwnTrack(e: Engine, c: Command) {
    && c.peerId != "" && c.producerId != "" && c.producerId in e.producers && e.producers[c.producerId].peerId == c.peerId
    && (c.roomId == "" || e.producers[c.producerId].roomId == c.roomId)
  }

  lemma PauseResumeEffects(e: Engine, intent: Intent, c: Command, policy: Status, reply: Reply)
    requires intent.PauseTrack? || intent.ResumeTrack?
    ensures var o := Perform(e, Execute(intent, c, policy), reply, []);
            if policy.Ok? && OwnTrack(e, c) && reply.Accepted? then Succeeds(o, e) && |o.events| == 1 else Fails(e, o)
  {
  }

  /** The producer goes, and its consumers in its room; all others stay. */
  lemma CloseEffects(e: Engine, c: Command, policy: Status, reply: Reply)
    ensures var o := Perform(e, Execute(CloseTrack, c, policy), reply, []);
            if policy.Ok? && OwnTrack(e, c) && reply.Accepted?
            then
              var roomId := e.producers[c.producerId].roomId;
              && Succeeds(o, e.(producers := e.producers - {c.producerId}, consumers := o.engine.consumers))
              && (forall id :: id in o.engine.consumers <==>
                    id in e.consumers && !(e.consumers[id].producerId == c.producerId && e.consumers[id].roomId == roomId))
              && (forall id :: id in o.engine.consumers ==> o.engine.consumers[id] == e.consumers[id])
            else Fails(e, o)
  {
  }

  lemma ConsumeEffects(e: Engine, c: Command, policy: Status, reply: Reply)
    ensures var o := Perform(e, Execute(ConsumeTrack, c, policy), reply, []);
            if && policy.Ok? && c.roomId != "" && c.peerId != "" && c.transportId != ""
               && c.transportId in e.transports && e.transports[c.transportId] == Transport(c.roomId, c.peerId)
               && c.producerId in e.producers && e.producers[c.producerId].roomId == c.roomId && reply.Accepted?
            then
              var p, data := e.producers[c.producerId], reply.data;
              var id := if data.consumerId.Some? then data.consumerId.value else c.consumerId;
              if id == "" then Succeeds(o, e)
              else Succeeds(o, e.(consumers := e.consumers[id := Consumer(c.roomId, c.peerId, c.transportId, c.producerId, p.peerId,
                                    if data.kind.Some? then data.kind.value else p.kind,
                                    if data.trackType.Some? then data.trackType.value else p.trackType,
                                    if data.paused.Some? then data.paused.value else true)]))
            else Fails(e, o)
  {
  }

  lemma ResumeConsumerEffects(e: Engine, c: Command, policy: Status, reply: Reply)
    ensures var o := Perform(e, Execute(ResumeConsumer, c, policy), reply, []);
            if && policy.Ok? && c.peerId != "" && c.consumerId != "" && c.consumerId in e.consumers
               && e.consumers[c.consumerId].peerId == c.peerId && reply.Accepted?
            then Succeeds(o, e.(consumers := e.consumers[c.consumerId := e.consumers[c.consumerId].(paused := false)]))
            else Fails(e, o)
  {
  }

  predicate OwnTransport(e: Engine, c: Command) {
    && c.peerId != "" && c.transportId != "" && c.transportId in e.transports && e.transports[c.transportId].peerId == c.peerId
    && (c.roomId == "" || e.transports[c.transportId].roomId == c.roomId)
  }

  /** An offer needs the backend; a candidate is accepted without it. */
  lemma SignalEffects(e: Engine, intent: Intent, c: Command, policy: Status, reply: Reply)
    requires intent.ApplyOffer? || intent.ApplyIce?
    ensures var o := Perform(e, Execute(intent, c, policy), reply, []);
            if policy.Ok? && OwnTransport(e, c) && (intent.ApplyIce? || reply.Accepted?) then Succeeds(o, e) && o.events == [] else Fails(e, o)
  {
  }

  lemma StatsEffects(e: Engine, c: Command, policy: Status, reply: Reply)
    ensures var o := Perform(e, Execute(ReadStats, c, policy), reply, []);
            if policy.Ok? && reply.Accepted? then Succeeds(o, e) && o.events == [] else Fails(e, o)
  {
  }

  lemma LeaveSucceeds(e: Engine, c: Command, policy: Status, reply: Reply, order: seq<string>)
    requires OrderFits(e, Execute(LeaveSession, c, policy), order)
    ensures var o := Perform(e, Execute(LeaveSession, c, policy), reply, order);
            if policy.Ok? && c.roomId != "" && c.peerId != "" && c.roomId in e.rooms && c.peerId in e.rooms[c.roomId] && reply.Accepted?
            then
              && o.status.Ok? && PeerGone(e, o.engine, c.roomId, c.peerId)
              && OneDeparture(o.events, PeerLeft(c.correlationId, c.peerId, c.roomId, "left",
                                                 MembersOf(o.engine, c.roomId), MembersOf(o.engine, c.roomId)))
            else Fails(e, o)
  {
    var input := Execute(LeaveSession, c, policy);
    if PlanOf(e, input).Call? {
      assert PlanOf(e, input) == Call(LeavePeer, c, c);
      LeaveEffects(e, c, "left", order);
    }
    hide CommitLeave, PeerGone, OneDeparture;
  }

  /** A close leaves the room it names, or else the peer's latest; of a peer without entry there is nothing to close. */
  lemma CloseSessionSucceeds(e: Engine, c: Command, policy: Status, reply: Reply, order: seq<string>)
    requires OrderFits(e, Execute(CloseSession, c, policy), order)
    ensures var o := Perform(e, Execute(CloseSession, c, policy), reply, order);
            if policy.Failed? || c.peerId == "" then Fails(e, o)
            else if c.peerId !in e.peers then o == Outcome(e, Ok, [])
            else
              var roomId := if c.roomId == "" then e.peers[c.peerId].roomId else c.roomId;
              if roomId != "" && roomId in e.rooms && c.peerId in e.rooms[roomId] && reply.Accepted?
              then
                && o.status.Ok? && PeerGone(e, o.engine, roomId, c.peerId)
                && OneDeparture(o.events, PeerLeft(c.correlationId, c.peerId, roomId, "webrtc_close",
                                                   MembersOf(o.engine, roomId), MembersOf(o.engine, roomId)))
              else Fails(e, o)
  {
    var input := Execute(CloseSession, c, policy);
    if PlanOf(e, input).Call? {
      var sent := if c.roomId == "" then c.(roomId := e.peers[c.peerId].roomId) else c;
      assert PlanOf(e, input) == Call(ClosePeer, sent, sent);
      LeaveEffects(e, sent, "webrtc_close", order);
    }
    hide CommitLeave, PeerGone, OneDeparture;
  }

  // ---- Who is told what ----

  /** The snapshot names the producers of the room, each with its owner, kind and track type, and no others. */
  ghost predicate NamesProducers(e: Engine, snapshots: set<ProducerSnapshot>, roomId: string) {
    && (forall x :: x in snapshots ==>
          && x.producerId in e.producers && e.producers[x.producerId].roomId == roomId
          && x.peerId == e.producers[x.producerId].peerId && x.kind == e.producers[x.producerId].kind
          && x.trackType == e.producers[x.producerId].trackType)
    && (forall id :: id in e.producers && e.producers[id].roomId == roomId ==>
          ProducerSnapshot(id, e.producers[id].peerId, e.producers[id].kind, e.producers[id].trackType) in snapshots)
  }

  /** What an event says and whom it goes to, told by the state before its command and the state after. */
  ghost predicate Addressed(before: Engine, after: Engine, event: Event) {
    match event
    case RoomState(_, peerId, roomId, members, active, notify) =>
      notify == {peerId} && members == MembersOf(after, roomId) && NamesProducers(after, active, roomId)
    case SessionStarted(_, _, roomId, members, notify) => members == MembersOf(after, roomId) && notify == members
    case SessionEnded(_, peerId, _, notify) => notify == {peerId}
    case PeerJoined(_, peerId, roomId, members, notify) =>
      members == MembersOf(after, roomId) && peerId in members && notify == MembersOf(before, roomId)
    case PeerLeft(_, peerId, roomId, _, members, notify) =>
      members == MembersOf(after, roomId) && peerId !in members && notify == members
    case TransportOpened(_, peerId, roomId, transportId, notify) =>
      notify == {peerId} && transportId in after.transports && after.transports[transportId] == Transport(roomId, peerId)
    case TrackPublished(_, peerId, _, _, producerId, kind, trackType, _, members, notify) =>
      && producerId in after.producers
      && kind == after.producers[producerId].kind && trackType == after.producers[producerId].trackType
      && members == MembersOf(after, after.producers[producerId].roomId) && notify == members - {peerId}
    case TrackClosed(_, peerId, roomId, producerId, kind, trackType, _, _, notify) =>
      && producerId in before.producers && before.producers[producerId].roomId == roomId
      && kind == before.producers[producerId].kind && trackType == before.producers[producerId].trackType
      && notify == MembersOf(after, roomId) - {peerId}
    case ConsumerResumed(_, peerId, roomId, consumerId, producerId, producerPeerId, kind, trackType, notify) =>
      && notify == {peerId} && consumerId in after.consumers
      && var k := after.consumers[consumerId];
         && k.roomId == roomId && k.producerId == producerId && k.producerPeerId == producerPeerId
         && k.kind == kind && k.trackType == trackType && !k.paused
    case SessionClosed(_, peerId, _, _, notify) => notify == {peerId}
    case TransportError(_, _) => before == after
  }

  ghost predicate AllAddressed(before: Engine, o: Outcome) {
    forall event :: event in o.events ==> Addressed(before, o.engine, event)
  }

  lemma JoinAddressed(e: Engine, c: Command)
    requires c.roomId in e.rooms
    ensures AllAddressed(e, CommitJoin(e, c))
  {
    var o := CommitJoin(e, c);
    assert o.events[0].RoomState? && NamesProducers(o.engine, o.events[0].activeProducers, c.roomId);
    hide NamesProducers, ActiveProducersOf;
    forall event | event in o.events ensures Addressed(e, o.engine, event) {
      assert event == o.events[0] || event == o.events[1] || (|o.events| == 3 && event == o.events[2]);
    }
  }

  lemma TracksAddressed(e: Engine, next: Engine, c: Command, order: seq<string>)
    requires Lists(order, ClosingProducers(e, c.roomId, c.peerId))
    requires MembersOf(next, c.roomId) == MembersOf(e, c.roomId) - {c.peerId}
    ensures forall event :: event in LeaveTrackEvents(e, c, MembersOf(next, c.roomId), order) ==> Addressed(e, next, event)
  {
    TrackEventsAre(e, c, MembersOf(next, c.roomId), order);
    var events := LeaveTrackEvents(e, c, MembersOf(next, c.roomId), order);
    hide LeaveTrackEvents;
    forall event | event in events ensures Addressed(e, next, event) {
      var i :| 0 <= i < |events| && events[i] == event;
      assert order[i] in ClosingProducers(e, c.roomId, c.peerId);
    }
  }

  lemma {:induction false} TrackEventsAre(e: Engine, c: Command, remaining: set<string>, order: seq<string>)
    requires forall id :: id in order ==> id in e.producers
    ensures forall i :: 0 <= i < |order| ==>
              var p := e.producers[order[i]];
              LeaveTrackEvents(e, c, remaining, order)[i] == ClosureOf(c, remaining, order[i], p.kind, p.trackType)
  {
    if order != [] {
      TrackEventsAre(e, c, remaining, order[1..]);
    }
  }

  lemma LeaveAddressed(e: Engine, c: Command, reason: string, order: seq<string>)
    requires c.roomId in e.rooms && c.peerId in e.rooms[c.roomId] && Lists(order, ClosingProducers(e, c.roomId, c.peerId))
    ensures AllAddressed(e, CommitLeave(e, c, reason, order))
  {
    var o := CommitLeave(e, c, reason, order);
    LeaveShrinks(e, c.roomId, c.peerId, c.roomId);
    TracksAddressed(e, o.engine, c, order);
    hide LeaveTrackEvents, WithoutPeer;
    forall event | event in o.events ensures Addressed(e, o.engine, event) {
      assert event in LeaveTrackEvents(e, c, e.rooms[c.roomId] - {c.peerId}, order) || event in LeaveTail(c, e.rooms[c.roomId] - {c.peerId}, reason);
    }
  }

  lemma TrackChangeAddressed(e: Engine, c: Command, intent: Intent)
    requires c.producerId in e.producers && (intent.PauseTrack? || intent.ResumeTrack? || intent.CloseTrack?)
    ensures AllAddressed(e, CommitTrackChange(e, c, intent))
  {
  }

  lemma PublishAddressed(e: Engine, c: Command, data: ReplyData)
    requires c.transportId in e.transports
    ensures AllAddressed(e, CommitPublish(e, c, data))
  {
  }

  lemma ResumeConsumerAddressed(e: Engine, c: Command)
    requires c.consumerId in e.consumers && e.consumers[c.consumerId].peerId == c.peerId
    ensures AllAddressed(e, CommitResumeConsumer(e, c))
  {
  }

  lemma ResumePlanned(e: Engine, input: Input)
    requires PlanOf(e, input).Call?
    ensures input.Execute? && input.intent.ResumeConsumer? ==>
              input.command.consumerId in e.consumers && e.consumers[input.command.consumerId].peerId == input.command.peerId
  {
  }

  lemma CommitAddressed(e: Engine, input: Input, data: ReplyData, order: seq<string>)
    requires PlanOf(e, input).Call? && OrderFits(e, input, order)
    ensures AllAddressed(e, Commit(e, input, data, order))
  {
    Validated(e, input);
    ResumePlanned(e, input);
    hide PlanOf, CommitLeave, CommitJoin, CommitPublish, CommitTrackChange, CommitResumeConsumer, CommitConsume;
    ConsumeSilent(e, input, data);
    if IsLeave(input) {
      LeaveAddressed(e, PlanOf(e, input).sent, LeaveReason(input), order);
    } else {
      var c := input.command;
      match input.intent {
        case JoinSession => JoinAddressed(e, c);
        case PublishTrack => PublishAddressed(e, c, data);
        case PauseTrack => TrackChangeAddressed(e, c, input.intent);
        case ResumeTrack => TrackChangeAddressed(e, c, input.intent);
        case CloseTrack => TrackChangeAddressed(e, c, input.intent);
        case ResumeConsumer => ResumeConsumerAddressed(e, c);
        case _ =>
      }
    }
  }

  lemma ConsumeSilent(e: Engine, input: Input, data: ReplyData)
    requires input.Execute? && input.intent.ConsumeTrack? ==> input.command.producerId in e.producers
    ensures input.Execute? && input.intent.ConsumeTrack? ==> CommitConsume(e, input.command, data).events == []
  {
  }

  lemma PerformAddressed(e: Engine, input: Input, reply: Reply, order: seq<string>)
    requires OrderFits(e, input, order)
    ensures AllAddressed(e, Perform(e, input, reply, order))
  {
    if PlanOf(e, input).Call? && reply.Accepted? {
      CommitAddressed(e, input, reply.data, order);
    }
    hide PlanOf, Commit, MentionsAlreadyExists, OrderFits;
  }

  /**
   Every event of every run says what is so and goes to those concerned: a newcomer gets the room with all its
   members and producers; the others hear of joins, departures and tracks; what is a peer's own goes to it alone.
   */
  lemma EventsAddressed(run: seq<Record>, i: nat, event: Event)
    requires IsRun(run) && i < |run| && event in run[i].outcome.events
    ensures Addressed(run[i].before, run[i].outcome.engine, event)
    decreases |run|
  {
    if i < |run| - 1 {
      EventsAddressed(run[..|run| - 1], i, event);
    } else {
      PerformAddressed(run[i].before, run[i].input, run[i].reply, run[i].order);
    }
  }

  /** A successful join tells the newcomer first, then the others; the first to come also starts the session. */
  lemma JoinAnnounced(e: Engine, c: Command, policy: Status, reply: Reply)
    requires Perform(e, Execute(JoinSession, c, policy), reply, []).status.Ok?
    ensures var events := Perform(e, Execute(JoinSession, c, policy), reply, []).events;
            && |events| == (if MembersOf(e, c.roomId) == {} then 3 else 2)
            && events[0].RoomState? && events[1].PeerJoined? && (|events| == 3 ==> events[2].SessionStarted?)
            && forall x :: x in events && !x.TransportError? ==> x.peerId == c.peerId && x.roomId == c.roomId && x.correlationId == c.correlationId
  {
    hide ActiveProducersOf;
  }

  // ---- What the backend is asked ----

  /** Each intent has its operation; the command goes out as it came, with the room filled in where the engine knows it. */
  lemma BackendAsked(e: Engine, intent: Intent, c: Command, policy: Status)
    requires PlanOf(e, Execute(intent, c, policy)).Call?
    ensures var plan := PlanOf(e, Execute(intent, c, policy));
            match intent
            case CreateRoom => plan.operation == CreateRouter && plan.sent == c
            case JoinSession => plan.operation == JoinPeer && plan.sent == c
            case LeaveSession => plan.operation == LeavePeer && plan.sent == c
            case OpenTransport => plan.operation == CreateWebRtcTransport && plan.sent == c
            case PublishTrack => plan.operation == Produce && plan.sent == c
            case PauseTrack => plan.operation == PauseProducer && plan.sent == c.(roomId := e.producers[c.producerId].roomId)
            case ResumeTrack => plan.operation == ResumeProducer && plan.sent == c.(roomId := e.producers[c.producerId].roomId)
            case CloseTrack => plan.operation == CloseProducer && plan.sent == c.(roomId := e.producers[c.producerId].roomId)
            case ConsumeTrack => plan.operation == Consume && plan.sent == c
            case ResumeConsumer => plan.operation == ResumeConsumerStream && plan.sent == c.(roomId := e.consumers[c.consumerId].roomId)
            case ApplyOffer => plan.operation == ConnectDtls && plan.sent == c.(roomId := e.transports[c.transportId].roomId)
            case ApplyIce => false
            case ReadStats => plan.operation == GetMediaStats && plan.sent == c
            case CloseSession => plan.operation == ClosePeer && plan.sent == c.(roomId := if c.roomId == "" then e.peers[c.peerId].roomId else c.roomId)
  {
  }
}
