/** The engine as the source writes it: fields updated in place, one method per intent, erase loops over the maps. */
module SfuEngineObject {
  import opened MediaTypes
  import opened SfuEngine

  class MediasoupSfuEngine {
    var rooms: map<string, set<string>>
    var peers: map<string, Peer>
    var transports: map<string, Transport>
    var producers: map<string, Producer>
    var consumers: map<string, Consumer>

    function State(): Engine
      reads this
    {
      Engine(rooms, peers, transports, producers, consumers)
    }

    constructor ()
      ensures State() == EMPTY
    {
      rooms, peers, transports, producers, consumers := map[], map[], map[], map[], map[];
    }

    method CollectRoomPeers(roomId: string) returns (members: set<string>)
      ensures members == MembersOf(State(), roomId)
    {
      members := {};
      if roomId !in rooms {
        return;
      }
      var pending := rooms[roomId];
      while pending != {}
        invariant pending <= rooms[roomId]
        invariant members == rooms[roomId] - pending
        decreases pending
      {
        var peerId :| peerId in pending;
        members, pending := members + {peerId}, pending - {peerId};
      }
    }

    method CollectProducerSnapshots(roomId: string) returns (snapshots: set<ProducerSnapshot>)
      ensures snapshots == ActiveProducersOf(State(), roomId)
    {
      snapshots := {};
      var pending := producers.Keys;
      while pending != {}
        invariant pending <= producers.Keys
        invariant snapshots == set id | id in producers && id !in pending && producers[id].roomId == roomId ::
                                 ProducerSnapshot(id, producers[id].peerId, producers[id].kind, producers[id].trackType)
        decreases pending
      {
        var id :| id in pending;
        pending := pending - {id};
        if producers[id].roomId == roomId {
          var p := producers[id];
          snapshots := snapshots + {ProducerSnapshot(id, p.peerId, p.kind, p.trackType)};
        }
      }
    }

    /** Copies out the peer's producers, in whatever order the table yields them. */
    method CollectClosingProducers(roomId: string, peerId: string)
      returns (order: seq<string>, snapshots: seq<ProducerSnapshot>)
      ensures Lists(order, ClosingProducers(State(), roomId, peerId))
      ensures |snapshots| == |order|
      ensures forall i :: 0 <= i < |order| ==>
                order[i] in producers
                && snapshots[i] == ProducerSnapshot(order[i], producers[order[i]].peerId, producers[order[i]].kind,
                                                    producers[order[i]].trackType)
    {
      order, snapshots := [], [];
      var pending := producers.Keys;
      while pending != {}
        invariant pending <= producers.Keys
        invariant Lists(order, ClosingProducers(State(), roomId, peerId) - pending)
        invariant |snapshots| == |order|
        invariant forall i :: 0 <= i < |order| ==>
                    order[i] in producers
                    && snapshots[i] == ProducerSnapshot(order[i], producers[order[i]].peerId,
                                                        producers[order[i]].kind, producers[order[i]].trackType)
        decreases pending
      {
        var id :| id in pending;
        var p := producers[id];
        if p.roomId == roomId && p.peerId == peerId {
          order, snapshots := order + [id], snapshots + [ProducerSnapshot(id, p.peerId, p.kind, p.trackType)];
        }
        pending := pending - {id};
      }
    }

    method EraseTransportsOf(roomId: string, peerId: string)
      modifies this`transports
      ensures transports == map id | id in old(transports)
                              && !(old(transports)[id].roomId == roomId && old(transports)[id].peerId == peerId) ::
                              old(transports)[id]
    {
      var pending := transports.Keys;
      while pending != {}
        invariant pending <= transports.Keys
        invariant transports == map id | id in old(transports)
                                  && (id in pending || !(old(transports)[id].roomId == roomId && old(transports)[id].peerId == peerId)) ::
                                  old(transports)[id]
        decreases pending
      {
        var id :| id in pending;
        pending := pending - {id};
        if transports[id].roomId == roomId && transports[id].peerId == peerId {
          transports := transports - {id};
        }
      }
    }

    method EraseProducersOf(roomId: string, peerId: string)
      modifies this`producers
      ensures producers == map id | id in old(producers)
                             && !(old(producers)[id].roomId == roomId && old(producers)[id].peerId == peerId) ::
                             old(producers)[id]
    {
      var pending := producers.Keys;
      while pending != {}
        invariant pending <= producers.Keys
        invariant producers == map id | id in old(producers)
                                 && (id in pending || !(old(producers)[id].roomId == roomId && old(producers)[id].peerId == peerId)) ::
                                 old(producers)[id]
        decreases pending
      {
        var id :| id in pending;
        pending := pending - {id};
        if producers[id].roomId == roomId && producers[id].peerId == peerId {
          producers := producers - {id};
        }
      }
    }

    method EraseConsumersOf(roomId: string, peerId: string, closing: set<string>)
      modifies this`consumers
      ensures consumers == map id | id in old(consumers)
                             && !(old(consumers)[id].roomId == roomId && old(consumers)[id].peerId == peerId)
                             && old(consumers)[id].producerId !in closing ::
                             old(consumers)[id]
    {
      var pending := consumers.Keys;
      while pending != {}
        invariant pending <= consumers.Keys
        invariant consumers == map id | id in old(consumers)
                                 && (id in pending
                                     || (!(old(consumers)[id].roomId == roomId && old(consumers)[id].peerId == peerId)
                                         && old(consumers)[id].producerId !in closing)) ::
                                 old(consumers)[id]
        decreases pending
      {
        var id :| id in pending;
        pending := pending - {id};
        if (consumers[id].roomId == roomId && consumers[id].peerId == peerId) || consumers[id].producerId in closing {
          consumers := consumers - {id};
        }
      }
    }

    /** The consumers of one closed producer in its room. */
    method EraseConsumersOfProducer(producerId: string, roomId: string)
      modifies this`consumers
      ensures consumers == map id | id in old(consumers)
                             && !(old(consumers)[id].producerId == producerId && old(consumers)[id].roomId == roomId) ::
                             old(consumers)[id]
    {
      var pending := consumers.Keys;
      while pending != {}
        invariant pending <= consumers.Keys
        invariant consumers == map id | id in old(consumers)
                                 && (id in pending
                                     || !(old(consumers)[id].producerId == producerId && old(consumers)[id].roomId == roomId)) ::
                                 old(consumers)[id]
        decreases pending
      {
        var id :| id in pending;
        pending := pending - {id};
        if consumers[id].producerId == producerId && consumers[id].roomId == roomId {
          consumers := consumers - {id};
        }
      }
    }

    method ClearPeerRuntime(roomId: string, peerId: string, closing: set<string>)
      modifies this`transports, this`producers, this`consumers, this`peers
      ensures peers == old(peers) - {peerId}
      ensures transports == map id | id in old(transports)
                              && !(old(transports)[id].roomId == roomId && old(transports)[id].peerId == peerId) ::
                              old(transports)[id]
      ensures producers == map id | id in old(producers)
                             && !(old(producers)[id].roomId == roomId && old(producers)[id].peerId == peerId) ::
                             old(producers)[id]
      ensures consumers == map id | id in old(consumers)
                             && !(old(consumers)[id].roomId == roomId && old(consumers)[id].peerId == peerId)
                             && old(consumers)[id].producerId !in closing ::
                             old(consumers)[id]
    {
      EraseTransportsOf(roomId, peerId);
      EraseProducersOf(roomId, peerId);
      EraseConsumersOf(roomId, peerId, closing);
      peers := peers - {peerId};
    }

    /** One closure event for each producer that went away with the peer. */
    method TrackClosedEvents(ghost before: Engine, ghost order: seq<string>,
                             c: Command, remaining: set<string>, closing: seq<ProducerSnapshot>)
      returns (events: seq<Event>)
      requires |closing| == |order|
      requires forall i :: 0 <= i < |order| ==>
                 order[i] in before.producers
                 && closing[i] == ProducerSnapshot(order[i], before.producers[order[i]].peerId,
                                                   before.producers[order[i]].kind, before.producers[order[i]].trackType)
      ensures events == LeaveTrackEvents(before, c, remaining, order)
    {
      hide LeaveTrackEvents;
      events := [];
      while |events| < |closing|
        invariant |events| <= |closing|
        invariant forall k :: 0 <= k < |events| ==>
                    events[k] == ClosureOf(c, remaining, closing[k].producerId, closing[k].kind, closing[k].trackType)
      {
        var producer := closing[|events|];
        events := events + [ClosureOf(c, remaining, producer.producerId, producer.kind, producer.trackType)];
      }
      AllClosures(before, c, remaining, order, events);
    }

    /** Takes the peer out of the room and clears what it held; an emptied room goes away. */
    method RemovePeer(roomId: string, peerId: string, closing: set<string>) returns (remaining: set<string>)
      requires roomId in rooms && closing == ClosingProducers(State(), roomId, peerId)
      modifies this
      ensures remaining == old(rooms)[roomId] - {peerId}
      ensures State() == WithoutPeer(old(State()), roomId, peerId)
    {
      rooms := rooms[roomId := rooms[roomId] - {peerId}];
      remaining := CollectRoomPeers(roomId);
      ClearPeerRuntime(roomId, peerId, closing);
      if rooms[roomId] == {} {
        rooms := rooms - {roomId};
      }
    }

    /** Leaves a room: refused without effect, refused by the backend without effect, or carried out. */
    method LeaveSession(c: Command, reason: string, operation: Operation, reply: Reply)
      returns (status: Status, events: seq<Event>, ghost order: seq<string>)
      modifies this
      ensures match PlanLeave(old(State()), c, operation)
              case Refuse(message, blamed) =>
                State() == old(State()) && status == Failed(message) && events == [TransportError(blamed, message)]
              case Settled => false
              case Call(_, _, blamed) =>
                && Lists(order, ClosingProducers(old(State()), c.roomId, c.peerId))
                && match reply
                   case Accepted(_) => Outcome(State(), status, events) == CommitLeave(old(State()), c, reason, order)
                   case Rejected(message) =>
                     State() == old(State()) && status == Failed(message) && events == [TransportError(blamed, message)]
    {
      order := [];
      if c.roomId == "" {
        status := Failed("roomId must not be empty.");
        events := [TransportError(c, status.message)];
        return;
      }
      if c.peerId == "" {
        status := Failed("peerId must not be empty.");
        events := [TransportError(c, status.message)];
        return;
      }
      if c.roomId !in rooms {
        status := Failed("Room not found: " + c.roomId);
        events := [TransportError(c, status.message)];
        return;
      }
      if c.peerId !in rooms[c.roomId] {
        status := Failed("Peer is not joined to room.");
        events := [TransportError(c, status.message)];
        return;
      }
      ghost var before := State();
      var closingIds, closing := CollectClosingProducers(c.roomId, c.peerId);
      order := closingIds;
      if reply.Rejected? {
        status := Failed(reply.message);
        events := [TransportError(c, status.message)];
        return;
      }
      hide LeaveTail, LeaveTrackEvents, WithoutPeer;
      var remaining := RemovePeer(c.roomId, c.peerId, set id | id in closingIds);
      var closures := TrackClosedEvents(before, order, c, remaining, closing);
      var tail := DepartureEvents(c, remaining, reason);
      events := closures + tail;
      status := Ok;
    }

    /** The departure itself, and the end of the session if nobody is left. */
    method DepartureEvents(c: Command, remaining: set<string>, reason: string) returns (events: seq<Event>)
      ensures events == LeaveTail(c, remaining, reason)
    {
      events := [PeerLeft(c.correlationId, c.peerId, c.roomId, reason, remaining, remaining)];
      events := events + [SessionClosed(c.correlationId, c.peerId, c.roomId, reason, {c.peerId})];
      if remaining == {} {
        events := events + [SessionEnded(c.correlationId, c.peerId, c.roomId, {c.peerId})];
      }
    }

    /** Registers a room; one the backend already has is adopted. */
    method CreateRoomFor(c: Command, reply: Reply) returns (status: Status, events: seq<Event>)
      modifies this
      ensures Outcome(State(), status, events) == Perform(old(State()), Execute(CreateRoom, c, Ok), reply, [])
    {
      if c.roomId == "" {
        status := Failed("roomId must not be empty.");
        events := [TransportError(c, status.message)];
        return;
      }
      if c.roomId in rooms {
        status := Failed("Room already exists: " + c.roomId);
        events := [TransportError(c, status.message)];
        return;
      }
      if reply.Rejected? && !MentionsAlreadyExists(reply.message) {
        status := Failed(reply.message);
        events := [TransportError(c, status.message)];
        return;
      }
      rooms := rooms[c.roomId := {}];
      events := [];
      status := Ok;
    }

    /** Joins a room and announces the newcomer; the first member starts the session. */
    method JoinSessionFor(c: Command, reply: Reply) returns (status: Status, events: seq<Event>)
      modifies this
      ensures Outcome(State(), status, events) == Perform(old(State()), Execute(JoinSession, c, Ok), reply, [])
    {
      if c.roomId == "" {
        status := Failed("roomId must not be empty.");
        events := [TransportError(c, status.message)];
        return;
      }
      if c.peerId == "" {
        status := Failed("peerId must not be empty.");
        events := [TransportError(c, status.message)];
        return;
      }
      if c.roomId !in rooms {
        status := Failed("Room not found: " + c.roomId);
        events := [TransportError(c, status.message)];
        return;
      }
      if reply.Rejected? {
        status := Failed(reply.message);
        events := [TransportError(c, status.message)];
        return;
      }
      var previous := CollectRoomPeers(c.roomId);
      rooms := rooms[c.roomId := rooms[c.roomId] + {c.peerId}];
      peers := peers[c.peerId := Peer(c.roomId, c.sessionHandle)];
      var current := CollectRoomPeers(c.roomId);
      var active := CollectProducerSnapshots(c.roomId);
      events := [RoomState(c.correlationId, c.peerId, c.roomId, current, active, {c.peerId}),
                 PeerJoined(c.correlationId, c.peerId, c.roomId, current, previous)];
      if previous == {} {
        events := events + [SessionStarted(c.correlationId, c.peerId, c.roomId, current, current)];
      }
      status := Ok;
    }

    /** Opens a transport for a member of the room. */
    method OpenTransportFor(c: Command, reply: Reply) returns (status: Status, events: seq<Event>)
      modifies this
      ensures Outcome(State(), status, events) == Perform(old(State()), Execute(OpenTransport, c, Ok), reply, [])
    {
      if c.roomId == "" {
        status := Failed("roomId must not be empty.");
        events := [TransportError(c, status.message)];
        return;
      }
      if c.peerId == "" {
        status := Failed("peerId must not be empty.");
        events := [TransportError(c, status.message)];
        return;
      }
      if c.transportId == "" {
        status := Failed("transportId must not be empty.");
        events := [TransportError(c, status.message)];
        return;
      }
      if c.transportId in transports {
        status := Failed("Transport already exists: " + c.transportId);
        events := [TransportError(c, status.message)];
        return;
      }
      if c.roomId !in rooms || c.peerId !in rooms[c.roomId] {
        status := Failed("Peer must join room before opening transport.");
        events := [TransportError(c, status.message)];
        return;
      }
      if reply.Rejected? {
        status := Failed(reply.message);
        events := [TransportError(c, status.message)];
        return;
      }
      transports := transports[c.transportId := Transport(c.roomId, c.peerId)];
      events := [TransportOpened(c.correlationId, c.peerId, c.roomId, c.transportId, {c.peerId})];
      status := Ok;
    }

    /** Publishes a track on a transport; the track belongs to the transport's room and peer. */
    method PublishTrackFor(c: Command, reply: Reply) returns (status: Status, events: seq<Event>)
      modifies this
      ensures Outcome(State(), status, events) == Perform(old(State()), Execute(PublishTrack, c, Ok), reply, [])
    {
      if c.producerId == "" {
        status := Failed("producerId must not be empty.");
        events := [TransportError(c, status.message)];
        return;
      }
      if c.transportId !in transports {
        status := Failed("Transport not found: " + c.transportId);
        events := [TransportError(c, status.message)];
        return;
      }
      if c.producerId in producers {
        status := Failed("Producer already exists: " + c.producerId);
        events := [TransportError(c, status.message)];
        return;
      }
      if reply.Rejected? {
        status := Failed(reply.message);
        events := [TransportError(c, status.message)];
        return;
      }
      var t := transports[c.transportId];
      var kind := reply.data.kind.GetOr(c.kind);
      var trackType := reply.data.trackType.GetOr(c.trackType);
      producers := producers[c.producerId := Producer(t.roomId, t.peerId, c.transportId, kind, trackType)];
      var roomPeers := CollectRoomPeers(t.roomId);
      events := [TrackPublished(c.correlationId, c.peerId, c.roomId, c.transportId, c.producerId, kind, trackType, "",
                                roomPeers, roomPeers - {c.peerId})];
      status := Ok;
    }

    /** Pauses, resumes or closes a track its peer owns; closing also drops the track's consumers. */
    method ChangeTrackFor(c: Command, reply: Reply, intent: Intent) returns (status: Status, events: seq<Event>)
      requires intent.PauseTrack? || intent.ResumeTrack? || intent.CloseTrack?
      modifies this
      ensures Outcome(State(), status, events) == Perform(old(State()), Execute(intent, c, Ok), reply, [])
    {
      if c.peerId == "" {
        status := Failed("peerId must not be empty.");
        events := [TransportError(c, status.message)];
        return;
      }
      if c.producerId == "" {
        status := Failed("producerId must not be empty.");
        events := [TransportError(c, status.message)];
        return;
      }
      if c.producerId !in producers {
        status := Failed("Producer not found: " + c.producerId);
        events := [TransportError(c, status.message)];
        return;
      }
      if producers[c.producerId].peerId != c.peerId {
        status := Failed("Producer is not owned by peer.");
        events := [TransportError(c, status.message)];
        return;
      }
      if c.roomId != "" && producers[c.producerId].roomId != c.roomId {
        status := Failed("Producer is registered in another room.");
        events := [TransportError(c, status.message)];
        return;
      }
      if reply.Rejected? {
        status := Failed(reply.message);
        events := [TransportError(c, status.message)];
        return;
      }
      var p := producers[c.producerId];
      var roomPeers := CollectRoomPeers(p.roomId);
      var others := roomPeers - {c.peerId};
      if intent.CloseTrack? {
        producers := producers - {c.producerId};
        EraseConsumersOfProducer(c.producerId, p.roomId);
        events := [TrackClosed(c.correlationId, c.peerId, p.roomId, c.producerId, p.kind, p.trackType, "closed", roomPeers, others)];
      } else if intent.PauseTrack? {
        events := [TrackClosed(c.correlationId, c.peerId, p.roomId, c.producerId, p.kind, p.trackType, "paused", roomPeers, others)];
      } else {
        events := [TrackPublished(c.correlationId, c.peerId, p.roomId, "", c.producerId, p.kind, p.trackType, "resumed", roomPeers, others)];
      }
      status := Ok;
    }

    /** Consumes a track over a transport of the same room; the backend may choose the consumer's name. */
    method ConsumeTrackFor(c: Command, reply: Reply) returns (status: Status, events: seq<Event>)
      modifies this
      ensures Outcome(State(), status, events) == Perform(old(State()), Execute(ConsumeTrack, c, Ok), reply, [])
    {
      if c.roomId == "" {
        status := Failed("roomId must not be empty.");
        events := [TransportError(c, status.message)];
        return;
      }
      if c.peerId == "" {
        status := Failed("peerId must not be empty.");
        events := [TransportError(c, status.message)];
        return;
      }
      if c.transportId == "" {
        status := Failed("transportId must not be empty.");
        events := [TransportError(c, status.message)];
        return;
      }
      if c.transportId !in transports {
        status := Failed("Transport not found: " + c.transportId);
        events := [TransportError(c, status.message)];
        return;
      }
      if transports[c.transportId].roomId != c.roomId {
        status := Failed("Transport is registered in another room.");
        events := [TransportError(c, status.message)];
        return;
      }
      if transports[c.transportId].peerId != c.peerId {
        status := Failed("Transport is not owned by peer.");
        events := [TransportError(c, status.message)];
        return;
      }
      if c.producerId !in producers {
        status := Failed("Producer not found: " + c.producerId);
        events := [TransportError(c, status.message)];
        return;
      }
      if producers[c.producerId].roomId != c.roomId {
        status := Failed("Producer is registered in another room.");
        events := [TransportError(c, status.message)];
        return;
      }
      if reply.Rejected? {
        status := Failed(reply.message);
        events := [TransportError(c, status.message)];
        return;
      }
      var p := producers[c.producerId];
      var consumerId := reply.data.consumerId.GetOr(c.consumerId);
      if consumerId != "" {
        consumers := consumers[consumerId := Consumer(c.roomId, c.peerId, c.transportId, c.producerId, p.peerId,
                                                      reply.data.kind.GetOr(p.kind), reply.data.trackType.GetOr(p.trackType),
                                                      reply.data.paused.GetOr(true))];
      }
      events := [];
      status := Ok;
    }

    /** Resumes a consumer its peer owns. */
    method ResumeConsumerFor(c: Command, reply: Reply) returns (status: Status, events: seq<Event>)
      modifies this
      ensures Outcome(State(), status, events) == Perform(old(State()), Execute(ResumeConsumer, c, Ok), reply, [])
    {
      if c.peerId == "" {
        status := Failed("peerId must not be empty.");
        events := [TransportError(c, status.message)];
        return;
      }
      if c.consumerId == "" {
        status := Failed("consumerId must not be empty.");
        events := [TransportError(c, status.message)];
        return;
      }
      if c.consumerId !in consumers {
        status := Failed("Consumer not found: " + c.consumerId);
        events := [TransportError(c, status.message)];
        return;
      }
      if consumers[c.consumerId].peerId != c.peerId {
        status := Failed("Consumer is not owned by peer.");
        events := [TransportError(c, status.message)];
        return;
      }
      if reply.Rejected? {
        status := Failed(reply.message);
        events := [TransportError(c, status.message)];
        return;
      }
      consumers := consumers[c.consumerId := consumers[c.consumerId].(paused := false)];
      var k := consumers[c.consumerId];
      events := [ConsumerResumed(c.correlationId, c.peerId, k.roomId, c.consumerId, k.producerId, k.producerPeerId,
                                 k.kind, k.trackType, {c.peerId})];
      status := Ok;
    }

    /** Offers go to the backend, candidates are accepted on the spot; neither changes a map. */
    method ApplySignalFor(c: Command, reply: Reply, intent: Intent) returns (status: Status, events: seq<Event>)
      requires intent.ApplyOffer? || intent.ApplyIce?
      ensures Outcome(State(), status, events) == Perform(State(), Execute(intent, c, Ok), reply, [])
    {
      if c.peerId == "" {
        status := Failed("peerId must not be empty.");
        events := [TransportError(c, status.message)];
        return;
      }
      if c.transportId == "" {
        status := Failed("transportId must not be empty.");
        events := [TransportError(c, status.message)];
        return;
      }
      if c.transportId !in transports {
        status := Failed("Transport not found: " + c.transportId);
        events := [TransportError(c, status.message)];
        return;
      }
      if c.roomId != "" && transports[c.transportId].roomId != c.roomId {
        status := Failed("Transport is registered in another room.");
        events := [TransportError(c, status.message)];
        return;
      }
      if transports[c.transportId].peerId != c.peerId {
        status := Failed("Transport is not owned by peer.");
        events := [TransportError(c, status.message)];
        return;
      }
      events := [];
      if intent.ApplyOffer? && reply.Rejected? {
        status := Failed(reply.message);
        events := [TransportError(if c.roomId == "" then c.(roomId := transports[c.transportId].roomId) else c, status.message)];
        return;
      }
      status := Ok;
    }

    /** The switch over intents: one command, from the policy's verdict to the emitted events. */
    method ExecuteIntent(intent: Intent, c: Command, policy: Status, reply: Reply)
      returns (status: Status, events: seq<Event>, ghost order: seq<string>)
      modifies this
      ensures OrderFits(old(State()), Execute(intent, c, policy), order)
      ensures Outcome(State(), status, events) == Perform(old(State()), Execute(intent, c, policy), reply, order)
    {
      events, order := [], [];
      if policy.Failed? {
        status := policy;
        events := [TransportError(c, policy.message)];
        return;
      }
      match intent {
        case CreateRoom => status, events := CreateRoomFor(c, reply);
        case JoinSession => status, events := JoinSessionFor(c, reply);
        case LeaveSession => status, events, order := LeaveSession(c, "left", OperationFor(intent), reply);
        case OpenTransport => status, events := OpenTransportFor(c, reply);
        case PublishTrack => status, events := PublishTrackFor(c, reply);
        case PauseTrack => status, events := ChangeTrackFor(c, reply, intent);
        case ResumeTrack => status, events := ChangeTrackFor(c, reply, intent);
        case CloseTrack => status, events := ChangeTrackFor(c, reply, intent);
        case ConsumeTrack => status, events := ConsumeTrackFor(c, reply);
        case ResumeConsumer => status, events := ResumeConsumerFor(c, reply);
        case ApplyOffer => status, events := ApplySignalFor(c, reply, intent);
        case ApplyIce => status, events := ApplySignalFor(c, reply, intent);
        case ReadStats =>
          if reply.Rejected? {
            status := Failed(reply.message);
            events := [TransportError(c, status.message)];
          } else {
            status := Ok;
          }
        case CloseSession =>
          if c.peerId == "" {
            status := Failed("peerId must not be empty.");
            events := [TransportError(c, status.message)];
          } else if c.peerId !in peers {
            status := Ok;
          } else {
            var closing := if c.roomId == "" then c.(roomId := peers[c.peerId].roomId) else c;
            status, events, order := LeaveSession(closing, "webrtc_close", OperationFor(intent), reply);
          }
      }
    }

    /** A lost client leaves its latest room, unless the peer has since come back on another session. */
    method OnSessionDisconnected(peerId: string, sessionHandle: nat, correlationId: string, reply: Reply)
      returns (ghost status: Status, events: seq<Event>, ghost order: seq<string>)
      modifies this
      ensures OrderFits(old(State()), Disconnected(peerId, sessionHandle, correlationId), order)
      ensures Outcome(State(), status, events)
              == Perform(old(State()), Disconnected(peerId, sessionHandle, correlationId), reply, order)
    {
      status, events, order := Ok, [], [];
      if peerId == "" || peerId !in peers {
        return;
      }
      var peer := peers[peerId];
      if sessionHandle != 0 && peer.sessionHandle != 0 && peer.sessionHandle != sessionHandle {
        return;
      }
      var c := Command(sessionHandle, peerId, peer.roomId, "", "", "", "", "", correlationId);
      var ignored;
      ignored, events, order := LeaveSession(c, "disconnected", ClosePeer, reply);
      status := ignored;
    }
  }
}
