/**
 The signaling side's view of the SFU: five maps guarded by one mutex. A command is validated
 against them (`PlanOf`), sent to the backend, and applied to them only when the backend accepts
 (`Commit`). The functions here say what one command does; `SfuEngineObject` runs them on fields.
 */
module SfuEngine {
  import opened MediaTypes

  datatype Peer = Peer(roomId: string, sessionHandle: nat)
  datatype Transport = Transport(roomId: string, peerId: string)
  datatype Producer = Producer(roomId: string, peerId: string, transportId: string, kind: string, trackType: string)
  datatype Consumer = Consumer(roomId: string, peerId: string, transportId: string, producerId: string,
                               producerPeerId: string, kind: string, trackType: string, paused: bool)

  datatype Engine = Engine(
    rooms: map<string, set<string>>,
    peers: map<string, Peer>,
    transports: map<string, Transport>,
    producers: map<string, Producer>,
    consumers: map<string, Consumer>)

  const EMPTY := Engine(map[], map[], map[], map[], map[])

  /** A client command with the production policy's verdict on it, or the loss of a client session. */
  datatype Input =
    | Execute(intent: Intent, command: Command, policy: Status)
    | Disconnected(peerId: string, sessionHandle: nat, correlationId: string)

  /** What the engine decides before any backend call. `blamed` is the command an error event echoes. */
  datatype Plan =
    | Refuse(message: string, blamed: Command)
    | Settled
    | Call(operation: Operation, sent: Command, blamed: Command)

  datatype Outcome = Outcome(engine: Engine, status: Status, events: seq<Event>)

  function MembersOf(e: Engine, roomId: string): set<string> {
    if roomId in e.rooms then e.rooms[roomId] else {}
  }

  function ActiveProducersOf(e: Engine, roomId: string): set<ProducerSnapshot> {
    set id | id in e.producers && e.producers[id].roomId == roomId ::
      ProducerSnapshot(id, e.producers[id].peerId, e.producers[id].kind, e.producers[id].trackType)
  }

  function ClosingProducers(e: Engine, roomId: string, peerId: string): set<string> {
    set id | id in e.producers && e.producers[id].roomId == roomId && e.producers[id].peerId == peerId
  }

  function LowerChar(c: char): (r: char) {
    if 'A' <= c <= 'Z' then (c as int + 32) as char else c
  }

  function Lower(s: string): (r: string)
    ensures |r| == |s|
  {
    seq(|s|, i requires 0 <= i < |s| => LowerChar(s[i]))
  }

  predicate StandsAt(text: string, token: string, i: nat) {
    i + |token| <= |text| && text[i..i + |token|] == token
  }

  predicate MentionsAlreadyExists(message: string) {
    exists i :: 0 <= i <= |message| && StandsAt(Lower(message), "already exists", i)
  }

  // ---- Validation ----

  function PlanLeave(e: Engine, c: Command, operation: Operation): Plan {
    if c.roomId == "" then Refuse("roomId must not be empty.", c)
    else if c.peerId == "" then Refuse("peerId must not be empty.", c)
    else if c.roomId !in e.rooms then Refuse("Room not found: " + c.roomId, c)
    else if c.peerId !in e.rooms[c.roomId] then Refuse("Peer is not joined to room.", c)
    else Call(operation, c, c)
  }

  function PlanTrackChange(e: Engine, c: Command, operation: Operation): Plan {
    if c.peerId == "" then Refuse("peerId must not be empty.", c)
    else if c.producerId == "" then Refuse("producerId must not be empty.", c)
    else if c.producerId !in e.producers then Refuse("Producer not found: " + c.producerId, c)
    else if e.producers[c.producerId].peerId != c.peerId then Refuse("Producer is not owned by peer.", c)
    else if c.roomId != "" && e.producers[c.producerId].roomId != c.roomId then
      Refuse("Producer is registered in another room.", c)
    else Call(operation, c.(roomId := e.producers[c.producerId].roomId), c)
  }

  function PlanConsume(e: Engine, c: Command, operation: Operation): Plan {
    if c.roomId == "" then Refuse("roomId must not be empty.", c)
    else if c.peerId == "" then Refuse("peerId must not be empty.", c)
    else if c.transportId == "" then Refuse("transportId must not be empty.", c)
    else if c.transportId !in e.transports then Refuse("Transport not found: " + c.transportId, c)
    else if e.transports[c.transportId].roomId != c.roomId then Refuse("Transport is registered in another room.", c)
    else if e.transports[c.transportId].peerId != c.peerId then Refuse("Transport is not owned by peer.", c)
    else if c.producerId !in e.producers then Refuse("Producer not found: " + c.producerId, c)
    else if e.producers[c.producerId].roomId != c.roomId then Refuse("Producer is registered in another room.", c)
    else Call(operation, c, c)
  }

  function PlanApply(e: Engine, c: Command, intent: Intent): Plan {
    if c.peerId == "" then Refuse("peerId must not be empty.", c)
    else if c.transportId == "" then Refuse("transportId must not be empty.", c)
    else if c.transportId !in e.transports then Refuse("Transport not found: " + c.transportId, c)
    else if c.roomId != "" && e.transports[c.transportId].roomId != c.roomId then
      Refuse("Transport is registered in another room.", c)
    else if e.transports[c.transportId].peerId != c.peerId then Refuse("Transport is not owned by peer.", c)
    else if intent.ApplyIce? then Settled
    else
      var sent := if c.roomId == "" then c.(roomId := e.transports[c.transportId].roomId) else c;
      Call(OperationFor(intent), sent, sent)
  }

  function PlanOf(e: Engine, input: Input): Plan {
    match input
    case Disconnected(peerId, handle, correlationId) =>
      if peerId == "" || peerId !in e.peers then Settled
      else if handle != 0 && e.peers[peerId].sessionHandle != 0 && e.peers[peerId].sessionHandle != handle then Settled
      else PlanLeave(e, DisconnectCommand(e, peerId, handle, correlationId), ClosePeer)
    case Execute(intent, c, policy) =>
      var operation := OperationFor(intent);
      if policy.Failed? then Refuse(policy.message, c)
      else match intent
        case CreateRoom =>
          if c.roomId == "" then Refuse("roomId must not be empty.", c)
          else if c.roomId in e.rooms then Refuse("Room already exists: " + c.roomId, c)
          else Call(operation, c, c)
        case JoinSession =>
          if c.roomId == "" then Refuse("roomId must not be empty.", c)
          else if c.peerId == "" then Refuse("peerId must not be empty.", c)
          else if c.roomId !in e.rooms then Refuse("Room not found: " + c.roomId, c)
          else Call(operation, c, c)
        case LeaveSession => PlanLeave(e, c, operation)
        case OpenTransport =>
          if c.roomId == "" then Refuse("roomId must not be empty.", c)
          else if c.peerId == "" then Refuse("peerId must not be empty.", c)
          else if c.transportId == "" then Refuse("transportId must not be empty.", c)
          else if c.transportId in e.transports then Refuse("Transport already exists: " + c.transportId, c)
          else if c.peerId !in MembersOf(e, c.roomId) then Refuse("Peer must join room before opening transport.", c)
          else Call(operation, c, c)
        case PublishTrack =>
          if c.producerId == "" then Refuse("producerId must not be empty.", c)
          else if c.transportId !in e.transports then Refuse("Transport not found: " + c.transportId, c)
          else if c.producerId in e.producers then Refuse("Producer already exists: " + c.producerId, c)
          else Call(operation, c, c)
        case PauseTrack => PlanTrackChange(e, c, operation)
        case ResumeTrack => PlanTrackChange(e, c, operation)
        case CloseTrack => PlanTrackChange(e, c, operation)
        case ConsumeTrack => PlanConsume(e, c, operation)
        case ResumeConsumer =>
          if c.peerId == "" then Refuse("peerId must not be empty.", c)
          else if c.consumerId == "" then Refuse("consumerId must not be empty.", c)
          else if c.consumerId !in e.consumers then Refuse("Consumer not found: " + c.consumerId, c)
          else if e.consumers[c.consumerId].peerId != c.peerId then Refuse("Consumer is not owned by peer.", c)
          else Call(operation, c.(roomId := e.consumers[c.consumerId].roomId), c)
        case ApplyOffer => PlanApply(e, c, intent)
        case ApplyIce => PlanApply(e, c, intent)
        case ReadStats => Call(operation, c, c)
        case CloseSession =>
          if c.peerId == "" then Refuse("peerId must not be empty.", c)
          else if c.peerId !in e.peers then Settled
          else PlanLeave(e, if c.roomId == "" then c.(roomId := e.peers[c.peerId].roomId) else c, operation)
  }

  function DisconnectCommand(e: Engine, peerId: string, handle: nat, correlationId: string): Command
    requires peerId in e.peers
  {
    Command(handle, peerId, e.peers[peerId].roomId, "", "", "", "", "", correlationId)
  }

  predicate IsLeave(input: Input) {
    input.Disconnected? || input.intent.LeaveSession? || input.intent.CloseSession?
  }

  function LeaveReason(input: Input): string
    requires IsLeave(input)
  {
    if input.Disconnected? then "disconnected"
    else if input.intent.LeaveSession? then "left" else "webrtc_close"
  }

  // ---- Application of an accepted command ----

  /** The maps after a peer has left: its own entries, and every consumer of a producer it owned, are gone. */
  function WithoutPeer(e: Engine, roomId: string, peerId: string): Engine
    requires roomId in e.rooms
  {
    var closing := ClosingProducers(e, roomId, peerId);
    var remaining := e.rooms[roomId] - {peerId};
    Engine(
      if remaining == {} then e.rooms - {roomId} else e.rooms[roomId := remaining],
      e.peers - {peerId},
      map id | id in e.transports && !(e.transports[id].roomId == roomId && e.transports[id].peerId == peerId) ::
        e.transports[id],
      map id | id in e.producers && !(e.producers[id].roomId == roomId && e.producers[id].peerId == peerId) ::
        e.producers[id],
      map id | id in e.consumers
               && !(e.consumers[id].roomId == roomId && e.consumers[id].peerId == peerId)
               && e.consumers[id].producerId !in closing ::
        e.consumers[id])
  }

  function LeaveTrackEvents(e: Engine, c: Command, remaining: set<string>, order: seq<string>): (events: seq<Event>)
    requires forall id :: id in order ==> id in e.producers
    ensures |events| == |order|
    ensures forall i :: 0 <= i < |order| ==> events[i].TrackClosed? && events[i].producerId == order[i]
  {
    if order == [] then []
    else
      var p := e.producers[order[0]];
      [ClosureOf(c, remaining, order[0], p.kind, p.trackType)] + LeaveTrackEvents(e, c, remaining, order[1..])
  }

  function ClosureOf(c: Command, remaining: set<string>, id: string, kind: string, trackType: string): Event {
    TrackClosed(c.correlationId, c.peerId, c.roomId, id, kind, trackType, "", {}, remaining)
  }

  /** A list of closures, one for each producer in order, is the list of them all. */
  lemma {:induction false} AllClosures(e: Engine, c: Command, remaining: set<string>, order: seq<string>, events: seq<Event>)
    requires forall id :: id in order ==> id in e.producers
    requires |events| == |order|
    requires forall k :: 0 <= k < |order| ==>
               events[k] == ClosureOf(c, remaining, order[k], e.producers[order[k]].kind, e.producers[order[k]].trackType)
    ensures events == LeaveTrackEvents(e, c, remaining, order)
  {
    if order != [] {
      AllClosures(e, c, remaining, order[1..], events[1..]);
      assert events == [events[0]] + events[1..];
    }
  }

  function LeaveTail(c: Command, remaining: set<string>, reason: string): seq<Event> {
    [PeerLeft(c.correlationId, c.peerId, c.roomId, reason, remaining, remaining),
     SessionClosed(c.correlationId, c.peerId, c.roomId, reason, {c.peerId})]
    + if remaining == {} then [SessionEnded(c.correlationId, c.peerId, c.roomId, {c.peerId})] else []
  }

  function CommitLeave(e: Engine, c: Command, reason: string, order: seq<string>): Outcome
    requires c.roomId in e.rooms && Lists(order, ClosingProducers(e, c.roomId, c.peerId))
  {
    var remaining := e.rooms[c.roomId] - {c.peerId};
    Outcome(WithoutPeer(e, c.roomId, c.peerId), Ok,
            LeaveTrackEvents(e, c, remaining, order) + LeaveTail(c, remaining, reason))
  }

  function CommitJoin(e: Engine, c: Command): Outcome
    requires c.roomId in e.rooms
  {
    var previous := e.rooms[c.roomId];
    var current := previous + {c.peerId};
    var joined := e.(rooms := e.rooms[c.roomId := current], peers := e.peers[c.peerId := Peer(c.roomId, c.sessionHandle)]);
    Outcome(joined, Ok,
            [RoomState(c.correlationId, c.peerId, c.roomId, current, ActiveProducersOf(joined, c.roomId), {c.peerId}),
             PeerJoined(c.correlationId, c.peerId, c.roomId, current, previous)]
            + if previous == {} then [SessionStarted(c.correlationId, c.peerId, c.roomId, current, current)] else [])
  }

  function CommitPublish(e: Engine, c: Command, data: ReplyData): Outcome
    requires c.transportId in e.transports
  {
    var t := e.transports[c.transportId];
    var kind := data.kind.GetOr(c.kind);
    var trackType := data.trackType.GetOr(c.trackType);
    var roomPeers := MembersOf(e, t.roomId);
    Outcome(e.(producers := e.producers[c.producerId := Producer(t.roomId, t.peerId, c.transportId, kind, trackType)]), Ok,
            [TrackPublished(c.correlationId, c.peerId, c.roomId, c.transportId, c.producerId, kind, trackType, "",
                            roomPeers, roomPeers - {c.peerId})])
  }

  function CommitTrackChange(e: Engine, c: Command, intent: Intent): Outcome
    requires c.producerId in e.producers
  {
    var p := e.producers[c.producerId];
    var roomPeers := MembersOf(e, p.roomId);
    var others := roomPeers - {c.peerId};
    match intent
    case CloseTrack =>
      Outcome(e.(producers := e.producers - {c.producerId},
                 consumers := map id | id in e.consumers
                                       && !(e.consumers[id].producerId == c.producerId && e.consumers[id].roomId == p.roomId) ::
                                e.consumers[id]), Ok,
              [TrackClosed(c.correlationId, c.peerId, p.roomId, c.producerId, p.kind, p.trackType, "closed", roomPeers, others)])
    case PauseTrack =>
      Outcome(e, Ok, [TrackClosed(c.correlationId, c.peerId, p.roomId, c.producerId, p.kind, p.trackType, "paused", roomPeers, others)])
    case _ =>
      Outcome(e, Ok, [TrackPublished(c.correlationId, c.peerId, p.roomId, "", c.producerId, p.kind, p.trackType, "resumed", roomPeers, others)])
  }

  function CommitConsume(e: Engine, c: Command, data: ReplyData): Outcome
    requires c.producerId in e.producers
  {
    var p := e.producers[c.producerId];
    var consumerId := data.consumerId.GetOr(c.consumerId);
    if consumerId == "" then Outcome(e, Ok, [])
    else
      Outcome(e.(consumers := e.consumers[consumerId :=
                                Consumer(c.roomId, c.peerId, c.transportId, c.producerId, p.peerId,
                                         data.kind.GetOr(p.kind), data.trackType.GetOr(p.trackType),
                                         data.paused.GetOr(true))]), Ok, [])
  }

  function CommitResumeConsumer(e: Engine, c: Command): Outcome
    requires c.consumerId in e.consumers
  {
    var k := e.consumers[c.consumerId].(paused := false);
    Outcome(e.(consumers := e.consumers[c.consumerId := k]), Ok,
            [ConsumerResumed(c.correlationId, c.peerId, k.roomId, c.consumerId, k.producerId, k.producerPeerId,
                             k.kind, k.trackType, {c.peerId})])
  }

  /** A leave names, in `order`, the producers it closes; any order may come out of the hash table. */
  ghost predicate OrderFits(e: Engine, input: Input, order: seq<string>) {
    PlanOf(e, input).Call? && IsLeave(input) ==>
      var sent := PlanOf(e, input).sent; Lists(order, ClosingProducers(e, sent.roomId, sent.peerId))
  }

  function Commit(e: Engine, input: Input, data: ReplyData, order: seq<string>): Outcome
    requires PlanOf(e, input).Call? && OrderFits(e, input, order)
  {
    var sent := PlanOf(e, input).sent;
    if IsLeave(input) then CommitLeave(e, sent, LeaveReason(input), order)
    else
      var c := input.command;
      match input.intent
      case CreateRoom => Outcome(e.(rooms := e.rooms[c.roomId := {}]), Ok, [])
      case JoinSession => CommitJoin(e, c)
      case OpenTransport =>
        Outcome(e.(transports := e.transports[c.transportId := Transport(c.roomId, c.peerId)]), Ok,
                [TransportOpened(c.correlationId, c.peerId, c.roomId, c.transportId, {c.peerId})])
      case PublishTrack => CommitPublish(e, c, data)
      case PauseTrack => CommitTrackChange(e, c, input.intent)
      case ResumeTrack => CommitTrackChange(e, c, input.intent)
      case CloseTrack => CommitTrackChange(e, c, input.intent)
      case ConsumeTrack => CommitConsume(e, c, data)
      case ResumeConsumer => CommitResumeConsumer(e, c)
      case _ => Outcome(e, Ok, [])
  }

  /** One whole command: what it leaves in the maps, the status it returns and the events it emits. */
  function Perform(e: Engine, input: Input, reply: Reply, order: seq<string>): Outcome
    requires OrderFits(e, input, order)
  {
    match PlanOf(e, input)
    case Refuse(message, blamed) => Outcome(e, Failed(message), [TransportError(blamed, message)])
    case Settled => Outcome(e, Ok, [])
    case Call(_, _, blamed) =>
      match reply
      case Accepted(data) => Commit(e, input, data, order)
      case Rejected(message) =>
        if input.Execute? && input.intent.CreateRoom? && MentionsAlreadyExists(message)
        then Outcome(e.(rooms := e.rooms[input.command.roomId := {}]), Ok, [])
        else Outcome(e, Failed(message), [TransportError(blamed, message)])
  }

  // ---- Ownership graph ----

  ghost predicate PeersOwned(e: Engine) {
    forall p :: p in e.peers ==> e.peers[p].roomId in e.rooms && p in e.rooms[e.peers[p].roomId]
  }

  ghost predicate TransportsOwned(e: Engine) {
    forall t :: t in e.transports ==> e.transports[t].peerId in MembersOf(e, e.transports[t].roomId)
  }

  ghost predicate ProducersOwned(e: Engine) {
    forall p :: p in e.producers ==>
      && e.producers[p].transportId in e.transports
      && e.transports[e.producers[p].transportId] == Transport(e.producers[p].roomId, e.producers[p].peerId)
  }

  ghost predicate ConsumersOwned(e: Engine) {
    forall c :: c in e.consumers ==>
      && e.consumers[c].transportId in e.transports
      && e.transports[e.consumers[c].transportId] == Transport(e.consumers[c].roomId, e.consumers[c].peerId)
      && e.consumers[c].producerId in e.producers
      && e.producers[e.consumers[c].producerId].roomId == e.consumers[c].roomId
      && e.producers[e.consumers[c].producerId].peerId == e.consumers[c].producerPeerId
  }

  ghost predicate Graph(e: Engine) {
    PeersOwned(e) && TransportsOwned(e) && ProducersOwned(e) && ConsumersOwned(e)
  }
}
