/** Vocabulary shared by the signaling engine and the mediasoup backend: commands, events, replies. */
module MediaTypes {

  datatype Option<+T> = None | Some(value: T) {
    function GetOr(default: T): T {
      match this
      case Some(v) => v
      case None => default
    }
  }

  /** Outcome of an operation; a failure carries its message. */
  datatype Status = Ok | Failed(message: string)

  datatype Intent =
    | CreateRoom
    | JoinSession
    | LeaveSession
    | OpenTransport
    | PublishTrack
    | PauseTrack
    | ResumeTrack
    | CloseTrack
    | ConsumeTrack
    | ResumeConsumer
    | ApplyOffer
    | ApplyIce
    | ReadStats
    | CloseSession

  /** The fields of a media command that decide anything; SDP, RTP and DTLS payloads are opaque here. */
  datatype Command = Command(
    sessionHandle: nat,
    peerId: string,
    roomId: string,
    transportId: string,
    producerId: string,
    consumerId: string,
    kind: string,
    trackType: string,
    correlationId: string)

  /** What the backend's `data` object may override. */
  datatype ReplyData = ReplyData(
    kind: Option<string>,
    trackType: Option<string>,
    consumerId: Option<string>,
    paused: Option<bool>)

  datatype Reply = Accepted(data: ReplyData) | Rejected(message: string)

  datatype ProducerSnapshot = ProducerSnapshot(producerId: string, peerId: string, kind: string, trackType: string)

  /** Identifier lists that the source copies out of unordered sets are sets here. */
  datatype Event =
    | RoomState(correlationId: string, peerId: string, roomId: string,
                memberPeerIds: set<string>, activeProducers: set<ProducerSnapshot>, notifyPeerIds: set<string>)
    | SessionStarted(correlationId: string, peerId: string, roomId: string,
                     memberPeerIds: set<string>, notifyPeerIds: set<string>)
    | SessionEnded(correlationId: string, peerId: string, roomId: string, notifyPeerIds: set<string>)
    | PeerJoined(correlationId: string, peerId: string, roomId: string,
                 memberPeerIds: set<string>, notifyPeerIds: set<string>)
    | PeerLeft(correlationId: string, peerId: string, roomId: string, reason: string,
               memberPeerIds: set<string>, notifyPeerIds: set<string>)
    | TransportOpened(correlationId: string, peerId: string, roomId: string, transportId: string,
                      notifyPeerIds: set<string>)
    | TrackPublished(correlationId: string, peerId: string, roomId: string, transportId: string,
                     producerId: string, kind: string, trackType: string, reason: string,
                     memberPeerIds: set<string>, notifyPeerIds: set<string>)
    | TrackClosed(correlationId: string, peerId: string, roomId: string,
                  producerId: string, kind: string, trackType: string, reason: string,
                  memberPeerIds: set<string>, notifyPeerIds: set<string>)
    | ConsumerResumed(correlationId: string, peerId: string, roomId: string, consumerId: string,
                      producerId: string, producerPeerId: string, kind: string, trackType: string,
                      notifyPeerIds: set<string>)
    | SessionClosed(correlationId: string, peerId: string, roomId: string, reason: string,
                    notifyPeerIds: set<string>)
    | TransportError(command: Command, reason: string)

  /** The backend's operations, named as on the wire without their prefix; `Noop` is never sent. */
  datatype Operation =
    | CreateRouter
    | JoinPeer
    | LeavePeer
    | ClosePeer
    | CreateWebRtcTransport
    | ConnectDtls
    | Produce
    | PauseProducer
    | ResumeProducer
    | CloseProducer
    | Consume
    | ResumeConsumerStream
    | GetMediaStats
    | Noop

  /** The backend operation that carries out an intent. */
  function OperationFor(intent: Intent): Operation {
    match intent
    case CreateRoom => CreateRouter
    case JoinSession => JoinPeer
    case LeaveSession => LeavePeer
    case OpenTransport => CreateWebRtcTransport
    case PublishTrack => Produce
    case PauseTrack => PauseProducer
    case ResumeTrack => ResumeProducer
    case CloseTrack => CloseProducer
    case ConsumeTrack => Consume
    case ResumeConsumer => ResumeConsumerStream
    case ApplyOffer => ConnectDtls
    case ApplyIce => Noop
    case ReadStats => GetMediaStats
    case CloseSession => ClosePeer
  }

  /** `order` lists the members of `s`, each once. */
  ghost predicate Lists(order: seq<string>, s: set<string>) {
    && (forall x :: x in order <==> x in s)
    && (forall i, j :: 0 <= i < j < |order| ==> order[i] != order[j])
  }
}
