/**
 The mediasoup server's socket queues: one queue and one drain per socket, and two counters shared by all.
 A drain is suspended only while an operation runs; everything else happens between two events.
 */
module SocketQueue {
  import opened MediaTypes

  type SocketId = nat

  /** `valid` tells whether the text parses as JSON. */
  datatype Message = Message(text: string, valid: bool)

  /** What is handed to a connection that is ready: a refusal at the door, or the answer to an accepted message. */
  datatype Answer = Refused | InvalidJson(message: Message) | Overloaded(message: Message) | Served(message: Message)

  datatype Limits = Limits(perSocket: nat, pending: nat, inflight: nat)

  /**
   `accepted` is everything ever put on the queue; `awaiting` the message whose operation the drain waits for.
   `ready` is the connection's own state: it ends when closing begins, `closed` only with the close event.
   */
  datatype Socket = Socket(
    queue: seq<Message>,
    processing: bool,
    ready: bool,
    closed: bool,
    awaiting: Option<Message>,
    accepted: seq<Message>,
    sent: seq<Answer>)

  const CONNECTED := Socket([], false, true, false, None, [], [])

  datatype Server = Server(sockets: map<SocketId, Socket>, pending: int, inflight: int)

  const EMPTY := Server(map[], 0, 0)

  // ---- One socket and the counters ----

  /** An answer is handed over only while the connection is ready, and lost otherwise. */
  function Send(q: Socket, answer: Answer): Socket {
    if !q.ready then q else q.(sent := q.sent + [answer])
  }

  function LessOne(counter: int): int {
    if counter > 0 then counter - 1 else counter
  }

  /** The loop: answers what it can at once, and stops at the first message that needs an operation. */
  function Drain(q: Socket, pending: int, inflight: int, limits: Limits): (Socket, int, int)
    decreases |q.queue|
  {
    if q.queue == [] || q.closed then (q.(processing := false), pending, inflight)
    else
      var m := q.queue[0];
      var q1 := q.(queue := q.queue[1..]);
      if !m.valid then Drain(Send(q1, InvalidJson(m)), LessOne(pending), inflight, limits)
      else if inflight >= limits.inflight then Drain(Send(q1, Overloaded(m)), LessOne(pending), inflight, limits)
      else (q1.(awaiting := Some(m)), LessOne(pending), inflight + 1)
  }

  function StartDrain(q: Socket, pending: int, inflight: int, limits: Limits): (Socket, int, int) {
    if q.processing || q.closed then (q, pending, inflight)
    else Drain(q.(processing := true), pending, inflight, limits)
  }

  // ---- The events ----

  function With(s: Server, ws: SocketId, r: (Socket, int, int)): Server {
    Server(s.sockets[ws := r.0], r.1, r.2)
  }

  function Arrive(s: Server, limits: Limits, ws: SocketId, m: Message): Server {
    if ws !in s.sockets || s.sockets[ws].closed then s
    else
      var q := s.sockets[ws];
      if s.pending >= limits.pending || |q.queue| >= limits.perSocket then s.(sockets := s.sockets[ws := Send(q, Refused)])
      else
        With(s, ws, StartDrain(q.(queue := q.queue + [m], accepted := q.accepted + [m]), s.pending + 1, s.inflight, limits))
  }

  /** The operation a drain waits for settles or times out; the drain answers and goes on. */
  function OperationDone(s: Server, limits: Limits, ws: SocketId): Server
    requires ws in s.sockets && s.sockets[ws].awaiting.Some?
  {
    var q := s.sockets[ws];
    var q1 := Send(q.(awaiting := None), Served(q.awaiting.value));
    With(s, ws, Drain(q1, s.pending, LessOne(s.inflight), limits))
  }

  function Max(a: int, b: int): int {
    if a < b then b else a
  }

  function CloseSocket(s: Server, ws: SocketId): Server
    requires ws in s.sockets
  {
    var q := s.sockets[ws];
    Server(s.sockets[ws := q.(closed := true, ready := false, queue := [])], if q.queue == [] then s.pending else Max(0, s.pending - |q.queue|),
           s.inflight)
  }

  datatype Step =
    | Connects(ws: SocketId)
    | Arrives(ws: SocketId, message: Message)
    | Done(ws: SocketId)
    | BeginsClosing(ws: SocketId)
    | Closes(ws: SocketId)
    | CountersReset

  predicate Enabled(s: Server, step: Step) {
    match step
    case Connects(ws) => ws !in s.sockets
    case Arrives(_, _) => true
    case Done(ws) => ws in s.sockets && s.sockets[ws].awaiting.Some?
    case BeginsClosing(ws) => ws in s.sockets
    case Closes(ws) => ws in s.sockets
    case CountersReset => true
  }

  function Next(s: Server, limits: Limits, step: Step): Server
    requires Enabled(s, step)
  {
    match step
    case Connects(ws) => s.(sockets := s.sockets[ws := CONNECTED])
    case Arrives(ws, m) => Arrive(s, limits, ws, m)
    case Done(ws) => OperationDone(s, limits, ws)
    case BeginsClosing(ws) => s.(sockets := s.sockets[ws := s.sockets[ws].(ready := false)])
    case Closes(ws) => CloseSocket(s, ws)
    case CountersReset => s.(pending := 0, inflight := 0)
  }

  // ---- Order ----

  /** The accepted messages that have been answered, in the order of their answers. */
  function Answered(sent: seq<Answer>): seq<Message> {
    if sent == [] then []
    else
      var last := sent[|sent| - 1];
      Answered(sent[..|sent| - 1]) + if last.Refused? then [] else [last.message]
  }

  lemma AnsweredGrows(sent: seq<Answer>, answer: Answer)
    ensures Answered(sent + [answer]) == Answered(sent) + if answer.Refused? then [] else [answer.message]
  {
  }

  function Current(q: Socket): seq<Message> {
    if q.awaiting.Some? then [q.awaiting.value] else []
  }

  /** Nothing is lost, doubled or overtaken: answered, then in progress, then queued. */
  ghost predicate InOrder(q: Socket) {
    q.accepted == Answered(q.sent) + Current(q) + q.queue
  }

  ghost predicate SocketSound(q: Socket, limits: Limits) {
    && (q.ready ==> InOrder(q) && !q.closed)
    && (q.processing <==> q.awaiting.Some?)
    && (q.queue != [] ==> q.processing)
    && (q.closed ==> q.queue == [])
    && |q.queue| <= limits.perSocket
    && (q.awaiting.Some? ==> q.awaiting.value.valid)
  }

  // ---- Counters ----

  function Places(ws: SocketId, n: nat): set<(SocketId, nat)> {
    set i: nat | i < n :: (ws, i)
  }

  /** Every queued message of every socket, by its place. */
  function Queued(sockets: map<SocketId, Socket>): set<(SocketId, nat)> {
    set ws, i: nat | ws in sockets && i < |sockets[ws].queue| :: (ws, i)
  }

  /** The sockets whose drain waits for an operation. */
  function Awaiting(sockets: map<SocketId, Socket>): set<SocketId> {
    set ws | ws in sockets && sockets[ws].awaiting.Some?
  }

  lemma {:induction false} PlacesCount(ws: SocketId, n: nat)
    ensures |Places(ws, n)| == n
  {
    if n > 0 {
      PlacesCount(ws, n - 1);
      assert Places(ws, n) == Places(ws, n - 1) + {(ws, n - 1)};
    }
  }

  lemma QueuedApart(sockets: map<SocketId, Socket>, ws: SocketId)
    requires ws in sockets
    ensures |Queued(sockets)| == |Queued(sockets - {ws})| + |sockets[ws].queue|
  {
    assert Queued(sockets) == Queued(sockets - {ws}) + Places(ws, |sockets[ws].queue|);
    assert Queued(sockets - {ws}) !! Places(ws, |sockets[ws].queue|);
    PlacesCount(ws, |sockets[ws].queue|);
  }

  lemma AwaitingApart(sockets: map<SocketId, Socket>, ws: SocketId)
    requires ws in sockets
    ensures |Awaiting(sockets)| == |Awaiting(sockets - {ws})| + |Current(sockets[ws])|
  {
    assert Awaiting(sockets) == Awaiting(sockets - {ws}) + if sockets[ws].awaiting.Some? then {ws} else {};
  }

  /** One socket's queue and drain change; the totals change by as much. */
  lemma CountsChange(sockets: map<SocketId, Socket>, ws: SocketId, q: Socket)
    requires ws in sockets
    ensures |Queued(sockets[ws := q])| == |Queued(sockets)| - |sockets[ws].queue| + |q.queue|
    ensures |Awaiting(sockets[ws := q])| == |Awaiting(sockets)| - |Current(sockets[ws])| + |Current(q)|
  {
    hide Queued, Awaiting;
    assert sockets[ws := q] - {ws} == sockets - {ws};
    QueuedApart(sockets, ws);
    QueuedApart(sockets[ws := q], ws);
    AwaitingApart(sockets, ws);
    AwaitingApart(sockets[ws := q], ws);
  }

  lemma AnswerKeepsOrder(q: Socket, answer: Answer)
    requires q.queue != [] && q.awaiting.None? && (q.ready ==> InOrder(q))
    requires !answer.Refused? && answer.message == q.queue[0]
    ensures q.ready ==> InOrder(Send(q.(queue := q.queue[1..]), answer))
  {
  }

  /** What draining one socket does to the counters, and that it ends in order. */
  lemma {:induction false} DrainSound(q: Socket, pending: int, inflight: int, limits: Limits)
    requires q.processing && q.awaiting.None? && |q.queue| <= limits.perSocket && 0 <= pending
    requires q.closed ==> q.queue == []
    requires q.ready ==> InOrder(q) && !q.closed
    ensures var (next, pending', inflight') := Drain(q, pending, inflight, limits);
            && SocketSound(next, limits) && next.closed == q.closed && |next.queue| <= |q.queue|
            && inflight' == inflight + |Current(next)|
            && (inflight' > inflight ==> inflight' <= limits.inflight)
            && pending' == Max(0, pending - (|q.queue| - |next.queue|))
    decreases |q.queue|
  {
    hide Answered;
    if q.queue != [] && !q.closed {
      var m := q.queue[0];
      var q1 := q.(queue := q.queue[1..]);
      if !m.valid {
        AnswerKeepsOrder(q, InvalidJson(m));
        DrainSound(Send(q1, InvalidJson(m)), LessOne(pending), inflight, limits);
      } else if inflight >= limits.inflight {
        AnswerKeepsOrder(q, Overloaded(m));
        DrainSound(Send(q1, Overloaded(m)), LessOne(pending), inflight, limits);
      } else if q.ready {
        TakenKeepsOrder(q);
      }
    }
  }

  lemma TakenKeepsOrder(q: Socket)
    requires q.queue != [] && q.awaiting.None? && InOrder(q)
    ensures InOrder(q.(queue := q.queue[1..], awaiting := Some(q.queue[0])))
  {
  }

  // ---- Every event ----

  ghost predicate AllSound(s: Server, limits: Limits) {
    forall ws :: ws in s.sockets ==> SocketSound(s.sockets[ws], limits)
  }

  /** The counters are what they claim to count, and within their limits. */
  ghost predicate CountersExact(s: Server, limits: Limits) {
    && s.pending == |Queued(s.sockets)| <= limits.pending
    && s.inflight == |Awaiting(s.sockets)| <= limits.inflight
  }

  /** What is left of that once the counters have been reset under a running server. */
  ghost predicate CountersBelow(s: Server, limits: Limits) {
    && 0 <= s.pending <= |Queued(s.sockets)| && s.pending <= limits.pending
    && 0 <= s.inflight <= |Awaiting(s.sockets)| && s.inflight <= limits.inflight
  }

  /** One socket's change carried over to the counters keeps what the counters are worth. */
  lemma Recounted(s: Server, next: Server, limits: Limits, ws: SocketId)
    requires CountersBelow(s, limits) && ws in s.sockets
    requires ws in next.sockets && next.sockets == s.sockets[ws := next.sockets[ws]]
    requires next.pending == Max(0, s.pending - |s.sockets[ws].queue| + |next.sockets[ws].queue|)
    requires next.pending <= s.pending || next.pending <= limits.pending
    requires next.inflight == (if Current(next.sockets[ws]) == Current(s.sockets[ws]) then s.inflight
                               else Max(0, s.inflight - |Current(s.sockets[ws])|) + |Current(next.sockets[ws])|)
             || next.inflight == Max(0, s.inflight - |Current(s.sockets[ws])|) + |Current(next.sockets[ws])|
    requires next.inflight <= s.inflight || next.inflight <= limits.inflight
    ensures CountersBelow(next, limits) && (CountersExact(s, limits) ==> CountersExact(next, limits))
  {
    hide Queued, Awaiting;
    CountsChange(s.sockets, ws, next.sockets[ws]);
    QueuedApart(s.sockets, ws);
    AwaitingApart(s.sockets, ws);
  }

  lemma OneSound(s: Server, next: Server, limits: Limits, ws: SocketId)
    requires AllSound(s, limits) && ws in next.sockets && next.sockets == s.sockets[ws := next.sockets[ws]]
    requires SocketSound(next.sockets[ws], limits)
    ensures AllSound(next, limits)
  {
  }

  lemma RefusalSound(q: Socket, limits: Limits)
    requires SocketSound(q, limits)
    ensures SocketSound(Send(q, Refused), limits)
  {
  }

  lemma AcceptedSound(q: Socket, m: Message, pending: int, inflight: int, limits: Limits)
    requires SocketSound(q, limits) && !q.closed && |q.queue| < limits.perSocket && 0 <= pending
    ensures var (next, pending', inflight') := StartDrain(q.(queue := q.queue + [m], accepted := q.accepted + [m]), pending + 1, inflight, limits);
            && SocketSound(next, limits) && |next.queue| <= |q.queue| + 1
            && pending' == Max(0, pending - |q.queue| + |next.queue|)
            && (if q.processing then Current(next) == Current(q) && inflight' == inflight
                else Current(q) == [] && inflight' == inflight + |Current(next)|)
            && (inflight' <= inflight || inflight' <= limits.inflight)
  {
    hide Drain, Answered;
    var q1 := q.(queue := q.queue + [m], accepted := q.accepted + [m]);
    assert q.ready ==> InOrder(q1);
    if !q.processing {
      DrainSound(q1.(processing := true), pending + 1, inflight, limits);
    }
  }

  lemma ArriveSound(s: Server, limits: Limits, ws: SocketId, m: Message)
    requires AllSound(s, limits) && CountersBelow(s, limits)
    ensures var next := Arrive(s, limits, ws, m);
            AllSound(next, limits) && CountersBelow(next, limits) && (CountersExact(s, limits) ==> CountersExact(next, limits))
  {
    if ws in s.sockets && !s.sockets[ws].closed {
      hide CountersExact, StartDrain, SocketSound;
      var q := s.sockets[ws];
      var next := Arrive(s, limits, ws, m);
      RefusalSound(q, limits);
      if s.pending < limits.pending && |q.queue| < limits.perSocket {
        AcceptedSound(q, m, s.pending, s.inflight, limits);
      }
      OneSound(s, next, limits, ws);
      Recounted(s, next, limits, ws);
    }
  }

  lemma AnsweredSound(q: Socket, pending: int, inflight: int, limits: Limits)
    requires SocketSound(q, limits) && q.awaiting.Some? && 0 <= pending
    ensures var (next, pending', inflight') := Drain(Send(q.(awaiting := None), Served(q.awaiting.value)), pending, LessOne(inflight), limits);
            && SocketSound(next, limits) && |next.queue| <= |q.queue|
            && pending' == Max(0, pending - |q.queue| + |next.queue|)
            && inflight' == LessOne(inflight) + |Current(next)| && (inflight' <= LessOne(inflight) || inflight' <= limits.inflight)
  {
    AnsweredGrows(q.sent, Served(q.awaiting.value));
    hide Drain, Answered;
    DrainSound(Send(q.(awaiting := None), Served(q.awaiting.value)), pending, LessOne(inflight), limits);
  }

  lemma DoneSound(s: Server, limits: Limits, ws: SocketId)
    requires AllSound(s, limits) && CountersBelow(s, limits) && ws in s.sockets && s.sockets[ws].awaiting.Some?
    ensures var next := OperationDone(s, limits, ws);
            AllSound(next, limits) && CountersBelow(next, limits) && (CountersExact(s, limits) ==> CountersExact(next, limits))
  {
    hide CountersExact, Drain, SocketSound;
    AnsweredSound(s.sockets[ws], s.pending, s.inflight, limits);
    OneSound(s, OperationDone(s, limits, ws), limits, ws);
    Recounted(s, OperationDone(s, limits, ws), limits, ws);
  }

  lemma CloseSound(s: Server, limits: Limits, ws: SocketId)
    requires AllSound(s, limits) && CountersBelow(s, limits) && ws in s.sockets
    ensures var next := CloseSocket(s, ws);
            AllSound(next, limits) && CountersBelow(next, limits) && (CountersExact(s, limits) ==> CountersExact(next, limits))
  {
    hide CountersExact;
    OneSound(s, CloseSocket(s, ws), limits, ws);
    Recounted(s, CloseSocket(s, ws), limits, ws);
  }

  lemma ConnectSound(s: Server, limits: Limits, ws: SocketId)
    requires AllSound(s, limits) && CountersBelow(s, limits) && ws !in s.sockets
    ensures var next := s.(sockets := s.sockets[ws := CONNECTED]);
            AllSound(next, limits) && CountersBelow(next, limits) && (CountersExact(s, limits) ==> CountersExact(next, limits))
  {
    assert Queued(s.sockets[ws := CONNECTED]) == Queued(s.sockets);
    assert Awaiting(s.sockets[ws := CONNECTED]) == Awaiting(s.sockets);
  }

  lemma UnreadySound(s: Server, limits: Limits, ws: SocketId)
    requires AllSound(s, limits) && CountersBelow(s, limits) && ws in s.sockets
    ensures var next := s.(sockets := s.sockets[ws := s.sockets[ws].(ready := false)]);
            AllSound(next, limits) && CountersBelow(next, limits) && (CountersExact(s, limits) ==> CountersExact(next, limits))
  {
    hide CountersExact, Answered;
    var next := s.(sockets := s.sockets[ws := s.sockets[ws].(ready := false)]);
    OneSound(s, next, limits, ws);
    Recounted(s, next, limits, ws);
  }

  lemma NextSound(s: Server, limits: Limits, step: Step)
    requires AllSound(s, limits) && CountersBelow(s, limits) && Enabled(s, step)
    ensures AllSound(Next(s, limits, step), limits) && CountersBelow(Next(s, limits, step), limits)
    ensures CountersExact(s, limits) && !step.CountersReset? ==> CountersExact(Next(s, limits, step), limits)
  {
    hide AllSound, CountersExact, Arrive, OperationDone, CloseSocket;
    match step {
      case Connects(ws) => ConnectSound(s, limits, ws);
      case Arrives(ws, m) => ArriveSound(s, limits, ws, m);
      case Done(ws) => DoneSound(s, limits, ws);
      case BeginsClosing(ws) => UnreadySound(s, limits, ws);
      case Closes(ws) => CloseSound(s, limits, ws);
      case CountersReset => AllSoundOfSockets(s, Next(s, limits, step), limits);
    }
  }

  lemma AllSoundOfSockets(s: Server, next: Server, limits: Limits)
    requires AllSound(s, limits) && next.sockets == s.sockets
    ensures AllSound(next, limits)
  {
  }

  // ---- Runs ----

  /** Every step of the run was possible when it was taken. */
  predicate IsRun(steps: seq<Step>, limits: Limits)
    decreases |steps|, 0
  {
    steps == [] ||
    (IsRun(steps[..|steps| - 1], limits) && Enabled(After(steps[..|steps| - 1], limits), steps[|steps| - 1]))
  }

  function After(steps: seq<Step>, limits: Limits): Server
    requires IsRun(steps, limits)
    decreases |steps|, 1
  {
    if steps == [] then EMPTY else Next(After(steps[..|steps| - 1], limits), limits, steps[|steps| - 1])
  }

  /** In every run, whatever the interleaving: sockets stay in order, and the counters count, or count too little once reset. */
  lemma {:induction false} RunSound(steps: seq<Step>, limits: Limits)
    requires IsRun(steps, limits)
    ensures AllSound(After(steps, limits), limits) && CountersBelow(After(steps, limits), limits)
    ensures CountersReset !in steps ==> CountersExact(After(steps, limits), limits)
  {
    if steps == [] {
      assert Queued(EMPTY.sockets) == {} && Awaiting(EMPTY.sockets) == {};
    } else {
      hide AllSound, CountersBelow, CountersExact, Next, Enabled;
      RunSound(steps[..|steps| - 1], limits);
      NextSound(After(steps[..|steps| - 1], limits), limits, steps[|steps| - 1]);
    }
  }

  /** No message is lost or overtaken, and no queue waits without a drain. */
  lemma OrderAndWakeup(steps: seq<Step>, limits: Limits, ws: SocketId)
    requires IsRun(steps, limits) && ws in After(steps, limits).sockets
    ensures var q := After(steps, limits).sockets[ws];
            && (q.ready ==> q.accepted == Answered(q.sent) + Current(q) + q.queue)
            && (q.queue != [] ==> q.awaiting.Some? && q.processing)
            && |q.queue| <= limits.perSocket
  {
    RunSound(steps, limits);
  }

  /** Until a reset the counters are exact, so no guard against going below zero ever decides anything. */
  lemma CountersConserved(steps: seq<Step>, limits: Limits, ws: SocketId)
    requires IsRun(steps, limits) && CountersReset !in steps
    ensures var s := After(steps, limits);
            && s.pending == |Queued(s.sockets)| <= limits.pending
            && s.inflight == |Awaiting(s.sockets)| <= limits.inflight
            && (ws in s.sockets ==> s.pending >= |s.sockets[ws].queue|)
            && (ws in s.sockets && s.sockets[ws].awaiting.Some? ==> s.inflight > 0)
  {
    hide Queued, Awaiting, AllSound;
    RunSound(steps, limits);
    var s := After(steps, limits);
    if ws in s.sockets {
      QueuedApart(s.sockets, ws);
      AwaitingApart(s.sockets, ws);
    }
  }

  /** A reset under a running server can only make the counters too small, never negative. */
  lemma CountersAfterReset(steps: seq<Step>, limits: Limits)
    requires IsRun(steps, limits)
    ensures var s := After(steps, limits);
            && 0 <= s.pending <= |Queued(s.sockets)| && s.pending <= limits.pending
            && 0 <= s.inflight <= |Awaiting(s.sockets)| && s.inflight <= limits.inflight
  {
    RunSound(steps, limits);
  }

  // ---- Which answer ----

  /** The answers a drain gives on its way, and why. */
  ghost predicate DrainAnswer(answer: Answer, full: bool) {
    match answer
    case Refused => false
    case InvalidJson(m) => !m.valid
    case Overloaded(m) => m.valid && full
    case Served(_) => false
  }

  lemma {:induction false} DrainAnswers(q: Socket, pending: int, inflight: int, limits: Limits)
    ensures var (next, _, inflight') := Drain(q, pending, inflight, limits);
            && q.sent <= next.sent
            && (forall i :: |q.sent| <= i < |next.sent| ==> DrainAnswer(next.sent[i], inflight >= limits.inflight))
            && (inflight >= limits.inflight ==> next.awaiting == q.awaiting && inflight' == inflight)
    decreases |q.queue|
  {
    if q.queue != [] && !q.closed {
      var m := q.queue[0];
      var q1 := q.(queue := q.queue[1..]);
      if !m.valid {
        DrainAnswers(Send(q1, InvalidJson(m)), LessOne(pending), inflight, limits);
      } else if inflight >= limits.inflight {
        DrainAnswers(Send(q1, Overloaded(m)), LessOne(pending), inflight, limits);
      }
    }
  }

  /** Below the limit a drain gets past what does not parse and waits for the first message that does. */
  lemma {:induction false} DrainStops(q: Socket, pending: int, inflight: int, limits: Limits, bad: seq<Message>, m: Message, rest: seq<Message>)
    requires q.queue == bad + [m] + rest && !q.closed && inflight < limits.inflight
    requires m.valid && forall x :: x in bad ==> !x.valid
    ensures Drain(q, pending, inflight, limits).0.awaiting == Some(m)
    ensures Drain(q, pending, inflight, limits).0.queue == rest
    decreases |bad|
  {
    if bad != [] {
      assert q.queue[0] == bad[0] && q.queue[1..] == bad[1..] + [m] + rest;
      var q1 := q.(queue := q.queue[1..]);
      DrainStops(Send(q1, InvalidJson(bad[0])), LessOne(pending), inflight, limits, bad[1..], m, rest);
    } else {
      assert q.queue[0] == m && q.queue[1..] == rest;
    }
  }

  function SentBy(s: Server, ws: SocketId): seq<Answer> {
    if ws in s.sockets then s.sockets[ws].sent else []
  }

  /** An answer given by a step, with what the state before the step says of it. */
  ghost predicate Justified(s: Server, limits: Limits, step: Step, ws: SocketId, answer: Answer) {
    match answer
    case Refused =>
      && step.Arrives? && step.ws == ws && ws in s.sockets
      && (|Queued(s.sockets)| == limits.pending || |s.sockets[ws].queue| == limits.perSocket)
    case InvalidJson(m) => !m.valid
    case Overloaded(m) => m.valid && |Awaiting(s.sockets)| == limits.inflight
    case Served(m) => m.valid && step == Done(ws) && ws in s.sockets && s.sockets[ws].awaiting == Some(m)
  }

  lemma ArriveJustified(s: Server, limits: Limits, ws: SocketId, m: Message)
    requires AllSound(s, limits) && CountersExact(s, limits)
    ensures SentBy(s, ws) <= SentBy(Arrive(s, limits, ws, m), ws)
    ensures forall i :: |SentBy(s, ws)| <= i < |SentBy(Arrive(s, limits, ws, m), ws)| ==>
              Justified(s, limits, Arrives(ws, m), ws, SentBy(Arrive(s, limits, ws, m), ws)[i])
  {
    hide Queued, Awaiting, Drain, Answered;
    if ws in s.sockets {
      var q := s.sockets[ws];
      DrainAnswers(q.(queue := q.queue + [m], accepted := q.accepted + [m], processing := true), s.pending + 1, s.inflight, limits);
    }
  }

  lemma DoneJustified(s: Server, limits: Limits, ws: SocketId)
    requires AllSound(s, limits) && CountersExact(s, limits) && ws in s.sockets && s.sockets[ws].awaiting.Some?
    ensures SentBy(s, ws) <= SentBy(OperationDone(s, limits, ws), ws)
    ensures forall i :: |SentBy(s, ws)| <= i < |SentBy(OperationDone(s, limits, ws), ws)| ==>
              Justified(s, limits, Done(ws), ws, SentBy(OperationDone(s, limits, ws), ws)[i])
  {
    hide Queued, Awaiting, Drain, Answered;
    var q := s.sockets[ws];
    AwaitingApart(s.sockets, ws);
    DrainAnswers(Send(q.(awaiting := None), Served(q.awaiting.value)), s.pending, LessOne(s.inflight), limits);
  }

  lemma StepJustified(s: Server, limits: Limits, step: Step, ws: SocketId)
    requires AllSound(s, limits) && CountersExact(s, limits) && Enabled(s, step)
    ensures SentBy(s, ws) <= SentBy(Next(s, limits, step), ws)
    ensures forall i :: |SentBy(s, ws)| <= i < |SentBy(Next(s, limits, step), ws)| ==>
              Justified(s, limits, step, ws, SentBy(Next(s, limits, step), ws)[i])
  {
    if step == Arrives(ws, if step.Arrives? then step.message else Message("", false)) {
      hide Justified, Arrive, AllSound, CountersExact;
      ArriveJustified(s, limits, ws, step.message);
    } else if step == Done(ws) {
      hide Justified, OperationDone, AllSound, CountersExact;
      DoneJustified(s, limits, ws);
    } else {
      hide Justified, StartDrain, Drain;
      assert SentBy(Next(s, limits, step), ws) == SentBy(s, ws);
    }
  }

  /**
   In every run before a reset, an answer has its reason in the state it was given in: a refusal, that the
   queued messages number the global limit or the socket's queue is full; "overloaded", that as many operations
   are under way as may be; and only what parses is served or overloads, only what does not is invalid.
   */
  lemma AnswersJustified(steps: seq<Step>, limits: Limits, step: Step, ws: SocketId)
    requires IsRun(steps, limits) && CountersReset !in steps && Enabled(After(steps, limits), step)
    ensures var s := After(steps, limits);
            var sent, sent' := SentBy(s, ws), SentBy(Next(s, limits, step), ws);
            && sent <= sent'
            && forall i :: |sent| <= i < |sent'| ==>
                 match sent'[i]
                 case Refused =>
                   && step.Arrives? && step.ws == ws && ws in s.sockets
                   && (|Queued(s.sockets)| == limits.pending || |s.sockets[ws].queue| == limits.perSocket)
                 case InvalidJson(m) => !m.valid
                 case Overloaded(m) => m.valid && |Awaiting(s.sockets)| == limits.inflight
                 case Served(m) => m.valid && step == Done(ws) && ws in s.sockets && s.sockets[ws].awaiting == Some(m)
  {
    RunSound(steps, limits);
    hide Next, AllSound, CountersExact, CountersBelow;
    StepJustified(After(steps, limits), limits, step, ws);
    hide SentBy;
  }

  /** Below both queue limits a message that arrives on an open socket is accepted, and served at once if it can be. */
  lemma ArrivalAccepted(steps: seq<Step>, limits: Limits, ws: SocketId, m: Message)
    requires IsRun(steps, limits) && CountersReset !in steps && ws in After(steps, limits).sockets
    ensures var s := After(steps, limits);
            var q, next := s.sockets[ws], Next(s, limits, Arrives(ws, m)).sockets[ws];
            !q.closed && |Queued(s.sockets)| < limits.pending && |q.queue| < limits.perSocket ==>
              && next.accepted == q.accepted + [m]
              && (q.awaiting.Some? ==> next.queue == q.queue + [m] && next.awaiting == q.awaiting)
              && (q.awaiting.None? && m.valid && |Awaiting(s.sockets)| < limits.inflight ==> next.awaiting == Some(m))
  {
    RunSound(steps, limits);
    hide Queued, Awaiting, Answered, After, IsRun;
    var s := After(steps, limits);
    var q := s.sockets[ws];
    assert SocketSound(q, limits);
    var started := q.(queue := q.queue + [m], accepted := q.accepted + [m], processing := true);
    DrainKeepsAccepted(started, s.pending + 1, s.inflight, limits);
    if q.awaiting.None? && !q.closed && m.valid && s.inflight < limits.inflight {
      assert started.queue == [] + [m] + [];
      DrainStops(started, s.pending + 1, s.inflight, limits, [], m, []);
    }
    hide Drain;
  }

  /** At a queue limit it is refused and nothing else happens; on a closed socket nothing happens at all. */
  lemma ArrivalRefused(steps: seq<Step>, limits: Limits, ws: SocketId, m: Message)
    requires IsRun(steps, limits) && CountersReset !in steps && ws in After(steps, limits).sockets
    ensures var s := After(steps, limits);
            var q, next := s.sockets[ws], Next(s, limits, Arrives(ws, m));
            && (q.closed ==> next == s)
            && (!q.closed && (|Queued(s.sockets)| >= limits.pending || |q.queue| >= limits.perSocket) ==>
                  next == s.(sockets := s.sockets[ws := q.(sent := if q.ready then q.sent + [Refused] else q.sent)]))
  {
    RunSound(steps, limits);
    hide Queued, Awaiting, Answered, After, IsRun, Drain;
  }

  /** The answer to an operation goes out first, if anything can still go out. */
  lemma OperationAnswered(steps: seq<Step>, limits: Limits, ws: SocketId)
    requires IsRun(steps, limits) && Enabled(After(steps, limits), Done(ws)) && After(steps, limits).sockets[ws].ready
    ensures var q := After(steps, limits).sockets[ws];
            q.sent + [Served(q.awaiting.value)] <= Next(After(steps, limits), limits, Done(ws)).sockets[ws].sent
  {
    var s := After(steps, limits);
    var q := s.sockets[ws];
    DrainAnswers(Send(q.(awaiting := None), Served(q.awaiting.value)), s.pending, LessOne(s.inflight), limits);
    hide Drain, After, IsRun;
  }

  lemma {:induction false} DrainKeepsAccepted(q: Socket, pending: int, inflight: int, limits: Limits)
    ensures Drain(q, pending, inflight, limits).0.accepted == q.accepted
    decreases |q.queue|
  {
    if q.queue != [] && !q.closed {
      var m := q.queue[0];
      var q1 := q.(queue := q.queue[1..]);
      if !m.valid {
        DrainKeepsAccepted(Send(q1, InvalidJson(m)), LessOne(pending), inflight, limits);
      } else if inflight >= limits.inflight {
        DrainKeepsAccepted(Send(q1, Overloaded(m)), LessOne(pending), inflight, limits);
      }
    }
  }

  /** When an operation is done, the first queued message that parses becomes the awaited one. */
  lemma NextInLine(steps: seq<Step>, limits: Limits, ws: SocketId, bad: seq<Message>, m: Message, rest: seq<Message>)
    requires IsRun(steps, limits) && CountersReset !in steps && Enabled(After(steps, limits), Done(ws))
    requires var q := After(steps, limits).sockets[ws]; !q.closed && q.queue == bad + [m] + rest
    requires m.valid && forall x :: x in bad ==> !x.valid
    ensures var next := Next(After(steps, limits), limits, Done(ws)).sockets[ws];
            next.awaiting == Some(m) && next.queue == rest
  {
    RunSound(steps, limits);
    hide Queued, Awaiting, Answered, After, IsRun, Drain;
    var s := After(steps, limits);
    var q := s.sockets[ws];
    AwaitingApart(s.sockets, ws);
    DrainStops(Send(q.(awaiting := None), Served(q.awaiting.value)), s.pending, LessOne(s.inflight), limits, bad, m, rest);
  }

  /** A close empties the queue for good: nothing is accepted or sent any more, whatever happens. */
  lemma ClosedStaysClosed(s: Server, limits: Limits, step: Step, ws: SocketId)
    requires Enabled(s, step) && ws in s.sockets && AllSound(s, limits)
    ensures var q, next := s.sockets[ws], Next(s, limits, step).sockets[ws];
            && (step == Closes(ws) ==> next.closed && !next.ready && next.queue == [])
            && (q.closed ==> next.closed && next.accepted == q.accepted && next.queue == [])
            && (!q.ready ==> !next.ready && next.sent == q.sent)
            && (step == BeginsClosing(ws) ==> next == q.(ready := false))
  {
    hide Answered;
    var q := s.sockets[ws];
    assert SocketSound(q, limits);
    if step.Arrives? && step.ws == ws {
      DrainSilent(q.(queue := q.queue + [step.message], accepted := q.accepted + [step.message], processing := true), s.pending + 1, s.inflight, limits);
    } else if step == Done(ws) {
      DrainSilent(Send(q.(awaiting := None), Served(q.awaiting.value)), s.pending, LessOne(s.inflight), limits);
      DrainKeepsAccepted(Send(q.(awaiting := None), Served(q.awaiting.value)), s.pending, LessOne(s.inflight), limits);
    }
    hide Drain;
  }

  /** A drain never reopens anything, and sends nothing on a connection that is not ready. */
  lemma {:induction false} DrainSilent(q: Socket, pending: int, inflight: int, limits: Limits)
    ensures var next := Drain(q, pending, inflight, limits).0;
            && next.closed == q.closed && next.ready == q.ready && (!q.ready ==> next.sent == q.sent) && (q.closed ==> next.queue == q.queue)
    decreases |q.queue|
  {
    if q.queue != [] && !q.closed {
      var m := q.queue[0];
      var q1 := q.(queue := q.queue[1..]);
      if !m.valid {
        DrainSilent(Send(q1, InvalidJson(m)), LessOne(pending), inflight, limits);
      } else if inflight >= limits.inflight {
        DrainSilent(Send(q1, Overloaded(m)), LessOne(pending), inflight, limits);
      }
    }
  }

  /** One socket's event leaves every other socket alone. */
  lemma OthersUntouched(s: Server, limits: Limits, step: Step, ws: SocketId)
    requires Enabled(s, step) && ws in s.sockets && (step.CountersReset? || step.ws != ws)
    ensures ws in Next(s, limits, step).sockets && Next(s, limits, step).sockets[ws] == s.sockets[ws]
  {
    hide Drain;
  }

  // ---- The server in place ----

  class WsServer {
    var sockets: map<SocketId, Socket>
    var pending: int
    var inflight: int
    const limits: Limits

    function State(): Server
      reads this
    {
      Server(sockets, pending, inflight)
    }

    constructor (limits: Limits)
      ensures State() == EMPTY && this.limits == limits
    {
      sockets, pending, inflight := map[], 0, 0;
      this.limits := limits;
    }

    method Connect(ws: SocketId)
      requires ws !in sockets
      modifies this`sockets
      ensures State() == Next(old(State()), limits, Connects(ws))
    {
      sockets := sockets[ws := CONNECTED];
    }

    method SafeSend(ws: SocketId, answer: Answer)
      requires ws in sockets
      modifies this`sockets
      ensures sockets == old(sockets)[ws := Send(old(sockets)[ws], answer)]
    {
      if sockets[ws].ready {
        sockets := sockets[ws := sockets[ws].(sent := sockets[ws].sent + [answer])];
      } else {
        assert sockets == sockets[ws := sockets[ws]];
      }
    }

    /** The drain's loop, from where it starts or resumes to where it ends or waits. */
    method DrainLoop(ws: SocketId)
      requires ws in sockets
      modifies this`sockets, this`pending, this`inflight
      ensures State() == With(old(State()), ws, Drain(old(sockets)[ws], old(pending), old(inflight), limits))
    {
      ghost var start := State();
      while sockets[ws].queue != [] && !sockets[ws].closed
        invariant ws in sockets && sockets == start.sockets[ws := sockets[ws]]
        invariant Drain(sockets[ws], pending, inflight, limits) == Drain(start.sockets[ws], start.pending, start.inflight, limits)
        decreases |sockets[ws].queue|
      {
        var m := sockets[ws].queue[0];
        sockets := sockets[ws := sockets[ws].(queue := sockets[ws].queue[1..])];
        if pending > 0 {
          pending := pending - 1;
        }
        if !m.valid {
          SafeSend(ws, InvalidJson(m));
          continue;
        }
        if inflight >= limits.inflight {
          SafeSend(ws, Overloaded(m));
          continue;
        }
        inflight := inflight + 1;
        sockets := sockets[ws := sockets[ws].(awaiting := Some(m))];
        return;
      }
      sockets := sockets[ws := sockets[ws].(processing := false)];
    }

    method DrainSocketQueue(ws: SocketId)
      requires ws in sockets
      modifies this`sockets, this`pending, this`inflight
      ensures State() == With(old(State()), ws, StartDrain(old(sockets)[ws], old(pending), old(inflight), limits))
    {
      if sockets[ws].processing || sockets[ws].closed {
        assert sockets == sockets[ws := sockets[ws]];
        return;
      }
      sockets := sockets[ws := sockets[ws].(processing := true)];
      DrainLoop(ws);
    }

    method HandleWsMessage(ws: SocketId, m: Message)
      modifies this`sockets, this`pending, this`inflight
      ensures State() == Next(old(State()), limits, Arrives(ws, m))
    {
      hide Drain;
      if ws !in sockets || sockets[ws].closed {
        return;
      }
      if pending >= limits.pending || |sockets[ws].queue| >= limits.perSocket {
        SafeSend(ws, Refused);
        return;
      }
      var q := sockets[ws];
      sockets := sockets[ws := q.(queue := q.queue + [m], accepted := q.accepted + [m])];
      pending := pending + 1;
      DrainSocketQueue(ws);
    }

    /** The drain wakes up with the operation's answer, or its timeout. */
    method OperationSettled(ws: SocketId)
      requires ws in sockets && sockets[ws].awaiting.Some?
      modifies this`sockets, this`pending, this`inflight
      ensures State() == Next(old(State()), limits, Done(ws))
    {
      hide Drain;
      var m := sockets[ws].awaiting.value;
      if inflight > 0 {
        inflight := inflight - 1;
      }
      sockets := sockets[ws := sockets[ws].(awaiting := None)];
      SafeSend(ws, Served(m));
      DrainLoop(ws);
    }

    method ClearSocketQueue(ws: SocketId)
      requires ws in sockets
      modifies this`sockets, this`pending
      ensures sockets == old(sockets)[ws := old(sockets)[ws].(queue := [])]
      ensures pending == if old(sockets)[ws].queue == [] then old(pending) else Max(0, old(pending) - |old(sockets)[ws].queue|)
    {
      var dropped := |sockets[ws].queue|;
      if dropped > 0 {
        pending := Max(0, pending - dropped);
      }
      sockets := sockets[ws := sockets[ws].(queue := [])];
    }

    /** The connection has begun to close; its close event is still to come. */
    method ConnectionCloses(ws: SocketId)
      requires ws in sockets
      modifies this`sockets
      ensures State() == Next(old(State()), limits, BeginsClosing(ws))
    {
      sockets := sockets[ws := sockets[ws].(ready := false)];
    }

    /** A closed connection, or one whose heartbeat failed. */
    method SocketClosed(ws: SocketId)
      requires ws in sockets
      modifies this`sockets, this`pending
      ensures State() == Next(old(State()), limits, Closes(ws))
    {
      sockets := sockets[ws := sockets[ws].(closed := true, ready := false)];
      ClearSocketQueue(ws);
    }

    /** What shutdown does to the counters while drains may still be waiting. */
    method ResetCounters()
      modifies this`pending, this`inflight
      ensures State() == Next(old(State()), limits, CountersReset)
    {
      pending, inflight := 0, 0;
    }
  }
}
