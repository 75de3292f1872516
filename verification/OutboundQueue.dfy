/**
 One WebSocket session's outbound side. Its handlers run one at a time on a strand, in any order the
 network and the callers produce; the queue holds a text until its write has completed.
 */
module OutboundQueue {

  const MAX_QUEUED := 1024

  /**
   `writes` are the writes in progress and `started` all ever begun; `accepted` and `delivered` are the texts
   let into the queue and those whose write completed. `failed` says that a write failed and the close it
   asked for has not run yet.
   */
  datatype Session = Session(
    handshaken: bool,
    open: bool,
    writing: bool,
    closing: bool,
    attached: bool,
    failed: bool,
    outQueue: seq<string>,
    writes: seq<string>,
    started: seq<string>,
    accepted: seq<string>,
    delivered: seq<string>,
    connects: nat,
    disconnects: nat)

  const FRESH := Session(false, false, false, false, true, false, [], [], [], [], [], 0, 0)

  datatype Step = Handshake(ok: bool) | Enqueue(text: string) | WriteDone(ok: bool) | Close | DetachOwner

  predicate Enabled(s: Session, step: Step) {
    match step
    case Handshake(_) => !s.handshaken
    case WriteDone(_) => s.writes != []
    case _ => true
  }

  function DoWrite(s: Session): Session {
    if !s.open || s.closing || s.outQueue == [] then s.(writing := false)
    else s.(writes := s.writes + [s.outQueue[0]], started := s.started + [s.outQueue[0]])
  }

  function Enqueued(s: Session, text: string): Session {
    if !s.open || s.closing || |s.outQueue| >= MAX_QUEUED then s
    else
      var s1 := s.(outQueue := s.outQueue + [text], accepted := s.accepted + [text]);
      if s.writing then s1 else DoWrite(s1.(writing := true))
  }

  function WriteCompleted(s: Session, ok: bool): Session
    requires s.writes != []
  {
    var s1 := s.(writes := s.writes[1..]);
    if !ok then s1.(failed := true)
    else
      var s2 := s1.(delivered := s.delivered + [s.writes[0]],
                    outQueue := if s.outQueue == [] then [] else s.outQueue[1..]);
      if s2.outQueue == [] then s2.(writing := false) else DoWrite(s2)
  }

  /** A failed handshake only asks for a close. */
  function Handshaken(s: Session, ok: bool): Session {
    var s1 := s.(handshaken := true);
    if !ok then s1
    else s1.(open := true, connects := if s.attached then s.connects + 1 else s.connects)
  }

  function Closed(s: Session): Session {
    if s.closing then s
    else s.(closing := true, open := false, writing := false, outQueue := [], attached := false,
            disconnects := if s.attached && s.open then s.disconnects + 1 else s.disconnects)
  }

  function Next(s: Session, step: Step): Session
    requires Enabled(s, step)
  {
    match step
    case Handshake(ok) => Handshaken(s, ok)
    case Enqueue(text) => Enqueued(s, text)
    case WriteDone(ok) => WriteCompleted(s, ok)
    case Close => Closed(s)
    case DetachOwner => s.(attached := false)
  }

  // ---- What every schedule keeps ----

  /** While the session is not closing, writes follow the queue one by one, and no queue waits for nobody. */
  ghost predicate Flowing(s: Session) {
    && s.accepted == s.delivered + s.outQueue
    && (s.writes != [] ==> s.outQueue != [] && s.writes == [s.outQueue[0]])
    && (!s.failed ==> (s.writing <==> s.writes != []))
    && (s.failed ==> s.writing && s.writes == [])
    && (!s.failed ==> s.started == s.delivered + s.writes)
    && (s.outQueue != [] ==> s.writing)
    && (s.outQueue != [] ==> s.open)
    && (s.open ==> s.handshaken)
  }

  ghost predicate Sound(s: Session) {
    && |s.writes| <= 1
    && |s.outQueue| <= MAX_QUEUED
    && (!s.closing ==> Flowing(s))
    && (s.closing ==> s.outQueue == [] && !s.writing && !s.attached)
    && s.disconnects <= s.connects <= 1
    && (s.connects == 1 ==> s.handshaken)
    && (s.disconnects == 1 ==> s.closing)
    && (s.open && s.attached ==> s.connects == 1)
  }

  lemma EnqueueSound(s: Session, text: string)
    requires Sound(s)
    ensures Sound(Enqueued(s, text))
  {
  }

  lemma WriteDoneSound(s: Session, ok: bool)
    requires Sound(s) && s.writes != []
    ensures Sound(WriteCompleted(s, ok))
  {
  }

  lemma NextSound(s: Session, step: Step)
    requires Sound(s) && Enabled(s, step)
    ensures Sound(Next(s, step))
  {
    match step {
      case Enqueue(text) => EnqueueSound(s, text);
      case WriteDone(ok) => WriteDoneSound(s, ok);
      case _ =>
    }
  }

  /** Once closing, always closing, and nothing more is ever written, whatever else happens. */
  lemma NoWriteAfterClose(s: Session, step: Step)
    requires Sound(s) && s.closing && Enabled(s, step)
    ensures Next(s, step).closing && Next(s, step).started == s.started && Next(s, step).disconnects == s.disconnects
  {
  }

  // ---- Schedules ----

  predicate IsSchedule(steps: seq<Step>)
    decreases |steps|, 0
  {
    steps == [] || (IsSchedule(steps[..|steps| - 1]) && Enabled(After(steps[..|steps| - 1]), steps[|steps| - 1]))
  }

  function After(steps: seq<Step>): Session
    requires IsSchedule(steps)
    decreases |steps|, 1
  {
    if steps == [] then FRESH else Next(After(steps[..|steps| - 1]), steps[|steps| - 1])
  }

  lemma {:induction false} ScheduleSound(steps: seq<Step>)
    requires IsSchedule(steps)
    ensures Sound(After(steps))
  {
    if steps != [] {
      ScheduleSound(steps[..|steps| - 1]);
      NextSound(After(steps[..|steps| - 1]), steps[|steps| - 1]);
    }
  }

  /** Every schedule of the strand: at most one write is in progress, and it is that of the queue's head. */
  lemma SingleWriter(steps: seq<Step>)
    requires IsSchedule(steps)
    ensures |After(steps).writes| <= 1
    ensures !After(steps).closing && After(steps).writes != [] ==>
              After(steps).outQueue != [] && After(steps).writes[0] == After(steps).outQueue[0]
    ensures !After(steps).closing && After(steps).outQueue != [] && !After(steps).failed ==> After(steps).writes != []
    ensures |After(steps).outQueue| <= MAX_QUEUED
  {
    ScheduleSound(steps);
  }

  /** Exactly when a write in progress is that of the queue's head: as long as the session is not closing. */
  lemma HeadIffNotClosing(steps: seq<Step>)
    requires IsSchedule(steps) && After(steps).writes != []
    ensures (After(steps).outQueue != [] && After(steps).writes == [After(steps).outQueue[0]]) <==> !After(steps).closing
  {
    ScheduleSound(steps);
  }

  /**
   A close does not wait for the write in progress: it empties the queue, whose head that write is still
   sending. Three steps are enough, on any text.
   */
  lemma CloseTakesTheHeadAway(text: string)
    ensures var steps := [Handshake(true), Enqueue(text), Close];
            IsSchedule(steps) && After(steps).writes == [text] && After(steps).outQueue == [] && After(steps).closing
  {
    var first, second := [Handshake(true)], [Handshake(true), Enqueue(text)];
    assert IsSchedule([]) && After([]) == FRESH;
    Extended([], Handshake(true));
    assert [] + [Handshake(true)] == first && first + [Enqueue(text)] == second;
    Extended(first, Enqueue(text));
    assert second + [Close] == [Handshake(true), Enqueue(text), Close];
    Extended(second, Close);
  }

  lemma Extended(steps: seq<Step>, step: Step)
    requires IsSchedule(steps) && Enabled(After(steps), step)
    ensures IsSchedule(steps + [step]) && After(steps + [step]) == Next(After(steps), step)
  {
    assert (steps + [step])[..|steps|] == steps;
  }

  /** Until it closes, what a session has delivered and what it has queued are what it accepted, in order. */
  lemma DeliveryInOrder(steps: seq<Step>)
    requires IsSchedule(steps)
    ensures !After(steps).closing ==> After(steps).accepted == After(steps).delivered + After(steps).outQueue
  {
    ScheduleSound(steps);
  }

  /** The disconnect callback runs at most once, and only after the connect callback. */
  lemma CallbacksPaired(steps: seq<Step>)
    requires IsSchedule(steps)
    ensures After(steps).disconnects <= After(steps).connects <= 1
  {
    ScheduleSound(steps);
  }

  /** What has been begun by the time a session closes is all that it ever writes. */
  lemma {:induction false} ClosedForGood(steps: seq<Step>, n: nat)
    requires IsSchedule(steps) && n <= |steps| && IsSchedule(steps[..n]) && After(steps[..n]).closing
    ensures After(steps).closing && After(steps).started == After(steps[..n]).started
    decreases |steps|
  {
    if n < |steps| {
      var earlier := steps[..|steps| - 1];
      assert earlier[..n] == steps[..n];
      ClosedForGood(earlier, n);
      ScheduleSound(earlier);
      NoWriteAfterClose(After(earlier), steps[|steps| - 1]);
    } else {
      assert steps[..n] == steps;
    }
  }

  // ---- The session, read off its schedule ----

  /** Opened, and not closed since. */
  predicate Open(steps: seq<Step>) {
    Handshake(true) in steps && Close !in steps
  }

  function Completions(steps: seq<Step>): nat {
    if steps == [] then 0 else Completions(steps[..|steps| - 1]) + if steps[|steps| - 1] == WriteDone(true) then 1 else 0
  }

  /** The texts handed in while the session was open and fewer than 1024 of them were still undelivered. */
  function Offered(steps: seq<Step>): seq<string> {
    if steps == [] then []
    else
      var earlier, last := steps[..|steps| - 1], steps[|steps| - 1];
      Offered(earlier) + if last.Enqueue? && Open(earlier) && |Offered(earlier)| - Completions(earlier) < 1024 then [last.text] else []
  }

  /** The server is told of a connection opened while the session still belongs to it. */
  function Connections(steps: seq<Step>): nat {
    if steps == [] then 0
    else
      var earlier, last := steps[..|steps| - 1], steps[|steps| - 1];
      Connections(earlier) + if last == Handshake(true) && Close !in earlier && DetachOwner !in earlier then 1 else 0
  }

  /** And of the first close of one that was open, if it still does. */
  function Disconnections(steps: seq<Step>): nat {
    if steps == [] then 0
    else
      var earlier, last := steps[..|steps| - 1], steps[|steps| - 1];
      Disconnections(earlier) + if last == Close && Open(earlier) && DetachOwner !in earlier then 1 else 0
  }

  /** What the fields say of the steps taken. */
  ghost predicate Reads(s: Session, steps: seq<Step>) {
    && (s.closing <==> Close in steps)
    && (!s.closing ==> (s.open <==> Handshake(true) in steps))
    && s.accepted == Offered(steps)
    && (!s.closing ==> |s.delivered| == Completions(steps))
    && (s.handshaken <==> Handshake(true) in steps || Handshake(false) in steps)
    && (s.attached <==> Close !in steps && DetachOwner !in steps)
    && s.connects == Connections(steps) && s.disconnects == Disconnections(steps)
  }

  lemma InAppended(steps: seq<Step>, last: Step)
    ensures forall x :: x in steps + [last] <==> x in steps || x == last
    ensures Completions(steps + [last]) == Completions(steps) + if last == WriteDone(true) then 1 else 0
    ensures Offered(steps + [last]) == Offered(steps) +
              if last.Enqueue? && Open(steps) && |Offered(steps)| - Completions(steps) < 1024 then [last.text] else []
    ensures Connections(steps + [last]) == Connections(steps) +
              if last == Handshake(true) && Close !in steps && DetachOwner !in steps then 1 else 0
    ensures Disconnections(steps + [last]) == Disconnections(steps) +
              if last == Close && Open(steps) && DetachOwner !in steps then 1 else 0
  {
    assert (steps + [last])[..|steps|] == steps;
  }

  lemma StepReads(s: Session, steps: seq<Step>, last: Step)
    requires Sound(s) && Reads(s, steps) && Enabled(s, last)
    ensures Reads(Next(s, last), steps + [last])
  {
    InAppended(steps, last);
    hide Offered, Completions, Connections, Disconnections;
    if !s.closing {
      assert |s.accepted| == |s.delivered| + |s.outQueue|;
    }
  }

  lemma {:induction false} ScheduleReads(steps: seq<Step>)
    requires IsSchedule(steps)
    ensures Reads(After(steps), steps)
  {
    if steps != [] {
      var earlier := steps[..|steps| - 1];
      assert steps == earlier + [steps[|steps| - 1]];
      ScheduleReads(earlier);
      ScheduleSound(earlier);
      hide Reads, Sound, Enabled, Next;
      StepReads(After(earlier), earlier, steps[|steps| - 1]);
    }
  }

  /**
   Every text offered to an open session that is not full is accepted, in order. Until the session closes, the
   first of them, as many as writes have completed, are delivered, and the rest are queued.
   */
  lemma NoTextLost(steps: seq<Step>)
    requires IsSchedule(steps)
    ensures After(steps).accepted == Offered(steps)
    ensures Close !in steps ==>
              && Completions(steps) <= |Offered(steps)|
              && After(steps).delivered == Offered(steps)[..Completions(steps)]
              && After(steps).outQueue == Offered(steps)[Completions(steps)..]
  {
    ScheduleReads(steps);
    ScheduleSound(steps);
    hide Offered, Completions, Connections, Disconnections, After, IsSchedule;
  }

  /** The two callbacks run exactly when the schedule says so. */
  lemma CallbacksExactly(steps: seq<Step>)
    requires IsSchedule(steps)
    ensures After(steps).connects == Connections(steps) && After(steps).disconnects == Disconnections(steps)
  {
    ScheduleReads(steps);
    hide Offered, Completions, Connections, Disconnections, After, IsSchedule;
  }

  // ---- The session in place ----

  class WsSession {
    var handshaken: bool
    var open: bool
    var writing: bool
    var closing: bool
    var attached: bool
    var failed: bool
    var outQueue: seq<string>
    var writes: seq<string>
    ghost var started: seq<string>
    ghost var accepted: seq<string>
    ghost var delivered: seq<string>
    var connects: nat
    var disconnects: nat

    ghost function State(): Session
      reads this
    {
      Session(handshaken, open, writing, closing, attached, failed, outQueue, writes, started, accepted, delivered,
              connects, disconnects)
    }

    constructor ()
      ensures State() == FRESH && Sound(State())
    {
      handshaken, open, writing, closing, attached, failed := false, false, false, false, true, false;
      outQueue, writes, started, accepted, delivered := [], [], [], [], [];
      connects, disconnects := 0, 0;
    }

    method OnAccept(ok: bool)
      requires !handshaken
      modifies this
      ensures State() == Next(old(State()), Handshake(ok))
    {
      handshaken := true;
      if ok {
        open := true;
        if attached {
          connects := connects + 1;
        }
      }
    }

    /** Begins the write of the queue's head, which leaves the queue only when its write has completed. */
    method StartWrite()
      modifies this`writing, this`writes, this`started
      ensures State() == DoWrite(old(State()))
    {
      if !open || closing || outQueue == [] {
        writing := false;
        return;
      }
      started := started + [outQueue[0]];
      writes := writes + [outQueue[0]];
    }

    /** Returns whether the queue overflowed, in which case a close is asked for. */
    method EnqueueText(text: string) returns (overflow: bool)
      modifies this
      ensures State() == Next(old(State()), Enqueue(text))
      ensures overflow <==> old(open) && !old(closing) && |old(outQueue)| >= MAX_QUEUED
    {
      if !open || closing {
        return false;
      }
      if |outQueue| >= MAX_QUEUED {
        return true;
      }
      outQueue := outQueue + [text];
      accepted := accepted + [text];
      if !writing {
        writing := true;
        StartWrite();
      }
      return false;
    }

    method OnWriteDone(ok: bool)
      requires writes != []
      modifies this
      ensures State() == Next(old(State()), WriteDone(ok))
    {
      ghost var text := writes[0];
      writes := writes[1..];
      if !ok {
        failed := true;
        return;
      }
      delivered := delivered + [text];
      if outQueue != [] {
        outQueue := outQueue[1..];
      }
      if outQueue == [] {
        writing := false;
      } else {
        StartWrite();
      }
    }

    method RunClose()
      modifies this
      ensures State() == Next(old(State()), Close)
    {
      if closing {
        return;
      }
      closing := true;
      var wasOpen := open;
      open, writing, outQueue := false, false, [];
      if attached && wasOpen {
        disconnects := disconnects + 1;
      }
      attached := false;
    }

    method Detach()
      modifies this`attached
      ensures State() == Next(old(State()), DetachOwner)
    {
      attached := false;
    }
  }
}
