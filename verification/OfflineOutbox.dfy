/**
 The outbox for recipients who are offline: rows claimed in batches, tried, and put back with a growing
 delay until they are delivered or given up.
 */
module OfflineOutbox {
  import opened MediaTypes
  import opened SessionAuth
  import opened SignalingGateway

  const BATCH_SIZE := 16
  const MAX_ATTEMPTS := 8

  datatype RowStatus = Pending | Retry | Dispatching | Delivered | Error

  /**
   `mine` tells whether the row is this server's and addressed to no particular session or peer. Times are in
   seconds; `waited` and `firstClaim` record the delays the row was given and when it was first claimed.
   */
  datatype Row = Row(status: RowStatus, attempts: nat, availableAt: int, mine: bool, recipient: string,
                     waited: nat, firstClaim: Option<int>)

  type Table = map<int, Row>

  // ---- Delays ----

  function Pow2(n: nat): (r: nat)
    ensures r >= 1
  {
    if n == 0 then 1 else 2 * Pow2(n - 1)
  }

  function Min(a: int, b: int): int {
    if a < b then a else b
  }

  function Max(a: int, b: int): int {
    if a < b then b else a
  }

  function Delay(attempts: nat): int {
    Min(300, Max(1, Pow2(Min(attempts, 8))))
  }

  lemma {:induction false} Pow2Grows(a: nat, b: nat)
    requires a <= b
    ensures Pow2(a) <= Pow2(b)
    decreases b
  {
    if a < b {
      Pow2Grows(a, b - 1);
    }
  }

  /** Neither bound ever decides: the delay is the power itself, and stops doubling at 256 seconds. */
  lemma DelayIsThePower(attempts: nat)
    ensures Delay(attempts) == Pow2(Min(attempts, 8)) && 1 <= Delay(attempts) <= 256
  {
    Pow2Grows(Min(attempts, 8), 8);
    assert Pow2(8) == 256;
  }

  /** All the delays given up to an attempt. */
  function WaitUpTo(attempts: nat): int {
    if attempts == 0 then 0 else WaitUpTo(attempts - 1) + Delay(attempts)
  }

  /** Before giving up at attempt `max` a row has waited 2^max - 2 seconds, or 256 more for each attempt past nine. */
  lemma {:induction false} WaitInTotal(max: nat)
    requires max >= 1
    ensures max <= 9 ==> WaitUpTo(max - 1) == Pow2(max) - 2
    ensures max >= 9 ==> WaitUpTo(max - 1) == 510 + 256 * (max - 9)
  {
    if max == 1 {
      assert Pow2(1) == 2;
    } else {
      WaitInTotal(max - 1);
      DelayIsThePower(max - 1);
      assert Pow2(8) == 256 && Pow2(9) == 512;
      if max <= 9 {
        assert Pow2(max) == 2 * Pow2(max - 1);
      } else {
        assert Min(max - 1, 8) == 8;
      }
    }
  }

  // ---- Rows ----

  predicate Claimable(row: Row, now: int) {
    row.mine && (row.status.Pending? || row.status.Retry?) && row.availableAt <= now
  }

  function ClaimedRow(row: Row, now: int): Row {
    row.(status := Dispatching, attempts := row.attempts + 1,
         firstClaim := if row.firstClaim.None? then Some(now) else row.firstClaim)
  }

  function DeliveredRow(row: Row): Row {
    if row.status.Dispatching? then row.(status := Delivered) else row
  }

  function AtLeastOne(max: int): (r: nat)
    ensures r >= 1
  {
    if max <= 0 then 1 else max
  }

  function RetriedRow(row: Row, now: int, max: int): Row {
    if !row.status.Dispatching? then row
    else if row.attempts >= AtLeastOne(max) then row.(status := Error)
    else row.(status := Retry, availableAt := now + Delay(row.attempts), waited := row.waited + DelayOf(row.attempts))
  }

  function DelayOf(attempts: nat): (r: nat)
    ensures r == Delay(attempts)
  {
    DelayIsThePower(attempts);
    Delay(attempts)
  }

  // ---- Claiming ----

  function Candidates(table: Table, now: int): set<int> {
    set id | id in table && Claimable(table[id], now)
  }

  function ClampBatchSize(limit: nat): (r: nat)
    ensures 1 <= r <= 100
  {
    if limit < 1 then 1 else if limit > 100 then 100 else limit
  }

  lemma AnyOf<T>(s: set<T>) returns (x: T)
    requires s != {}
    ensures x in s
  {
    x :| x in s;
  }

  lemma {:induction false} LeastExists(s: set<int>)
    requires s != {}
    ensures exists m :: m in s && forall x :: x in s ==> m <= x
  {
    var x := AnyOf(s);
    var rest := s - {x};
    if |rest| == 0 {
      assert s == {x};
    } else {
      LeastExists(rest);
      var m: int :| m in rest && forall y :: y in rest ==> m <= y;
      var least := if m < x then m else x;
      assert least in s && forall y :: y in s ==> y == x || y in rest;
    }
  }

  function Least(s: set<int>): (m: int)
    requires s != {}
    ensures m in s && forall x :: x in s ==> m <= x
  {
    LeastExists(s);
    var m :| m in s && forall x :: x in s ==> m <= x;
    m
  }

  /** The first `k` by id. */
  function FirstIds(s: set<int>, k: nat): seq<int> {
    if k == 0 || s == {} then [] else [Least(s)] + FirstIds(s - {Least(s)}, k - 1)
  }

  /** A batch holds as many as asked for if there are so many, each once, in order, and none that could wait longer. */
  lemma {:induction false} BatchIsFirst(s: set<int>, k: nat)
    ensures |FirstIds(s, k)| == Min(k, |s|)
    ensures forall id :: id in FirstIds(s, k) ==> id in s
    ensures forall i, j :: 0 <= i < j < |FirstIds(s, k)| ==> FirstIds(s, k)[i] < FirstIds(s, k)[j]
    ensures forall id, other :: id in FirstIds(s, k) && other in s && other !in FirstIds(s, k) ==> id < other
    decreases k
  {
    if k > 0 && s != {} {
      var rest := FirstIds(s - {Least(s)}, k - 1);
      BatchIsFirst(s - {Least(s)}, k - 1);
      forall i | 0 <= i < |rest| ensures Least(s) < rest[i] {
        assert rest[i] in rest;
      }
    }
  }

  function Batch(table: Table, now: int, limit: nat): seq<int> {
    FirstIds(Candidates(table, now), ClampBatchSize(limit))
  }

  function Claimed(table: Table, now: int, limit: nat): Table {
    map id | id in table :: if id in Batch(table, now, limit) then ClaimedRow(table[id], now) else table[id]
  }

  // ---- Runs ----

  datatype Step =
    | Insert(id: int, recipient: string, mine: bool, availableAt: int)
    | Claim(limit: nat)
    | MarkDelivered(id: int)
    | MarkRetry(id: int)
    | Tick(seconds: nat)

  datatype State = State(table: Table, clock: int)

  predicate Enabled(s: State, step: Step) {
    step.Insert? ==> step.id > 0 && step.id !in s.table
  }

  function Next(s: State, max: int, step: Step): State
    requires Enabled(s, step)
  {
    match step
    case Insert(id, recipient, mine, at) => s.(table := s.table[id := Row(Pending, 0, at, mine, recipient, 0, None)])
    case Claim(limit) => s.(table := Claimed(s.table, s.clock, limit))
    case MarkDelivered(id) => s.(table := Marked(s.table, id, DeliveredRow))
    case MarkRetry(id) => s.(table := Marked(s.table, id, row => RetriedRow(row, s.clock, max)))
    case Tick(seconds) => s.(clock := s.clock + seconds)
  }

  function Marked(table: Table, id: int, change: Row -> Row): Table {
    if id in table then table[id := change(table[id])] else table
  }

  predicate IsRun(steps: seq<Step>, max: int)
    decreases |steps|, 0
  {
    steps == [] || (IsRun(steps[..|steps| - 1], max) && Enabled(After(steps[..|steps| - 1], max), steps[|steps| - 1]))
  }

  function After(steps: seq<Step>, max: int): State
    requires IsRun(steps, max)
    decreases |steps|, 1
  {
    if steps == [] then State(map[], 0) else Next(After(steps[..|steps| - 1], max), max, steps[|steps| - 1])
  }

  predicate Final(row: Row) {
    row.status.Delivered? || row.status.Error?
  }

  /** How many more changes a row can see. */
  function Left(row: Row, max: nat): int {
    match row.status
    case Pending => 2 * (max - row.attempts)
    case Retry => 2 * (max - row.attempts)
    case Dispatching => 2 * (max - row.attempts) + 1
    case _ => 0
  }

  ghost predicate RowSound(row: Row, clock: int, max: nat) {
    && row.attempts <= max
    && (row.status.Pending? ==> row.attempts == 0)
    && (row.attempts == 0 <==> row.firstClaim.None?)
    && (row.status.Retry? ==> 0 < row.attempts < max && row.waited == WaitUpTo(row.attempts)
                              && row.availableAt >= row.firstClaim.value + row.waited)
    && (!row.status.Retry? && !row.status.Pending? ==>
          0 < row.attempts && row.waited == WaitUpTo(row.attempts - 1) && clock >= row.firstClaim.value + row.waited)
    && (row.status.Pending? ==> row.waited == 0)
    && (row.status.Error? ==> row.attempts == max)
  }

  /** Every change a row sees leaves it sound and takes one from what it has left. */
  ghost predicate Moves(row: Row, row': Row, clock: int, max: nat) {
    row' == row || (!Final(row) && RowSound(row', clock, max) && Left(row', max) < Left(row, max))
  }

  lemma ClaimMoves(row: Row, clock: int, max: nat)
    requires RowSound(row, clock, max) && Claimable(row, clock) && max >= 1
    ensures Moves(row, ClaimedRow(row, clock), clock, max)
  {
  }

  lemma RetryMoves(row: Row, clock: int, max: int)
    requires RowSound(row, clock, AtLeastOne(max))
    ensures Moves(row, RetriedRow(row, clock, max), clock, AtLeastOne(max))
  {
  }

  lemma DeliverMoves(row: Row, clock: int, max: nat)
    requires RowSound(row, clock, max)
    ensures Moves(row, DeliveredRow(row), clock, max)
  {
  }

  ghost predicate Sound(s: State, max: nat) {
    forall id :: id in s.table ==> RowSound(s.table[id], s.clock, max)
  }

  lemma NextMoves(s: State, max: int, step: Step, id: int)
    requires Sound(s, AtLeastOne(max)) && Enabled(s, step) && id in s.table
    ensures id in Next(s, max, step).table && Moves(s.table[id], Next(s, max, step).table[id], s.clock, AtLeastOne(max))
  {
    hide RowSound, Moves, ClaimedRow, RetriedRow, DeliveredRow;
    var row := s.table[id];
    assert RowSound(row, s.clock, AtLeastOne(max));
    Unmoved(row, s.clock, AtLeastOne(max));
    match step {
      case Claim(limit) =>
        BatchIsFirst(Candidates(s.table, s.clock), ClampBatchSize(limit));
        hide FirstIds;
        if id in Batch(s.table, s.clock, limit) {
          ClaimMoves(row, s.clock, AtLeastOne(max));
        }
      case MarkDelivered(_) => DeliverMoves(row, s.clock, AtLeastOne(max));
      case MarkRetry(_) => RetryMoves(row, s.clock, max);
      case _ =>
    }
  }

  lemma Unmoved(row: Row, clock: int, max: nat)
    ensures Moves(row, row, clock, max)
  {
  }

  lemma NextSound(s: State, max: int, step: Step)
    requires Sound(s, AtLeastOne(max)) && Enabled(s, step)
    ensures Sound(Next(s, max, step), AtLeastOne(max))
  {
    var next := Next(s, max, step);
    forall id | id in next.table
      ensures RowSound(next.table[id], next.clock, AtLeastOne(max))
    {
      if id in s.table {
        NextMoves(s, max, step, id);
        MovedSound(s.table[id], next.table[id], s.clock, next.clock, AtLeastOne(max));
      }
    }
  }

  lemma MovedSound(row: Row, row': Row, clock: int, clock': int, max: nat)
    requires RowSound(row, clock, max) && Moves(row, row', clock, max) && clock <= clock'
    ensures RowSound(row', clock', max)
  {
  }

  lemma {:induction false} RunSound(steps: seq<Step>, max: int)
    requires IsRun(steps, max)
    ensures Sound(After(steps, max), AtLeastOne(max))
  {
    if steps != [] {
      hide Sound, Next, Enabled;
      RunSound(steps[..|steps| - 1], max);
      NextSound(After(steps[..|steps| - 1], max), max, steps[|steps| - 1]);
    } else {
      assert After(steps, max).table == map[];
    }
  }

  /** How often a row has changed in a run. */
  function Changes(steps: seq<Step>, max: int, id: int): nat
    requires IsRun(steps, max)
  {
    if steps == [] then 0
    else
      var earlier := steps[..|steps| - 1];
      var (before, after) := (After(earlier, max), After(steps, max));
      Changes(earlier, max, id) + if id in before.table && id in after.table && before.table[id] != after.table[id] then 1 else 0
  }

  lemma {:induction false} ChangesLeft(steps: seq<Step>, max: int, id: int)
    requires IsRun(steps, max)
    ensures id !in After(steps, max).table ==> Changes(steps, max, id) == 0
    ensures id in After(steps, max).table ==>
              Changes(steps, max, id) + Left(After(steps, max).table[id], AtLeastOne(max)) <= 2 * AtLeastOne(max)
  {
    if steps != [] {
      var earlier := steps[..|steps| - 1];
      ChangesLeft(earlier, max, id);
      RunSound(earlier, max);
      if id in After(earlier, max).table {
        NextMoves(After(earlier, max), max, steps[|steps| - 1], id);
      }
    }
  }

  /**
   Whatever the order of claims, deliveries and retries: no row is tried more than the maximum, none changes
   more than twice that often, and one that is given up has waited in full since it was first claimed.
   */
  lemma OutboxBounded(steps: seq<Step>, max: int, id: int)
    requires IsRun(steps, max) && id in After(steps, max).table
    ensures var row := After(steps, max).table[id];
            var limit := AtLeastOne(max);
            && row.attempts <= limit
            && Changes(steps, max, id) <= 2 * limit
            && (row.status.Error? ==>
                  && row.attempts == limit && row.firstClaim.Some?
                  && row.waited == (if limit <= 9 then Pow2(limit) - 2 else 510 + 256 * (limit - 9))
                  && After(steps, max).clock >= row.firstClaim.value + row.waited)
  {
    RunSound(steps, max);
    ChangesLeft(steps, max, id);
    WaitInTotal(AtLeastOne(max));
    var row := After(steps, max).table[id];
    assert RowSound(row, After(steps, max).clock, AtLeastOne(max));
    hide Changes, After, IsRun, WaitUpTo;
  }

  /** Delivered and given-up rows never change again. */
  lemma {:induction false} FinalForGood(steps: seq<Step>, max: int, n: nat, id: int)
    requires IsRun(steps, max) && n <= |steps| && IsRun(steps[..n], max)
    requires id in After(steps[..n], max).table && Final(After(steps[..n], max).table[id])
    ensures id in After(steps, max).table && After(steps, max).table[id] == After(steps[..n], max).table[id]
    decreases |steps|
  {
    if n < |steps| {
      var earlier := steps[..|steps| - 1];
      assert earlier[..n] == steps[..n];
      FinalForGood(earlier, max, n, id);
      RunSound(earlier, max);
      NextMoves(After(earlier, max), max, steps[|steps| - 1], id);
    } else {
      assert steps[..n] == steps;
    }
  }

  /** A claimed row waits for its own mark: if none comes, no claim ever takes it up again. */
  lemma ClaimedWaitsForItsMark(s: State, max: int, step: Step, id: int)
    requires Enabled(s, step) && id in s.table && s.table[id].status.Dispatching?
    requires step != MarkDelivered(id) && step != MarkRetry(id)
    ensures id in Next(s, max, step).table && Next(s, max, step).table[id] == s.table[id]
  {
    if step.Claim? {
      BatchIsFirst(Candidates(s.table, s.clock), ClampBatchSize(step.limit));
    }
  }

  // ---- What each step comes to ----

  /** A claim takes only rows of this server that wait and are due, marks them tried, and leaves all others alone. */
  lemma ClaimTakes(s: State, max: int, limit: nat, id: int)
    requires id in s.table
    ensures var row, next := s.table[id], Next(s, max, Claim(limit)).table;
            && id in next
            && (next[id] != row ==>
                  && row.mine && (row.status == Pending || row.status == Retry) && row.availableAt <= s.clock
                  && next[id].status == Dispatching && next[id].attempts == row.attempts + 1
                  && next[id].availableAt == row.availableAt && next[id].recipient == row.recipient)
  {
    BatchIsFirst(Candidates(s.table, s.clock), ClampBatchSize(limit));
    hide FirstIds;
  }

  /** It takes the first of them by id: all that wait, up to the limit, which is one at least and a hundred at most. */
  lemma ClaimTakesFirst(s: State, max: int, limit: nat, id: int)
    requires id in s.table && s.table[id].mine && (s.table[id].status == Pending || s.table[id].status == Retry)
    requires s.table[id].availableAt <= s.clock
    ensures var ahead := set other | other in s.table && other < id && s.table[other].mine
                                     && (s.table[other].status == Pending || s.table[other].status == Retry)
                                     && s.table[other].availableAt <= s.clock;
            Next(s, max, Claim(limit)).table[id].status == Dispatching <==>
            |ahead| < (if limit < 1 then 1 else if limit > 100 then 100 else limit)
  {
    var all := Candidates(s.table, s.clock);
    var k := ClampBatchSize(limit);
    var ahead := set other | other in all && other < id;
    assert ahead == set other | other in s.table && other < id && s.table[other].mine
                                && (s.table[other].status == Pending || s.table[other].status == Retry)
                                && s.table[other].availableAt <= s.clock;
    TakenIff(all, k, id);
  }

  /** An element is among the first k exactly if fewer than k come before it. */
  lemma {:induction false} TakenIff(all: set<int>, k: nat, id: int)
    requires id in all
    ensures id in FirstIds(all, k) <==> |set other | other in all && other < id| < k
    decreases k
  {
    var ahead := set other | other in all && other < id;
    if k > 0 {
      var least := Least(all);
      if id == least {
        assert ahead == {};
      } else {
        TakenIff(all - {least}, k - 1, id);
        assert ahead == {least} + set other | other in all - {least} && other < id;
      }
    }
  }

  /** A mark of delivery ends a claimed row and touches no other. */
  lemma DeliveryMarks(s: State, max: int, id: int, other: int)
    requires other in s.table
    ensures var next := Next(s, max, MarkDelivered(id)).table;
            && next.Keys == s.table.Keys
            && next[other] == if other == id && s.table[other].status == Dispatching then s.table[other].(status := Delivered) else s.table[other]
  {
  }

  /** A mark for retry gives a claimed row up at the maximum, and otherwise makes it wait 2^attempts seconds, 256 at most. */
  lemma RetryMarks(s: State, max: int, id: int, other: int)
    requires other in s.table
    ensures var row, next := s.table[other], Next(s, max, MarkRetry(id)).table;
            var limit := if max <= 0 then 1 else max;
            && next.Keys == s.table.Keys
            && (other != id || row.status != Dispatching ==> next[other] == row)
            && (other == id && row.status == Dispatching && row.attempts >= limit ==> next[other] == row.(status := Error))
            && (other == id && row.status == Dispatching && row.attempts < limit ==>
                  && next[other].status == Retry && next[other].attempts == row.attempts
                  && next[other].availableAt == s.clock + Pow2(if row.attempts < 8 then row.attempts else 8))
  {
    DelayIsThePower(s.table[other].attempts);
    hide Pow2;
  }

  /** Somebody of the recipient's is connected: a session of that user, under a name the gateway knows. */
  ghost predicate SomeoneThere(names: Names, sessions: Sessions, userId: string) {
    userId != "" && exists h :: h in sessions && sessions[h].userId == userId && sessions[h].peerId != "" && sessions[h].peerId in names.peerToSession
  }

  lemma ReachableMeans(names: Names, sessions: Sessions, row: Row)
    ensures Reachable(names, sessions, row) <==> SomeoneThere(names, sessions, row.recipient)
  {
    if SomeoneThere(names, sessions, row.recipient) {
      var h :| h in sessions && sessions[h].userId == row.recipient && sessions[h].peerId != "" && sessions[h].peerId in names.peerToSession;
      assert sessions[h].peerId in ConnectedPeers(names, sessions, row.recipient);
    }
    if Reachable(names, sessions, row) {
      var p :| p in ConnectedPeers(names, sessions, row.recipient);
    }
  }

  // ---- The repository and its dispatcher ----

  /** The recipient's peers that are connected right now. */
  function ConnectedPeers(names: Names, sessions: Sessions, userId: string): set<string> {
    set p | p in PeersOf(sessions, userId) && p != "" && p in names.peerToSession
  }

  /** A row that was claimed is delivered if its recipient is reachable, and otherwise retried or given up. */
  function Dispatched(row: Row, reachable: bool, now: int): Row {
    if reachable then DeliveredRow(row) else RetriedRow(row, now, MAX_ATTEMPTS)
  }

  predicate Reachable(names: Names, sessions: Sessions, row: Row) {
    row.recipient != "" && ConnectedPeers(names, sessions, row.recipient) != {}
  }

  /**
   A row the dispatcher got to is delivered if somebody of the recipient's is there; otherwise it is given up
   at the eighth attempt, and put back with its delay before. One it did not get to stays claimed.
   */
  ghost predicate HandledAs(row: Row, next: Row, reached: bool, there: bool, now: int) {
    && next.attempts == row.attempts + 1
    && next.recipient == row.recipient
    && (next.status == Dispatching <==> !reached)
    && (next.status == Delivered <==> reached && there)
    && (next.status == Error <==> reached && !there && row.attempts + 1 >= 8)
    && (next.status == Retry <==> reached && !there && row.attempts + 1 < 8)
    && (next.status == Retry ==> next.availableAt == now + Pow2(row.attempts + 1))
  }

  lemma DispatchedMeans(names: Names, sessions: Sessions, row: Row, next: Row, reached: bool, now: int)
    requires var claimed := ClaimedRow(row, now);
             next == if reached then Dispatched(claimed, Reachable(names, sessions, claimed), now) else claimed
    ensures HandledAs(row, next, reached, SomeoneThere(names, sessions, row.recipient), now)
  {
    ReachableMeans(names, sessions, ClaimedRow(row, now));
    DelayIsThePower(row.attempts + 1);
    hide Reachable, SomeoneThere, Pow2;
  }

  class MessengerRepository {
    var table: Table

    constructor ()
      ensures table == map[]
    {
      table := map[];
    }

    method ClaimPendingOfflineOutbox(now: int, limit: nat) returns (batch: seq<int>)
      modifies this
      ensures batch == Batch(old(table), now, limit) && table == Claimed(old(table), now, limit)
      ensures forall id :: id in batch ==> id in table && table[id].status.Dispatching?
    {
      batch := Batch(table, now, limit);
      BatchIsFirst(Candidates(table, now), ClampBatchSize(limit));
      table := map id | id in table :: if id in batch then ClaimedRow(table[id], now) else table[id];
    }

    method MarkOfflineOutboxDelivered(id: int) returns (status: Status)
      modifies this
      ensures status.Failed? <==> id <= 0
      ensures table == if id <= 0 then old(table) else Marked(old(table), id, DeliveredRow)
    {
      if id <= 0 {
        return Failed("markOfflineOutboxDelivered: outboxId must be positive.");
      }
      if id in table && table[id].status.Dispatching? {
        table := table[id := table[id].(status := Delivered)];
      }
      return Ok;
    }

    method MarkOfflineOutboxRetry(id: int, now: int, maxAttempts: int) returns (status: Status)
      modifies this
      ensures status.Failed? <==> id <= 0
      ensures table == if id <= 0 then old(table) else Marked(old(table), id, row => RetriedRow(row, now, maxAttempts))
    {
      if id <= 0 {
        return Failed("markOfflineOutboxRetry: outboxId must be positive.");
      }
      var max := if maxAttempts <= 0 then 1 else maxAttempts;
      if id in table && table[id].status.Dispatching? {
        if table[id].attempts >= max {
          table := table[id := table[id].(status := Error)];
        } else {
          table := table[id := table[id].(status := Retry, availableAt := now + Delay(table[id].attempts),
                                          waited := table[id].waited + DelayOf(table[id].attempts))];
        }
      }
      return Ok;
    }

    /** One claimed row: posted to whoever is connected, or put back. */
    method DispatchOne(id: int, now: int, names: Names, sessions: Sessions)
      requires id in table && id > 0
      modifies this
      ensures table == old(table)[id := Dispatched(old(table)[id], Reachable(names, sessions, old(table)[id]), now)]
    {
      if Reachable(names, sessions, table[id]) {
        var status := MarkOfflineOutboxDelivered(id);
      } else {
        var status := MarkOfflineOutboxRetry(id, now, MAX_ATTEMPTS);
      }
    }

    /** One round of the dispatcher: `handled` of the claimed rows are dealt with before it is told to stop. */
    method DispatchBatch(now: int, names: Names, sessions: Sessions, handled: nat) returns (batch: seq<int>)
      requires forall id :: id in table ==> id > 0
      modifies this
      ensures batch == Batch(old(table), now, BATCH_SIZE) && table.Keys == old(table).Keys
      ensures forall id :: id in batch ==> id in old(table)
      ensures forall i :: 0 <= i < |batch| && batch[i] in old(table) ==>
                var row := ClaimedRow(old(table)[batch[i]], now);
                table[batch[i]] == if i < handled then Dispatched(row, Reachable(names, sessions, row), now) else row
      ensures forall i :: 0 <= i < |batch| && batch[i] in old(table) ==>
                var row := old(table)[batch[i]];
                HandledAs(row, table[batch[i]], i < handled, SomeoneThere(names, sessions, row.recipient), now)
      ensures forall id :: id in table && id !in batch ==> table[id] == old(table)[id]
    {
      hide Reachable, Dispatched, ClaimedRow, FirstIds, Candidates;
      ghost var before := table;
      batch := ClaimPendingOfflineOutbox(now, BATCH_SIZE);
      BatchIsFirst(Candidates(before, now), ClampBatchSize(BATCH_SIZE));
      ghost var claimed := table;
      var i := 0;
      while i < |batch| && i < handled
        invariant 0 <= i <= |batch| && i <= handled && table.Keys == claimed.Keys
        invariant forall j :: 0 <= j < i ==>
                    table[batch[j]] == Dispatched(claimed[batch[j]], Reachable(names, sessions, claimed[batch[j]]), now)
        invariant forall j :: i <= j < |batch| ==> table[batch[j]] == claimed[batch[j]]
        invariant forall id :: id in table && id !in batch ==> table[id] == claimed[id]
      {
        assert forall j :: 0 <= j < |batch| && j != i ==> batch[j] != batch[i];
        DispatchOne(batch[i], now, names, sessions);
        i := i + 1;
      }
      forall k | 0 <= k < |batch|
        ensures HandledAs(before[batch[k]], table[batch[k]], k < handled, SomeoneThere(names, sessions, before[batch[k]].recipient), now)
      {
        DispatchedMeans(names, sessions, before[batch[k]], table[batch[k]], k < handled, now);
      }
    }
  }
}
