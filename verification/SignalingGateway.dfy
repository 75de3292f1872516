/**
 The signaling gateway's own bookkeeping: which connection speaks for which peer name, and how many
 messages each connection has sent in its current one-second window.
 */
module SignalingGateway {
  import opened MediaTypes
  import opened SessionAuth

  /** One second on a clock that ticks in nanoseconds. */
  const SECOND: int := 1_000_000_000

  // ---- Peer names ----

  datatype Names = Names(sessionToPeer: map<SessionHandle, string>, peerToSession: map<string, SessionHandle>)

  /** Each map undoes the other. */
  ghost predicate Inverse(n: Names) {
    && (forall h :: h in n.sessionToPeer ==> n.sessionToPeer[h] in n.peerToSession && n.peerToSession[n.sessionToPeer[h]] == h)
    && (forall p :: p in n.peerToSession ==> n.peerToSession[p] in n.sessionToPeer && n.sessionToPeer[n.peerToSession[p]] == p)
  }

  predicate Fresh(n: Names, word: string) {
    word != "" && word !in n.peerToSession
  }

  /** A known connection keeps its name; a new one takes a fresh word. */
  function Resolved(n: Names, h: SessionHandle, word: string): Names {
    if h in n.sessionToPeer then n
    else Names(n.sessionToPeer[h := word], n.peerToSession[word := h])
  }

  function Departed(n: Names, h: SessionHandle): Names {
    if h in n.sessionToPeer then Names(n.sessionToPeer - {h}, n.peerToSession - {n.sessionToPeer[h]}) else n
  }

  lemma ResolvedInverse(n: Names, h: SessionHandle, word: string)
    requires Inverse(n) && (h !in n.sessionToPeer ==> Fresh(n, word))
    ensures Inverse(Resolved(n, h, word)) && h in Resolved(n, h, word).sessionToPeer
    ensures Resolved(n, h, word).sessionToPeer[h] == if h in n.sessionToPeer then n.sessionToPeer[h] else word
    ensures forall g :: g != h ==> (g in Resolved(n, h, word).sessionToPeer <==> g in n.sessionToPeer)
    ensures forall g :: g in n.sessionToPeer ==> Resolved(n, h, word).sessionToPeer[g] == n.sessionToPeer[g]
  {
  }

  lemma DepartedInverse(n: Names, h: SessionHandle)
    requires Inverse(n)
    ensures Inverse(Departed(n, h)) && h !in Departed(n, h).sessionToPeer
    ensures forall g :: g in n.sessionToPeer && g != h ==>
              g in Departed(n, h).sessionToPeer && Departed(n, h).sessionToPeer[g] == n.sessionToPeer[g]
  {
  }

  // ---- The fixed window ----

  datatype Rate = Rate(messageCount: nat, windowStart: int)

  /** The window restarts when a second has passed since it began; every message counts, accepted or not. */
  function Counted(rate: Rate, now: int): Rate {
    if now - rate.windowStart >= SECOND then Rate(1, now) else Rate(rate.messageCount + 1, rate.windowStart)
  }

  predicate Passes(rate: Rate, now: int, max: nat) {
    Counted(rate, now).messageCount <= max
  }

  /** The messages of one connection that pass, given when it was first heard of and when its messages came. */
  function RateAfter(created: int, arrivals: seq<int>): Rate {
    if arrivals == [] then Rate(0, created)
    else Counted(RateAfter(created, arrivals[..|arrivals| - 1]), arrivals[|arrivals| - 1])
  }

  function Passed(created: int, arrivals: seq<int>, max: nat): seq<int> {
    if arrivals == [] then []
    else
      var earlier, now := arrivals[..|arrivals| - 1], arrivals[|arrivals| - 1];
      Passed(created, earlier, max) + if Passes(RateAfter(created, earlier), now, max) then [now] else []
  }

  ghost predicate ClockRuns(created: int, arrivals: seq<int>) {
    && (forall i :: 0 <= i < |arrivals| ==> created <= arrivals[i])
    && (forall i, j :: 0 <= i < j < |arrivals| ==> arrivals[i] <= arrivals[j])
  }

  /** How many of the times lie in the half-open interval from `from` to `to`. */
  function Between(times: seq<int>, from: int, to: int): nat {
    if times == [] then 0
    else Between(times[..|times| - 1], from, to) + if from <= times[|times| - 1] < to then 1 else 0
  }

  function InSecond(times: seq<int>, from: int): nat {
    Between(times, from, from + SECOND)
  }

  lemma BetweenAppend(times: seq<int>, t: int, from: int, to: int)
    ensures Between(times + [t], from, to) == Between(times, from, to) + if from <= t < to then 1 else 0
  {
  }

  lemma {:induction false} BetweenSplits(times: seq<int>, from: int, middle: int, to: int)
    requires from <= middle <= to
    ensures Between(times, from, to) == Between(times, from, middle) + Between(times, middle, to)
  {
    if times != [] {
      BetweenSplits(times[..|times| - 1], from, middle, to);
    }
  }

  lemma {:induction false} NoneAfter(times: seq<int>, now: int, from: int, to: int)
    requires now < from && forall i :: 0 <= i < |times| ==> times[i] <= now
    ensures Between(times, from, to) == 0
  {
    if times != [] {
      NoneAfter(times[..|times| - 1], now, from, to);
    }
  }

  /**
   What holds of the messages passed so far: the current window has passed no more than it counted, and no
   more than `max`; the second before it no more than `max`; and no second at all more than twice `max`.
   */
  ghost predicate WindowsHold(passed: seq<int>, rate: Rate, now: int, max: nat) {
    && (forall i :: 0 <= i < |passed| ==> passed[i] <= now)
    && rate.windowStart <= now < rate.windowStart + SECOND
    && Between(passed, rate.windowStart, now + 1) <= rate.messageCount
    && Between(passed, rate.windowStart, now + 1) <= max
    && (forall a :: rate.windowStart - SECOND <= a <= rate.windowStart ==> Between(passed, a, rate.windowStart) <= max)
    && (forall a :: InSecond(passed, a) <= 2 * max)
  }

  /** Time passes up to the next message: either the window goes on, or a new one starts and is empty. */
  lemma WindowMoves(passed: seq<int>, rate: Rate, before: int, now: int, max: nat)
    requires WindowsHold(passed, rate, before, max) && before <= now
    ensures var next := Counted(rate, now);
            && next.messageCount > 0
            && WindowsHold(passed, next.(messageCount := next.messageCount - 1), now, max)
  {
    hide Between;
    var start := rate.windowStart;
    if now - start >= SECOND {
      forall a | now - SECOND <= a <= now
        ensures Between(passed, a, now) <= max
      {
        if a <= before {
          BetweenSplits(passed, start, a, before + 1);
          BetweenSplits(passed, a, before + 1, now);
          NoneAfter(passed, before, before + 1, now);
        } else {
          NoneAfter(passed, before, a, now);
        }
      }
      NoneAfter(passed, before, now, now + 1);
    } else {
      BetweenSplits(passed, start, before + 1, now + 1);
      NoneAfter(passed, before, before + 1, now + 1);
    }
  }

  /** One more message passes in the current window. */
  lemma MessagePasses(passed: seq<int>, rate: Rate, now: int, max: nat)
    requires 0 < rate.messageCount <= max && WindowsHold(passed, rate.(messageCount := rate.messageCount - 1), now, max)
    ensures WindowsHold(passed + [now], rate, now, max)
  {
    hide Between;
    var start := rate.windowStart;
    forall a, b ensures Between(passed + [now], a, b) == Between(passed, a, b) + if a <= now < b then 1 else 0 {
      BetweenAppend(passed, now, a, b);
    }
    forall a ensures InSecond(passed + [now], a) <= 2 * max {
      BetweenAppend(passed, now, a, a + SECOND);
      if a <= now < a + SECOND {
        if a <= start {
          BetweenSplits(passed, a, start, a + SECOND);
          BetweenUpTo(passed, start, a + SECOND, now);
        } else {
          BetweenUpTo(passed, a, a + SECOND, now);
          BetweenSplits(passed, start, a, now + 1);
        }
      } else {
        assert InSecond(passed, a) <= 2 * max;
      }
    }
  }

  lemma BetweenUpTo(times: seq<int>, from: int, to: int, now: int)
    requires from <= to && from <= now < to && forall i :: 0 <= i < |times| ==> times[i] <= now
    ensures Between(times, from, to) == Between(times, from, now + 1)
  {
    BetweenSplits(times, from, now + 1, to);
    NoneAfter(times, now, now + 1, to);
  }

  /** One more message, on what its predecessors have left. */
  lemma LifeStep(created: int, earlier: seq<int>, before: int, now: int, max: nat)
    requires WindowsHold(Passed(created, earlier, max), RateAfter(created, earlier), before, max) && before <= now
    ensures WindowsHold(Passed(created, earlier + [now], max), RateAfter(created, earlier + [now]), now, max)
  {
    hide WindowsHold, Counted, RateAfter, Passed;
    OneArrival(created, earlier, now, max);
    var passed, rate := Passed(created, earlier, max), RateAfter(created, earlier);
    WindowMoves(passed, rate, before, now, max);
    if Passes(rate, now, max) {
      MessagePasses(passed, Counted(rate, now), now, max);
    } else {
      assert passed + [] == passed;
      CountMayGrow(passed, Counted(rate, now), now, max);
    }
  }

  function LastOf(created: int, arrivals: seq<int>): int {
    if arrivals == [] then created else arrivals[|arrivals| - 1]
  }

  lemma EarlierRuns(created: int, arrivals: seq<int>)
    requires ClockRuns(created, arrivals) && arrivals != []
    ensures var earlier := arrivals[..|arrivals| - 1];
            && arrivals == earlier + [LastOf(created, arrivals)]
            && ClockRuns(created, earlier) && LastOf(created, earlier) <= LastOf(created, arrivals)
  {
  }

  lemma NothingPassed(created: int, max: nat)
    ensures WindowsHold(Passed(created, [], max), RateAfter(created, []), created, max)
  {
  }

  lemma {:induction false} LifeHolds(created: int, arrivals: seq<int>, max: nat)
    requires ClockRuns(created, arrivals)
    ensures WindowsHold(Passed(created, arrivals, max), RateAfter(created, arrivals), LastOf(created, arrivals), max)
  {
    hide WindowsHold, RateAfter, Passed, ClockRuns;
    if arrivals == [] {
      NothingPassed(created, max);
    } else {
      EarlierRuns(created, arrivals);
      var earlier := arrivals[..|arrivals| - 1];
      LifeHolds(created, earlier, max);
      LifeStep(created, earlier, LastOf(created, earlier), LastOf(created, arrivals), max);
    }
  }

  lemma CountMayGrow(passed: seq<int>, rate: Rate, now: int, max: nat)
    requires rate.messageCount > 0 && WindowsHold(passed, rate.(messageCount := rate.messageCount - 1), now, max)
    ensures WindowsHold(passed, rate, now, max)
  {
  }

  /**
   Over the life of a connection no half-open second, wherever it starts, lets through more than twice the
   limit.
   */
  lemma AtMostTwiceTheLimit(created: int, arrivals: seq<int>, max: nat, from: int)
    requires ClockRuns(created, arrivals)
    ensures Between(Passed(created, arrivals, max), from, from + SECOND) <= 2 * max
  {
    LifeHolds(created, arrivals, max);
    assert InSecond(Passed(created, arrivals, max), from) <= 2 * max;
  }

  /** When the current window began: with the first message heard, or with the last one to come a second or more after. */
  function WindowStart(created: int, arrivals: seq<int>): int {
    if arrivals == [] then created
    else
      var before, last := WindowStart(created, arrivals[..|arrivals| - 1]), arrivals[|arrivals| - 1];
      if last - before >= 1_000_000_000 then last else before
  }

  lemma {:induction false} WindowCounts(created: int, arrivals: seq<int>)
    requires ClockRuns(created, arrivals)
    ensures RateAfter(created, arrivals).windowStart == WindowStart(created, arrivals)
    ensures WindowStart(created, arrivals) <= LastOf(created, arrivals) < WindowStart(created, arrivals) + SECOND
    ensures RateAfter(created, arrivals).messageCount == Between(arrivals, WindowStart(created, arrivals), LastOf(created, arrivals) + 1)
  {
    if arrivals != [] {
      EarlierRuns(created, arrivals);
      var earlier, last := arrivals[..|arrivals| - 1], LastOf(created, arrivals);
      WindowCounts(created, earlier);
      var start := WindowStart(created, earlier);
      AllUpTo(created, earlier);
      if last - start >= SECOND {
        NoneAfter(earlier, LastOf(created, earlier), last, last + 1);
      } else {
        BetweenSplits(earlier, start, LastOf(created, earlier) + 1, last + 1);
        NoneAfter(earlier, LastOf(created, earlier), LastOf(created, earlier) + 1, last + 1);
      }
    }
  }

  lemma AllUpTo(created: int, arrivals: seq<int>)
    requires ClockRuns(created, arrivals)
    ensures forall i :: 0 <= i < |arrivals| ==> arrivals[i] <= LastOf(created, arrivals)
  {
  }

  /** A message passes exactly if it starts a window, or fewer than the limit have come since the window began. */
  lemma PassIff(created: int, arrivals: seq<int>, now: int, max: nat)
    requires ClockRuns(created, arrivals) && LastOf(created, arrivals) <= now
    ensures var start := WindowStart(created, arrivals);
            Passes(RateAfter(created, arrivals), now, max) <==>
            if now - start >= 1_000_000_000 then 1 <= max else Between(arrivals, start, now + 1) < max
  {
    WindowCounts(created, arrivals);
    var start, last := WindowStart(created, arrivals), LastOf(created, arrivals);
    AllUpTo(created, arrivals);
    BetweenSplits(arrivals, start, last + 1, now + 1);
    NoneAfter(arrivals, last, last + 1, now + 1);
    hide Between, RateAfter, WindowStart;
  }

  function Repeated(t: int, k: nat): (r: seq<int>)
    ensures |r| == k
  {
    if k == 0 then [] else Repeated(t, k - 1) + [t]
  }

  lemma OneArrival(created: int, earlier: seq<int>, now: int, max: nat)
    ensures RateAfter(created, earlier + [now]) == Counted(RateAfter(created, earlier), now)
    ensures Passed(created, earlier + [now], max) ==
            Passed(created, earlier, max) + if Passes(RateAfter(created, earlier), now, max) then [now] else []
  {
  }

  /** A burst that the window has room for passes whole. */
  lemma {:induction false} BurstPasses(created: int, prior: seq<int>, t: int, k: nat, max: nat)
    requires var rate := RateAfter(created, prior); t - rate.windowStart < SECOND && rate.messageCount + k <= max
    ensures var rate := RateAfter(created, prior);
            RateAfter(created, prior + Repeated(t, k)) == Rate(rate.messageCount + k, rate.windowStart)
    ensures Passed(created, prior + Repeated(t, k), max) == Passed(created, prior, max) + Repeated(t, k)
  {
    hide RateAfter, Passed;
    if k == 0 {
      assert prior + [] == prior;
    } else {
      BurstPasses(created, prior, t, k - 1, max);
      assert prior + Repeated(t, k) == (prior + Repeated(t, k - 1)) + [t];
      OneArrival(created, prior + Repeated(t, k - 1), t, max);
    }
  }

  lemma {:induction false} BetweenBursts(times: seq<int>, t: int, k: nat, from: int, to: int)
    requires from <= t < to
    ensures Between(times + Repeated(t, k), from, to) == Between(times, from, to) + k
  {
    if k == 0 {
      assert times + [] == times;
    } else {
      BetweenBursts(times, t, k - 1, from, to);
      assert times + Repeated(t, k) == (times + Repeated(t, k - 1)) + [t];
      BetweenAppend(times + Repeated(t, k - 1), t, from, to);
    }
  }

  /** The first burst fills the window; its end lets the first message of the next burst start a new one. */
  lemma FirstBurstPasses(created: int, last: int, first: int, max: nat)
    requires max > 0 && last == created + SECOND - 1 && first == created + SECOND
    ensures RateAfter(created, Repeated(last, max) + [first]) == Rate(1, first)
    ensures Passed(created, Repeated(last, max) + [first], max) == Repeated(last, max) + [first]
  {
    var head := Repeated(last, max);
    assert RateAfter(created, []) == Rate(0, created) && Passed(created, [], max) == [];
    hide RateAfter, Passed, Repeated;
    BurstPasses(created, [], last, max, max);
    assert [] + head == head;
    OneArrival(created, head, first, max);
  }

  lemma BothBurstsPass(created: int, last: int, first: int, max: nat)
    requires max > 0 && last == created + SECOND - 1 && first == created + SECOND
    ensures Passed(created, Repeated(last, max) + Repeated(first, max), max) == Repeated(last, max) + Repeated(first, max)
  {
    hide RateAfter, Passed, Repeated;
    FirstBurstPasses(created, last, first, max);
    BurstPasses(created, Repeated(last, max) + [first], first, max - 1, max);
    OneMoreInFront(first, max - 1);
    assert Repeated(last, max) + [first] + Repeated(first, max - 1) == Repeated(last, max) + Repeated(first, max);
  }

  /** Twice the limit does get through: one burst ends a window, and the next begins the window after it. */
  lemma TwiceTheLimitIsReached(created: int, max: nat)
    requires max > 0
    ensures var last, first := created + SECOND - 1, created + SECOND;
            var arrivals := Repeated(last, max) + Repeated(first, max);
            Between(Passed(created, arrivals, max), last, last + SECOND) == 2 * max
  {
    var last, first := created + SECOND - 1, created + SECOND;
    hide RateAfter, Passed, Repeated, Between;
    BothBurstsPass(created, last, first, max);
    NoTimes(last, last + SECOND);
    BetweenBursts([], last, max, last, last + SECOND);
    assert [] + Repeated(last, max) == Repeated(last, max);
    BetweenBursts(Repeated(last, max), first, max, last, last + SECOND);
  }

  lemma NoTimes(from: int, to: int)
    ensures Between([], from, to) == 0
  {
  }

  lemma {:induction false} OneMoreInFront(t: int, k: nat)
    ensures [t] + Repeated(t, k) == Repeated(t, k + 1)
  {
    if k > 0 {
      OneMoreInFront(t, k - 1);
    }
  }

  // ---- The gateway in place ----

  datatype Admission = Admitted | AtCapacity | RateLimited

  class MediasoupSignalingGateway {
    var sessionToPeer: map<SessionHandle, string>
    var peerToSession: map<string, SessionHandle>
    var rates: map<SessionHandle, Rate>
    const maxConnections: nat
    const maxPerSecond: nat

    function NameState(): Names
      reads this
    {
      Names(sessionToPeer, peerToSession)
    }

    constructor (maxConnections: nat, maxPerSecond: nat)
      ensures NameState() == Names(map[], map[]) && rates == map[] && Inverse(NameState())
      ensures this.maxConnections == maxConnections && this.maxPerSecond == maxPerSecond
    {
      sessionToPeer, peerToSession, rates := map[], map[], map[];
      this.maxConnections, this.maxPerSecond := maxConnections, maxPerSecond;
    }

    /** Words are drawn until one is not empty and not taken. */
    method ResolveTrustedPeer(h: SessionHandle, words: seq<string>) returns (peer: string)
      requires exists i :: 0 <= i < |words| && Fresh(NameState(), words[i])
      modifies this`sessionToPeer, this`peerToSession
      ensures h in old(sessionToPeer) ==> peer == old(sessionToPeer)[h]
      ensures h !in old(sessionToPeer) ==> peer in words && Fresh(old(NameState()), peer)
      ensures NameState() == Resolved(old(NameState()), h, peer)
      ensures Inverse(old(NameState())) ==> Inverse(NameState())
    {
      if h in sessionToPeer {
        return sessionToPeer[h];
      }
      ghost var n := NameState();
      var i := 0;
      peer := words[0];
      while peer == "" || peer in peerToSession
        invariant 0 <= i < |words| && peer == words[i]
        invariant forall j :: 0 <= j < i ==> !Fresh(NameState(), words[j])
        decreases |words| - i
      {
        i := i + 1;
        peer := words[i];
      }
      sessionToPeer, peerToSession := sessionToPeer[h := peer], peerToSession[peer := h];
      if Inverse(n) {
        ResolvedInverse(n, h, peer);
      }
    }

    method OnConnected(h: SessionHandle, words: seq<string>) returns (peer: Option<string>)
      requires exists i :: 0 <= i < |words| && Fresh(NameState(), words[i])
      modifies this`sessionToPeer, this`peerToSession
      ensures peer.None? <==> |old(sessionToPeer)| >= maxConnections
      ensures peer.None? ==> NameState() == old(NameState())
      ensures peer.Some? ==> NameState() == Resolved(old(NameState()), h, peer.value)
      ensures Inverse(old(NameState())) ==> Inverse(NameState())
    {
      if |sessionToPeer| >= maxConnections {
        return None;
      }
      var name := ResolveTrustedPeer(h, words);
      return Some(name);
    }

    /** The part of a disconnect that the gateway keeps to itself. */
    method OnDisconnected(h: SessionHandle) returns (peer: string)
      modifies this`sessionToPeer, this`peerToSession, this`rates
      ensures peer == if h in old(sessionToPeer) then old(sessionToPeer)[h] else ""
      ensures NameState() == Departed(old(NameState()), h) && rates == old(rates) - {h}
      ensures Inverse(old(NameState())) ==> Inverse(NameState())
    {
      ghost var n := NameState();
      peer := "";
      if h in sessionToPeer {
        peer := sessionToPeer[h];
        peerToSession := peerToSession - {peer};
        sessionToPeer := sessionToPeer - {h};
      }
      rates := rates - {h};
      if Inverse(n) {
        DepartedInverse(n, h);
      }
    }

    /** Capacity first, then the window; a connection's window begins with its first message. */
    method AdmitMessage(h: SessionHandle, firstHeard: int, now: int) returns (admission: Admission)
      requires firstHeard <= now
      modifies this`rates
      ensures admission.AtCapacity? <==> h !in sessionToPeer && |sessionToPeer| >= maxConnections
      ensures admission.AtCapacity? ==> rates == old(rates)
      ensures !admission.AtCapacity? ==>
                var rate := if h in old(rates) then old(rates)[h] else Rate(0, firstHeard);
                rates == old(rates)[h := Counted(rate, now)] && (admission.Admitted? <==> Passes(rate, now, maxPerSecond))
    {
      if h !in sessionToPeer && |sessionToPeer| >= maxConnections {
        return AtCapacity;
      }
      var rate := if h in rates then rates[h] else Rate(0, firstHeard);
      if now - rate.windowStart >= SECOND {
        rate := Rate(0, now);
      }
      rate := rate.(messageCount := rate.messageCount + 1);
      rates := rates[h := rate];
      return if rate.messageCount > maxPerSecond then RateLimited else Admitted;
    }
  }
}
