/**
 The production policy's action budget: each peer has a deque of the times of its recent accepted actions,
 from which expired ones are dropped before each decision. The mediasoup server limits a peer's operations
 the same way, and forgets a peer's history when it closes the peer's resources.
 */
module RatePolicy {
  import opened MediaTypes

  datatype Config = Config(maxActions: int, windowSeconds: int)

  function Clamp(value: int, low: int, high: int): int {
    var atLeast := if low < value then value else low;
    if high < atLeast then high else atLeast
  }

  function NormalizeConfig(config: Config): (r: Config)
    ensures 1 <= r.maxActions <= 10000 && 1 <= r.windowSeconds <= 300
    ensures 1 <= config.maxActions <= 10000 ==> r.maxActions == config.maxActions
    ensures 1 <= config.windowSeconds <= 300 ==> r.windowSeconds == config.windowSeconds
    ensures (config.maxActions < 1 ==> r.maxActions == 1) && (config.maxActions > 10000 ==> r.maxActions == 10000)
    ensures (config.windowSeconds < 1 ==> r.windowSeconds == 1) && (config.windowSeconds > 300 ==> r.windowSeconds == 300)
  {
    Config(Clamp(config.maxActions, 1, 10000), Clamp(config.windowSeconds, 1, 300))
  }

  /** The window on a clock that ticks in nanoseconds. */
  function Window(config: Config): int {
    config.windowSeconds * 1_000_000_000
  }

  predicate ShouldRateLimit(intent: Intent) {
    !intent.CloseSession?
  }

  // ---- The sliding window ----

  type History = map<string, seq<int>>

  function TimesOf(history: History, peerId: string): seq<int> {
    if peerId in history then history[peerId] else []
  }

  /** Drops expired times from the front, and stops at the first that counts. */
  function Pruned(times: seq<int>, now: int, window: int): seq<int> {
    if times != [] && now - times[0] > window then Pruned(times[1..], now, window) else times
  }

  predicate SlidingAccepts(history: History, peerId: string, now: int, window: int, max: nat) {
    |Pruned(TimesOf(history, peerId), now, window)| < max
  }

  function Slide(history: History, peerId: string, now: int, window: int, max: nat): History {
    var kept := Pruned(TimesOf(history, peerId), now, window);
    history[peerId := if |kept| < max then kept + [now] else kept]
  }

  // ---- The full log it stands for ----

  /** How many of the times lie within the window ending now; a time exactly one window ago does. */
  function CountWithin(times: seq<int>, now: int, window: int): nat {
    if times == [] then 0
    else CountWithin(times[..|times| - 1], now, window) + if now - times[|times| - 1] <= window then 1 else 0
  }

  predicate LogAccepts(log: History, peerId: string, now: int, window: int, max: nat) {
    CountWithin(TimesOf(log, peerId), now, window) < max
  }

  /** The log keeps every accepted time for ever. */
  function Logged(log: History, peerId: string, now: int, window: int, max: nat): History {
    if LogAccepts(log, peerId, now, window, max) then log[peerId := TimesOf(log, peerId) + [now]] else log
  }

  // ---- Runs ----

  datatype Event = Action(peerId: string, now: int) | Forgets(peerId: string)

  function SlidingAfter(events: seq<Event>, window: int, max: nat): History {
    if events == [] then map[]
    else
      var earlier := SlidingAfter(events[..|events| - 1], window, max);
      match events[|events| - 1]
      case Action(peerId, now) => Slide(earlier, peerId, now, window, max)
      case Forgets(peerId) => earlier - {peerId}
  }

  function LogAfter(events: seq<Event>, window: int, max: nat): History {
    if events == [] then map[]
    else
      var earlier := LogAfter(events[..|events| - 1], window, max);
      match events[|events| - 1]
      case Action(peerId, now) => Logged(earlier, peerId, now, window, max)
      case Forgets(peerId) => earlier - {peerId}
  }

  /** Every action happens at or before `now`, and none before an earlier one. */
  ghost predicate ClockRuns(events: seq<Event>, now: int) {
    events == [] ||
    (var last := events[|events| - 1];
     && (last.Action? ==> last.now <= now)
     && ClockRuns(events[..|events| - 1], if last.Action? then last.now else now))
  }

  /** A deque stands for a log when it is the log's tail, and what it lacks has expired. */
  ghost predicate TailOf(kept: seq<int>, times: seq<int>, now: int, window: int) {
    && |kept| <= |times|
    && kept == times[|times| - |kept|..]
    && (forall i :: 0 <= i < |times| - |kept| ==> now - times[i] > window)
  }

  ghost predicate Ordered(times: seq<int>, now: int) {
    && (forall i, j :: 0 <= i < j < |times| ==> times[i] <= times[j])
    && (forall i :: 0 <= i < |times| ==> times[i] <= now)
  }

  ghost predicate Spaced(times: seq<int>, window: int, max: nat) {
    forall i :: 0 <= i < |times| - max ==> times[i + max] - times[i] > window
  }

  lemma {:induction false} PrunedIsTail(kept: seq<int>, times: seq<int>, before: int, now: int, window: int)
    requires before <= now && TailOf(kept, times, before, window)
    ensures TailOf(Pruned(kept, now, window), times, now, window)
    ensures var next := Pruned(kept, now, window); next != [] ==> now - next[0] <= window
    decreases |kept|
  {
    if kept != [] && now - kept[0] > window {
      assert kept[1..] == times[|times| - |kept| + 1..];
      PrunedIsTail(kept[1..], times, now, now, window);
    }
  }

  lemma {:induction false} CountOfOrdered(times: seq<int>, kept: seq<int>, now: int, window: int)
    requires Ordered(times, now) && TailOf(kept, times, now, window)
    requires kept != [] ==> now - kept[0] <= window
    ensures CountWithin(times, now, window) == |kept|
    decreases |times|
  {
    if times != [] {
      var shorter := times[..|times| - 1];
      if kept == [] {
        CountOfOrdered(shorter, [], now, window);
      } else {
        CountOfOrdered(shorter, kept[..|kept| - 1], now, window);
        assert kept[|kept| - 1] == times[|times| - 1] && times[|times| - |kept|] == kept[0];
      }
    }
  }

  /** With a deque that stands for the log, both machines decide alike. */
  lemma SameVerdict(kept: seq<int>, times: seq<int>, before: int, now: int, window: int)
    requires before <= now && Ordered(times, now) && TailOf(kept, times, before, window)
    ensures |Pruned(kept, now, window)| == CountWithin(times, now, window)
  {
    PrunedIsTail(kept, times, before, now, window);
    CountOfOrdered(times, Pruned(kept, now, window), now, window);
  }

  /** An action accepted with fewer than `max` in the window is more than a window after the one `max` before it. */
  lemma AcceptedSpaced(kept: seq<int>, times: seq<int>, now: int, window: int, max: nat)
    requires Ordered(times, now) && Spaced(times, window, max) && TailOf(kept, times, now, window) && |kept| < max
    ensures Spaced(times + [now], window, max) && Ordered(times + [now], now)
  {
  }

  ghost predicate Represents(kept: seq<int>, times: seq<int>, now: int, window: int, max: nat) {
    TailOf(kept, times, now, window) && Ordered(times, now) && Spaced(times, window, max)
  }

  ghost predicate StandsFor(history: History, log: History, now: int, window: int, max: nat) {
    forall p :: Represents(TimesOf(history, p), TimesOf(log, p), now, window, max)
  }

  lemma TimePasses(history: History, log: History, before: int, now: int, window: int, max: nat)
    requires StandsFor(history, log, before, window, max) && before <= now
    ensures StandsFor(history, log, now, window, max)
  {
  }

  /** One peer's action, on its deque and on its log. */
  lemma ActionRepresents(kept: seq<int>, times: seq<int>, before: int, now: int, window: int, max: nat)
    requires Represents(kept, times, before, window, max) && before <= now && 0 <= window
    ensures var next := Pruned(kept, now, window);
            && |next| == CountWithin(times, now, window)
            && (|next| < max ==> Represents(next + [now], times + [now], now, window, max))
            && Represents(next, times, now, window, max)
  {
    hide Pruned, CountWithin, Spaced;
    SameVerdict(kept, times, before, now, window);
    PrunedIsTail(kept, times, before, now, window);
    var next := Pruned(kept, now, window);
    if |next| < max {
      hide TailOf, Ordered;
      OrderedLater(times, before, now);
      AcceptedSpaced(next, times, now, window, max);
      AppendedIsTail(next, times, now, window);
    }
  }

  lemma OrderedLater(times: seq<int>, before: int, now: int)
    requires Ordered(times, before) && before <= now
    ensures Ordered(times, now)
  {
  }

  lemma ActionStandsFor(history: History, log: History, peerId: string, before: int, now: int, window: int, max: nat)
    requires StandsFor(history, log, before, window, max) && before <= now && 0 < max && 0 <= window
    ensures SlidingAccepts(history, peerId, now, window, max) <==> LogAccepts(log, peerId, now, window, max)
    ensures StandsFor(Slide(history, peerId, now, window, max), Logged(log, peerId, now, window, max), now, window, max)
  {
    hide Pruned, CountWithin, Represents;
    TimePasses(history, log, before, now, window, max);
    ActionRepresents(TimesOf(history, peerId), TimesOf(log, peerId), before, now, window, max);
    var history', log' := Slide(history, peerId, now, window, max), Logged(log, peerId, now, window, max);
    forall p
      ensures Represents(TimesOf(history', p), TimesOf(log', p), now, window, max)
    {
      if p != peerId {
        assert TimesOf(history', p) == TimesOf(history, p) && TimesOf(log', p) == TimesOf(log, p);
      }
    }
  }

  lemma AppendedIsTail(kept: seq<int>, times: seq<int>, now: int, window: int)
    requires TailOf(kept, times, now, window)
    ensures TailOf(kept + [now], times + [now], now, window)
  {
  }

  lemma {:induction false} RunStandsFor(events: seq<Event>, now: int, window: int, max: nat)
    requires ClockRuns(events, now) && 0 < max && 0 <= window
    ensures StandsFor(SlidingAfter(events, window, max), LogAfter(events, window, max), now, window, max)
    decreases |events|
  {
    if events != [] {
      hide StandsFor, Slide, Logged;
      var last := events[|events| - 1];
      var history := SlidingAfter(events[..|events| - 1], window, max);
      var log := LogAfter(events[..|events| - 1], window, max);
      match last {
        case Action(p, at) =>
          RunStandsFor(events[..|events| - 1], at, window, max);
          ActionStandsFor(history, log, p, at, at, window, max);
          TimePasses(Slide(history, p, at, window, max), Logged(log, p, at, window, max), at, now, window, max);
        case Forgets(p) =>
          RunStandsFor(events[..|events| - 1], now, window, max);
          ForgetStandsFor(history, log, p, now, window, max);
      }
    }
  }

  lemma ForgetStandsFor(history: History, log: History, peerId: string, now: int, window: int, max: nat)
    requires StandsFor(history, log, now, window, max)
    ensures StandsFor(history - {peerId}, log - {peerId}, now, window, max)
  {
    forall p ensures Represents(TimesOf(history - {peerId}, p), TimesOf(log - {peerId}, p), now, window, max) {
      if p != peerId {
        assert TimesOf(history - {peerId}, p) == TimesOf(history, p) && TimesOf(log - {peerId}, p) == TimesOf(log, p);
      }
    }
  }

  /**
   The deque decides as the full log would: after any actions and forgettings, on a clock that never runs
   backwards, an action is accepted iff fewer than `max` accepted actions of the peer lie within the window.
   */
  lemma SlidingRefinesLog(events: seq<Event>, peerId: string, now: int, window: int, max: nat)
    requires ClockRuns(events, now) && 0 < max && 0 <= window
    ensures SlidingAccepts(SlidingAfter(events, window, max), peerId, now, window, max) <==>
            CountWithin(TimesOf(LogAfter(events, window, max), peerId), now, window) < max
  {
    RunStandsFor(events, now, window, max);
    ActionStandsFor(SlidingAfter(events, window, max), LogAfter(events, window, max), peerId, now, now, window, max);
  }

  /** Between two forgettings, any `max + 1` accepted actions of a peer take more than a window. */
  lemma AcceptedActionsSpaced(events: seq<Event>, peerId: string, now: int, window: int, max: nat, i: nat)
    requires ClockRuns(events, now) && 0 < max && 0 <= window
    requires i + max < |TimesOf(LogAfter(events, window, max), peerId)|
    ensures var times := TimesOf(LogAfter(events, window, max), peerId); times[i + max] - times[i] > window
  {
    RunStandsFor(events, now, window, max);
    assert Represents(TimesOf(SlidingAfter(events, window, max), peerId), TimesOf(LogAfter(events, window, max), peerId), now, window, max);
  }

  /** A peer that has just been forgotten starts with its whole budget, and nobody else's changes. */
  lemma ForgottenStartsAfresh(events: seq<Event>, peerId: string, other: string, window: int, max: nat)
    requires 0 < max
    ensures var forgotten := SlidingAfter(events + [Forgets(peerId)], window, max);
            && (forall now :: SlidingAccepts(forgotten, peerId, now, window, max))
            && (other != peerId ==> TimesOf(forgotten, other) == TimesOf(SlidingAfter(events, window, max), other))
  {
    assert (events + [Forgets(peerId)])[..|events|] == events;
  }

  // ---- The policy in place ----

  class MediaProductionPolicy {
    const config: Config
    var history: History

    constructor (config: Config)
      ensures this.config == NormalizeConfig(config) && history == map[]
    {
      this.config := NormalizeConfig(config);
      history := map[];
    }

    method ConsumeRateBudget(peerId: string, now: int) returns (status: Status)
      requires 1 <= config.maxActions
      modifies this`history
      ensures status.Ok? <==> SlidingAccepts(old(history), peerId, now, Window(config), config.maxActions)
      ensures history == Slide(old(history), peerId, now, Window(config), config.maxActions)
    {
      var times := if peerId in history then history[peerId] else [];
      while times != [] && now - times[0] > Window(config)
        invariant Pruned(times, now, Window(config)) == Pruned(TimesOf(old(history), peerId), now, Window(config))
        decreases |times|
      {
        times := times[1..];
      }
      history := history[peerId := times];
      if |times| >= config.maxActions {
        return Failed("Media action rate limit exceeded for peer.");
      }
      history := history[peerId := times + [now]];
      return Ok;
    }

    /** A command that fails validation, names no peer or closes a session consumes nothing. */
    method ValidateAndConsume(intent: Intent, command: Command, validation: Status, now: int) returns (status: Status)
      requires 1 <= config.maxActions
      modifies this`history
      ensures validation.Failed? ==> status == validation
      ensures validation.Failed? || command.peerId == "" || intent.CloseSession? ==> history == old(history)
      ensures validation.Ok? && (command.peerId == "" || intent.CloseSession?) ==> status.Ok?
      ensures validation.Ok? && command.peerId != "" && !intent.CloseSession? ==>
                && (status.Ok? <==> SlidingAccepts(old(history), command.peerId, now, Window(config), config.maxActions))
                && history == Slide(old(history), command.peerId, now, Window(config), config.maxActions)
    {
      if validation.Failed? {
        return validation;
      }
      if command.peerId == "" || !ShouldRateLimit(intent) {
        return Ok;
      }
      status := ConsumeRateBudget(command.peerId, now);
    }
  }
}
