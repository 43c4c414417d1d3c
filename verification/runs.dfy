/**
 * Whole sets: the scheduler firing again and again, how many pings a set
 * plays, and the invariant every user action and every tick preserves.
 */
module Runs {
  import opened Wrappers
  import Settings
  import opened Countdown

  /** The scheduler firing `n` times in a row, with the events of all the ticks. */
  function Fires(t: Timer, n: nat): Output
    decreases n
  {
    if n == 0 then Output(t, [])
    else
      var first := Fire(t);
      var rest := Fires(first.timer, n - 1);
      Output(rest.timer, first.events + rest.events)
  }

  /** The number of multiples of `i` in `(lo, hi]`, counted one second at a time. */
  function Multiples(lo: int, hi: int, i: int): nat
    requires i >= 1
    decreases hi - lo
  {
    if hi <= lo then 0
    else (if (lo + 1) % i == 0 then 1 else 0) + Multiples(lo + 1, hi, i)
  }

  /** Awareness pings a cadence calls for while the elapsed time goes from `lo` to `hi`. */
  function PingCount(interval: Option<int>, lo: int, hi: int): nat
  {
    if interval.Some? && interval.value >= 1 then Multiples(lo, hi, interval.value) else 0
  }

  /** The ping events of the ticks that take the elapsed time from `lo` to `hi`, one second at a time. */
  function DuePings(interval: Option<int>, lo: int, hi: int): seq<Event>
    decreases hi - lo
  {
    if hi <= lo then []
    else (if PingDue(interval, lo + 1) then [Ping] else []) + DuePings(interval, lo + 1, hi)
  }

  /** The trace holds nothing but pings, as many as the cadence calls for. */
  lemma {:induction false} DuePingsCount(interval: Option<int>, lo: int, hi: int, e: Event)
    requires 0 <= lo
    ensures multiset(DuePings(interval, lo, hi))[e] == (if e == Ping then PingCount(interval, lo, hi) else 0)
    decreases hi - lo
  {
    if lo < hi {
      var head := if PingDue(interval, lo + 1) then [Ping] else [];
      CountConcat(head, DuePings(interval, lo + 1, hi), e);
      DuePingsCount(interval, lo + 1, hi, e);
    }
  }

  lemma DivStep(n: int, i: int)
    requires n >= 0 && i >= 1
    ensures (n + 1) / i == n / i + (if (n + 1) % i == 0 then 1 else 0)
  {
    var q, r := n / i, n % i;
    assert n == q * i + r;
    if r + 1 < i {
      assert n + 1 == q * i + (r + 1);
      DivModUnique(n + 1, i, q, r + 1);
    } else {
      assert n + 1 == (q + 1) * i;
      DivModUnique(n + 1, i, q + 1, 0);
    }
  }

  lemma DivModUnique(n: int, i: int, q: int, r: int)
    requires i >= 1 && 0 <= r < i && n == q * i + r
    ensures n / i == q && n % i == r
  {
    var q', r' := n / i, n % i;
    assert (q - q') * i == r' - r;
    if q > q' {
      AtLeastOnce(q - q', i);
    } else if q < q' {
      AtLeastOnce(q' - q, i);
    }
  }

  lemma {:induction false} AtLeastOnce(a: int, i: int)
    requires a >= 1 && i >= 1
    ensures a * i >= i
    decreases a
  {
    if a > 1 {
      AtLeastOnce(a - 1, i);
      assert a * i == (a - 1) * i + i;
    }
  }

  /** The count agrees with division: `hi / i - lo / i` multiples of `i` lie in `(lo, hi]`. */
  lemma {:induction false} MultiplesClosedForm(lo: int, hi: int, i: int)
    requires 0 <= lo <= hi && i >= 1
    ensures Multiples(lo, hi, i) == hi / i - lo / i
    decreases hi - lo
  {
    if lo < hi {
      MultiplesClosedForm(lo + 1, hi, i);
      DivStep(lo, i);
    }
  }

  /** The state a running timer is in once its countdown has reached zero. */
  function Finished(t: Timer): (r: Timer)
    ensures !r.running && !r.pending && r.remaining == 0 && r.setsDone == t.setsDone + 1
    ensures SameSettings(r.(setsDone := t.setsDone), t)
  {
    t.(remaining := 0, running := false, pending := false, setsDone := t.setsDone + 1)
  }

  /** The awareness ping, if any, of the next tick of a running timer. */
  function NextPing(t: Timer): seq<Event>
  {
    if PingDue(t.interval, t.target - t.remaining + 1) then [Ping] else []
  }

  /**
   * A timer in the middle of a set: running, a tick scheduled, and the
   * countdown within (0, target]. Every sane running timer is one.
   */
  ghost predicate Ticking(t: Timer) {
    t.running && t.pending && 0 < t.remaining <= t.target
  }

  /** One fire of a running timer, spelled out. */
  lemma FireStep(t: Timer)
    requires Ticking(t)
    ensures t.remaining > 1 ==> Fire(t) == Output(t.(remaining := t.remaining - 1), NextPing(t))
    ensures t.remaining == 1 ==> Fire(t) == Output(Finished(t), NextPing(t) + [Saved, CompletionPing, AskNextSet])
  {
  }

  /** The first of `n` fires of a sane running timer, peeled off. */
  lemma FiresStep(t: Timer, n: nat)
    requires Ticking(t) && 0 < n
    ensures t.remaining > 1 ==>
      var rest := Fires(t.(remaining := t.remaining - 1), n - 1);
      Fires(t, n) == Output(rest.timer, NextPing(t) + rest.events)
    ensures t.remaining == 1 ==>
      var rest := Fires(Finished(t), n - 1);
      Fires(t, n) == Output(rest.timer, NextPing(t) + [Saved, CompletionPing, AskNextSet] + rest.events)
  {
    FireStep(t);
  }

  lemma CountConcat(a: seq<Event>, b: seq<Event>, e: Event)
    ensures multiset(a + b)[e] == multiset(a)[e] + multiset(b)[e]
  {
  }

  lemma {:induction false} RunState(t: Timer, n: nat)
    requires Ticking(t) && n <= t.remaining
    ensures n < t.remaining ==> Fires(t, n).timer == t.(remaining := t.remaining - n)
    ensures n == t.remaining ==> Fires(t, n).timer == Finished(t)
    decreases n
  {
    if n > 0 {
      FiresStep(t, n);
      if t.remaining > 1 {
        RunState(t.(remaining := t.remaining - 1), n - 1);
      }
    }
  }

  /** The completion events, present only once the countdown has reached zero. */
  function Completion(done: bool): seq<Event>
  {
    if done then [Saved, CompletionPing, AskNextSet] else []
  }

  /** Prepending to a trace that splits in two prepends to its first part. */
  lemma Prepend(x: seq<Event>, head: seq<Event>, rest: seq<Event>, first: seq<Event>, later: seq<Event>, tail: seq<Event>)
    requires x == head + rest && rest == later + tail && first == head + later
    ensures x == first + tail
  {
    assert head + (later + tail) == (head + later) + tail;
  }

  /**
   * The events of `n` fires of a running timer: the due awareness pings in
   * order, then, if the countdown reached zero, the completion.
   */
  lemma {:induction false} RunTrace(t: Timer, n: nat, lo: int, hi: int)
    requires Ticking(t) && n <= t.remaining
    requires lo == t.target - t.remaining && hi == lo + n
    ensures Fires(t, n).events == DuePings(t.interval, lo, hi) + Completion(n == t.remaining)
    decreases n
  {
    if n > 0 {
      FiresStep(t, n);
      var head := NextPing(t);
      var first := DuePings(t.interval, lo, hi);
      assert first == head + DuePings(t.interval, lo + 1, hi);
      if t.remaining > 1 {
        var u := t.(remaining := t.remaining - 1);
        RunTrace(u, n - 1, lo + 1, hi);
        Prepend(Fires(t, n).events, head, Fires(u, n - 1).events,
                first, DuePings(t.interval, lo + 1, hi), Completion(n == t.remaining));
      } else {
        assert DuePings(t.interval, lo + 1, hi) == [];
        Prepend(Fires(t, n).events, head, Fires(Finished(t), 0).events + [Saved, CompletionPing, AskNextSet],
                first, [], Completion(n == t.remaining));
      }
    }
  }

  /**
   * What a run's output says, once its final state and its trace are known:
   * the state, and how often each event occurs in the trace.
   */
  ghost predicate RunOutcome(r: Output, t: Timer, n: nat)
  {
    && (n < t.remaining ==>
          && r.timer == t.(remaining := t.remaining - n)
          && multiset(r.events)[CompletionPing] == 0
          && multiset(r.events)[Saved] == 0
          && multiset(r.events)[AskNextSet] == 0)
    && (n == t.remaining ==>
          && r.timer == Finished(t)
          && multiset(r.events)[CompletionPing] == 1
          && multiset(r.events)[Saved] == 1
          && multiset(r.events)[AskNextSet] == 1)
    && multiset(r.events)[Ping] == PingCount(t.interval, t.target - t.remaining, t.target - t.remaining + n)
  }

  /** How often each event occurs in a trace of due pings followed by the completion, if any. */
  lemma TraceCounts(events: seq<Event>, interval: Option<int>, lo: int, hi: int, done: bool)
    requires 0 <= lo && events == DuePings(interval, lo, hi) + Completion(done)
    ensures multiset(events)[Ping] == PingCount(interval, lo, hi)
    ensures multiset(events)[Saved] == (if done then 1 else 0)
    ensures multiset(events)[CompletionPing] == (if done then 1 else 0)
    ensures multiset(events)[AskNextSet] == (if done then 1 else 0)
  {
    var pings, tail := DuePings(interval, lo, hi), Completion(done);
    CountConcat(pings, tail, Ping);
    CountConcat(pings, tail, Saved);
    CountConcat(pings, tail, CompletionPing);
    CountConcat(pings, tail, AskNextSet);
    DuePingsCount(interval, lo, hi, Ping);
    DuePingsCount(interval, lo, hi, Saved);
    DuePingsCount(interval, lo, hi, CompletionPing);
    DuePingsCount(interval, lo, hi, AskNextSet);
  }

  /** A run's output, once its final state and its trace are known. */
  lemma Outcome(r: Output, t: Timer, n: nat, lo: int)
    requires 0 <= lo == t.target - t.remaining && n <= t.remaining
    requires r.events == DuePings(t.interval, lo, lo + n) + Completion(n == t.remaining)
    requires n < t.remaining ==> r.timer == t.(remaining := t.remaining - n)
    requires n == t.remaining ==> r.timer == Finished(t)
    ensures RunOutcome(r, t, n)
  {
    TraceCounts(r.events, t.interval, lo, lo + n, n == t.remaining);
  }

  /**
   * A running set, fired `n` times: each fire takes exactly one second off;
   * until the countdown reaches zero nothing is saved or asked; the fire that
   * reaches zero completes the set exactly once. The pings played are the
   * positive multiples of the cadence the elapsed time passes.
   */
  lemma CountdownRun(t: Timer, n: nat)
    requires Ticking(t) && n <= t.remaining
    ensures RunOutcome(Fires(t, n), t, n)
  {
    var lo := t.target - t.remaining;
    RunState(t, n);
    RunTrace(t, n, lo, lo + n);
    Outcome(Fires(t, n), t, n, lo);
  }

  /** Firing `n` times is firing `a` times, then the remaining `n - a`, with the events in order. */
  lemma {:induction false} FiresSplit(t: Timer, a: nat, n: nat)
    requires a <= n
    ensures var first := Fires(t, a);
      var second := Fires(first.timer, n - a);
      Fires(t, n) == Output(second.timer, first.events + second.events)
    decreases a
  {
    if a > 0 {
      var step := Fire(t);
      FiresSplit(step.timer, a - 1, n - 1);
      var first := Fires(step.timer, a - 1);
      var second := Fires(first.timer, n - a);
      assert step.events + (first.events + second.events) == (step.events + first.events) + second.events;
    }
  }

  /** Nothing appended to a completed run changes what it says about the set. */
  lemma CompletedRun(r: Output, first: Output, t: Timer)
    requires 0 < t.remaining && RunOutcome(first, t, t.remaining)
    requires r.timer == first.timer && r.events == first.events + []
    ensures r.timer == Finished(t)
    ensures multiset(r.events)[CompletionPing] == 1
    ensures multiset(r.events)[Saved] == 1
    ensures multiset(r.events)[AskNextSet] == 1
    ensures multiset(r.events)[Ping] == PingCount(t.interval, t.target - t.remaining, t.target)
  {
    assert r.events == first.events;
  }

  /**
   * Firing past the end of a set: once the countdown has reached zero it
   * stays there, and the set is completed exactly once however long the
   * scheduler keeps firing.
   */
  lemma RunPastEnd(t: Timer, n: nat)
    requires Ticking(t) && n >= t.remaining
    ensures Fires(t, n).timer == Finished(t)
    ensures multiset(Fires(t, n).events)[CompletionPing] == 1
    ensures multiset(Fires(t, n).events)[Saved] == 1
    ensures multiset(Fires(t, n).events)[AskNextSet] == 1
    ensures multiset(Fires(t, n).events)[Ping] == PingCount(t.interval, t.target - t.remaining, t.target)
  {
    var m := t.remaining;
    var first := Fires(t, m);
    FiresSplit(t, m, n);
    CountdownRun(t, m);
    IdleFires(first.timer, n - m);
    CompletedRun(Fires(t, n), first, t);
  }

  /** Without a scheduled tick the scheduler changes nothing, however often it fires. */
  lemma {:induction false} IdleFires(t: Timer, n: nat)
    requires !t.pending
    ensures Fires(t, n) == Output(t, [])
    decreases n
  {
    if n > 0 {
      IdleFires(t, n - 1);
    }
  }

  /** After `pause`, no number of stray fires moves the countdown. */
  lemma PausedStaysPut(t: Timer, n: nat)
    ensures Fires(Pause(t), n) == Output(Pause(t), [])
  {
    IdleFires(Pause(t), n);
  }

  /**
   * A one-minute set from a full countdown: `start` counts the first second,
   * 59 more fires reach zero, the set count goes up by one and the
   * completion sound plays exactly once.
   */
  lemma OneMinuteSet(t: Timer)
    requires Valid(t) && !t.running && t.setMinutes == 1 && t.remaining == t.target
    ensures var s := Start(t);
      var r := Fires(s.timer, 59);
      && r.timer.remaining == 0 && !r.timer.running
      && r.timer.setsDone == t.setsDone + 1
      && multiset(s.events + r.events)[CompletionPing] == 1
  {
    var s := Start(t);
    CountdownRun(s.timer, 59);
  }

  /**
   * A two-minute set pinging every 30 seconds pings four times, at elapsed
   * 30, 60, 90 and 120 seconds; the last of these comes with the completion
   * sound, and the first second (elapsed 1) is silent.
   */
  lemma PingExample(t: Timer)
    requires Valid(t) && !t.running && t.setMinutes == 2 && t.remaining == t.target
    requires t.pingUnit == "Seconds" && t.pingValue == 30
    ensures var s := Start(t);
      var r := Fires(s.timer, 119);
      && s.events == []
      && multiset(r.events)[Ping] == 4
      && multiset(r.events)[CompletionPing] == 1
      && r.timer.remaining == 0
  {
    var s := Start(t);
    assert t.interval == Some(30);
    CountdownRun(s.timer, 119);
    MultiplesClosedForm(1, 120, 30);
  }

  /** When the cadence divides the set length, the tick that reaches zero plays both sounds. */
  lemma LastTickPingsTwice(t: Timer)
    requires Valid(t) && t.running && t.remaining == 1
    requires t.interval.Some? && t.target % t.interval.value == 0
    ensures Fire(t).events == [Ping, Saved, CompletionPing, AskNextSet]
  {
  }

  /** What the user and the scheduler can do to the timer. */
  datatype Action =
    | ToggleAction
    | ResetAction
    | FireAction
    | AnswerAction(yes: bool)
    | PlusAction
    | MinusAction
    | ResetSetsAction(confirmed: bool)
    | ApplyAction(minutesInput: Option<int>, pingInput: Option<int>, unitChoice: string)

  function Perform(t: Timer, a: Action): (r: Output)
    ensures Valid(t) ==> Valid(r.timer)
  {
    match a
    case ToggleAction => Toggle(t)
    case ResetAction => Output(Reset(t), [])
    case FireAction => Fire(t)
    case AnswerAction(yes) => AnswerNextSet(t, yes)
    case PlusAction => PlusSet(t)
    case MinusAction => MinusSet(t)
    case ResetSetsAction(confirmed) => ResetSets(t, confirmed)
    case ApplyAction(m, p, u) => ApplySettings(t, m, p, u)
  }

  /** A session: the actions in order, with all the events they produce. */
  function Session(t: Timer, actions: seq<Action>): Output
    decreases |actions|
  {
    if |actions| == 0 then Output(t, [])
    else
      var first := Perform(t, actions[0]);
      var rest := Session(first.timer, actions[1..]);
      Output(rest.timer, first.events + rest.events)
  }

  /**
   * Whatever the user and the scheduler do, a sane timer stays sane: the
   * countdown stays within [0, target], a tick is scheduled exactly while
   * running, and the set count never goes negative.
   */
  lemma {:induction false} SessionKeepsValid(t: Timer, actions: seq<Action>)
    requires Valid(t)
    ensures Valid(Session(t, actions).timer)
    decreases |actions|
  {
    if |actions| > 0 {
      SessionKeepsValid(Perform(t, actions[0]).timer, actions[1..]);
    }
  }

  /**
   * Applying the settings the timer already has, while it runs, only resets
   * it: the set starts over at its full length, paused.
   */
  lemma ApplyCurrentSettings(t: Timer)
    requires Valid(t) && t.pingValue >= 1 && t.pingUnit in Settings.Units
    ensures ApplySettings(t, Some(t.setMinutes), Some(t.pingValue), t.pingUnit) == Output(Reset(t), [Saved])
  {
  }

  /** Applying a ten-minute set mid-countdown pauses and refills to 600 seconds. */
  lemma ApplyTenMinutes(t: Timer, pingInput: Option<int>, unitChoice: string)
    requires Valid(t) && t.running
    ensures var r := ApplySettings(t, Some(10), pingInput, unitChoice).timer;
      r.target == 600 && r.remaining == 600 && !r.running && !r.pending
  {
  }

  /** `minus_set` undoes `plus_set`, and the reverse whenever the count is positive. */
  lemma PlusMinusInverse(t: Timer)
    requires t.setsDone >= 0
    ensures MinusSet(PlusSet(t).timer).timer == t
    ensures t.setsDone > 0 ==> PlusSet(MinusSet(t).timer).timer == t
  {
  }

  /** On "yes" a completed set starts over and counts its first second. */
  lemma NextSetStarts(t: Timer, n: nat)
    requires Valid(t) && t.running && n == t.remaining
    ensures var done := Fires(t, n).timer;
      var r := AnswerNextSet(done, true).timer;
      r.running && r.pending && r.remaining == r.target - 1 && r.setsDone == t.setsDone + 1
  {
    CountdownRun(t, n);
  }

  /**
   * A set length of zero or less, which only a hand-edited file can supply
   * since the loader does not clamp it: `start` completes the set at once,
   * without a ping, and every "yes" to the next-set question completes
   * another one, so answering "yes" never ends.
   */
  lemma ZeroLengthSet(t: Timer)
    requires t.target <= 0 && t.remaining <= 0 && !t.running
    ensures var s := Start(t);
      && s.timer.setsDone == t.setsDone + 1 && !s.timer.running
      && s.events == [Saved, CompletionPing, AskNextSet]
      && var again := AnswerNextSet(s.timer, true);
         again.timer.setsDone == t.setsDone + 2 && again.events == [Saved, CompletionPing, AskNextSet]
  {
  }
}
