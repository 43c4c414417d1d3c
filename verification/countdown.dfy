/**
 * The countdown state machine of the timer window, identical in both
 * versions of the program. Every transition is a pure function from the
 * timer state to the next state plus the side effects it asks for, as
 * events. The one-second scheduler is the environment: it calls `Fire`,
 * which runs a tick only while one is pending. The modal "start next set?"
 * question is answered by a separate call to `AnswerNextSet`.
 */
module Countdown {
  import opened Wrappers
  import Settings

  /**
   * The fields of the timer window. `interval` and `target` are stored, not
   * derived, because a load that fails part-way can leave them out of step
   * with the settings. `pending` says whether a tick is scheduled (the
   * program's `after_id`).
   */
  datatype Timer = Timer(
    setMinutes: int,
    pingValue: int,
    pingUnit: string,
    volume: int,
    interval: Option<int>,
    target: int,
    remaining: int,
    running: bool,
    pending: bool,
    setsDone: int)

  /** Side effects a transition asks for, in the order the program performs them. */
  datatype Event =
    | Ping            // awareness sound
    | CompletionPing  // set-complete sound
    | Saved           // the persisted fields are written
    | AskNextSet      // the "start next set?" question is shown

  datatype Output = Output(timer: Timer, events: seq<Event>)

  /** The window's fields before the saved state is loaded. */
  function Initial(): (t: Timer)
    ensures Valid(t) && !t.running && !t.pending
    ensures t.setsDone == 0 && t.setMinutes == Settings.DefaultSetMinutes
    ensures t.pingValue == Settings.DefaultPingValue && t.pingUnit == Settings.DefaultPingUnit
    ensures t.volume == Settings.DefaultVolume
    ensures t.target == 1800 && t.remaining == t.target && t.interval == Some(300)
  {
    Timer(
      Settings.DefaultSetMinutes, Settings.DefaultPingValue, Settings.DefaultPingUnit,
      Settings.DefaultVolume,
      Settings.PingInterval(Settings.DefaultPingUnit, Settings.DefaultPingValue),
      Settings.DefaultSetMinutes * 60, Settings.DefaultSetMinutes * 60,
      false, false, 0)
  }

  /**
   * The invariant every reachable state keeps once the settings are sane:
   * the target matches the set length, the countdown stays within
   * [0, target], a tick is scheduled exactly while running, a running timer
   * has time left, the cadence matches the ping settings and the set count
   * is not negative.
   */
  ghost predicate Valid(t: Timer) {
    && t.setMinutes >= 1
    && t.target == t.setMinutes * 60
    && 0 <= t.remaining <= t.target
    && t.running == t.pending
    && (t.running ==> t.remaining > 0)
    && t.interval == Settings.PingInterval(t.pingUnit, t.pingValue)
    && t.setsDone >= 0
  }

  /** Everything but the countdown fields (`remaining`, `running`, `pending`) agrees. */
  ghost predicate SameSettings(a: Timer, b: Timer) {
    && a.setMinutes == b.setMinutes
    && a.pingValue == b.pingValue
    && a.pingUnit == b.pingUnit
    && a.volume == b.volume
    && a.interval == b.interval
    && a.target == b.target
    && a.setsDone == b.setsDone
  }

  /** Everything but the set count agrees. */
  ghost predicate SameCountdown(a: Timer, b: Timer) {
    a.(setsDone := 0) == b.(setsDone := 0)
  }

  /** Whether the tick that leaves `elapsed` seconds behind plays the awareness ping. */
  predicate PingDue(interval: Option<int>, elapsed: int) {
    interval.Some? && interval.value > 0 && elapsed > 0 && elapsed % interval.value == 0
  }

  /** `pause`: stop and cancel the scheduled tick. */
  function Pause(t: Timer): (r: Timer)
    ensures !r.running && !r.pending
    ensures SameSettings(r, t) && r.remaining == t.remaining
    ensures Valid(t) ==> Valid(r)
  {
    t.(running := false, pending := false)
  }

  /** `reset`: pause, then refill the countdown. */
  function Reset(t: Timer): (r: Timer)
    ensures !r.running && !r.pending && r.remaining == r.target
    ensures SameSettings(r, t)
    ensures Valid(t) ==> Valid(r)
  {
    Pause(t).(remaining := t.target)
  }

  /**
   * `_on_complete` up to the question: pause, count the set, hold the
   * display at zero, save, play the completion sound and ask.
   */
  function Complete(t: Timer): (r: Output)
    ensures !r.timer.running && !r.timer.pending && r.timer.remaining == 0
    ensures r.timer.setsDone == t.setsDone + 1
    ensures r.timer.(setsDone := t.setsDone) == Pause(t).(remaining := 0)
    ensures r.events == [Saved, CompletionPing, AskNextSet]
  {
    var p := Pause(t);
    Output(p.(setsDone := p.setsDone + 1, remaining := 0), [Saved, CompletionPing, AskNextSet])
  }

  /**
   * `_tick`: nothing unless running; otherwise count down one second (never
   * below zero), ping when the elapsed time is a positive multiple of the
   * cadence, and either complete the set or schedule the next tick.
   */
  function Tick(t: Timer): (r: Output)
    ensures !t.running ==> r == Output(t, [])
    ensures t.running && t.remaining > 1 ==>
      && r.timer == t.(remaining := t.remaining - 1, pending := true)
      && r.events == (if PingDue(t.interval, t.target - (t.remaining - 1)) then [Ping] else [])
    ensures t.running && t.remaining <= 1 ==>
      && !r.timer.running && !r.timer.pending && r.timer.remaining == 0
      && r.timer.setsDone == t.setsDone + 1
      && SameSettings(r.timer.(setsDone := t.setsDone), t)
      && var left := if t.remaining > 0 then t.remaining - 1 else t.remaining;
         r.events == (if PingDue(t.interval, t.target - left) then [Ping] else [])
                     + [Saved, CompletionPing, AskNextSet]
  {
    if !t.running then Output(t, [])
    else
      var left := if t.remaining > 0 then t.remaining - 1 else t.remaining;
      var pings := if PingDue(t.interval, t.target - left) then [Ping] else [];
      if left <= 0 then
        var done := Complete(t.(remaining := 0));
        Output(done.timer, pings + done.events)
      else
        Output(t.(remaining := left, pending := true), pings)
  }

  /** The scheduler's one-second callback: runs a tick only if one is pending. */
  function Fire(t: Timer): (r: Output)
    ensures !t.pending ==> r == Output(t, [])
    ensures Valid(t) ==> Valid(r.timer)
    ensures t.pending && t.running && t.remaining > 1 ==>
      r == Output(t.(remaining := t.remaining - 1),
                  if PingDue(t.interval, t.target - t.remaining + 1) then [Ping] else [])
    ensures t.pending && t.running && t.remaining == 1 ==>
      r == Output(t.(remaining := 0, running := false, pending := false, setsDone := t.setsDone + 1),
                  (if PingDue(t.interval, t.target) then [Ping] else []) + [Saved, CompletionPing, AskNextSet])
    ensures Valid(t) && t.running ==>
      && r.timer.remaining == t.remaining - 1
      && (Ping in r.events <==> PingDue(t.interval, t.target - r.timer.remaining))
      && (CompletionPing in r.events <==> r.timer.remaining == 0)
      && (r.timer.remaining == 0 ==> r.timer.setsDone == t.setsDone + 1 && !r.timer.running)
  {
    if !t.pending then Output(t, []) else Tick(t.(pending := false))
  }

  /**
   * `start`: an exhausted countdown is refilled first; an already running
   * timer is left at that; otherwise the timer runs and ticks at once, so
   * the first second is counted immediately.
   */
  function Start(t: Timer): (r: Output)
    ensures t.running ==>
      r.events == [] && r.timer == t.(remaining := if t.remaining <= 0 then t.target else t.remaining)
    ensures !t.running && t.remaining > 1 ==>
      && r.timer == t.(remaining := t.remaining - 1, running := true, pending := true)
      && r.events == (if PingDue(t.interval, t.target - (t.remaining - 1)) then [Ping] else [])
    ensures !t.running && t.remaining == 1 ==>
      && !r.timer.running && !r.timer.pending && r.timer.remaining == 0
      && r.timer.setsDone == t.setsDone + 1
      && SameSettings(r.timer.(setsDone := t.setsDone), t)
      && r.events == (if PingDue(t.interval, t.target) then [Ping] else []) + [Saved, CompletionPing, AskNextSet]
    ensures !t.running && t.remaining <= 0 && t.target > 1 ==>
      && r.timer == t.(remaining := t.target - 1, running := true, pending := true)
      && r.events == (if PingDue(t.interval, 1) then [Ping] else [])
    ensures !t.running && t.remaining <= 0 && t.target <= 1 ==>
      && !r.timer.running && !r.timer.pending && r.timer.remaining == 0
      && r.timer.setsDone == t.setsDone + 1
      && SameSettings(r.timer.(setsDone := t.setsDone), t)
      && r.events == (if t.target == 1 && PingDue(t.interval, 1) then [Ping] else []) + [Saved, CompletionPing, AskNextSet]
    ensures Valid(t) ==> Valid(r.timer)
    ensures Valid(t) && !t.running ==> r.timer.remaining < (if t.remaining <= 0 then t.target else t.remaining)
  {
    var refilled := if t.remaining <= 0 then t.(remaining := t.target) else t;
    if refilled.running then Output(refilled, [])
    else Tick(refilled.(running := true))
  }

  /** `toggle`: the start/pause button and the space bar. */
  function Toggle(t: Timer): (r: Output)
    ensures t.running ==> r == Output(Pause(t), [])
    ensures !t.running ==> r == Start(t)
    ensures Valid(t) ==> Valid(r.timer)
  {
    if t.running then Output(Pause(t), []) else Start(t)
  }

  /**
   * The tail of `_on_complete`: on "yes" the countdown is refilled and
   * `start` runs again; on "no" the completed state stays as it is.
   */
  function AnswerNextSet(t: Timer, yes: bool): (r: Output)
    ensures !yes ==> r == Output(t, [])
    ensures yes && !t.running && t.target > 1 ==>
      && r.timer == t.(remaining := t.target - 1, running := true, pending := true)
      && r.events == (if PingDue(t.interval, 1) then [Ping] else [])
    ensures yes && !t.running && t.target <= 1 ==>
      && !r.timer.running && !r.timer.pending && r.timer.remaining == 0
      && r.timer.setsDone == t.setsDone + 1
      && SameSettings(r.timer.(setsDone := t.setsDone), t)
      && r.events == (if t.target == 1 && PingDue(t.interval, 1) then [Ping] else []) + [Saved, CompletionPing, AskNextSet]
    ensures Valid(t) ==> Valid(r.timer)
  {
    if yes then Start(t.(remaining := t.target)) else Output(t, [])
  }

  /** `plus_set`: one more completed set, saved. */
  function PlusSet(t: Timer): (r: Output)
    ensures r.timer.setsDone == t.setsDone + 1 && SameCountdown(r.timer, t)
    ensures r.events == [Saved]
    ensures Valid(t) ==> Valid(r.timer)
  {
    Output(t.(setsDone := t.setsDone + 1), [Saved])
  }

  /** `minus_set`: one fewer completed set, but never below zero; saved only on a change. */
  function MinusSet(t: Timer): (r: Output)
    ensures t.setsDone > 0 ==> r.timer.setsDone == t.setsDone - 1 && r.events == [Saved]
    ensures t.setsDone <= 0 ==> r == Output(t, [])
    ensures SameCountdown(r.timer, t)
    ensures t.setsDone >= 0 ==> r.timer.setsDone >= 0
    ensures Valid(t) ==> Valid(r.timer)
  {
    if t.setsDone > 0 then Output(t.(setsDone := t.setsDone - 1), [Saved]) else Output(t, [])
  }

  /** `reset_sets_to_zero`: clears the count and saves, only when the user confirms. */
  function ResetSets(t: Timer, confirmed: bool): (r: Output)
    ensures confirmed ==> r.timer.setsDone == 0 && SameCountdown(r.timer, t) && r.events == [Saved]
    ensures !confirmed ==> r == Output(t, [])
    ensures Valid(t) ==> Valid(r.timer)
  {
    if confirmed then Output(t.(setsDone := 0), [Saved]) else Output(t, [])
  }

  /**
   * `apply_settings`: `minutesInput` and `pingInput` are `int()` of the two
   * number fields (`None` when unparsable), `unitChoice` the unit box. The
   * new settings take effect, the cadence and target are recomputed, the
   * timer is reset to the new length and the settings are saved.
   */
  function ApplySettings(t: Timer, minutesInput: Option<int>, pingInput: Option<int>, unitChoice: string): (r: Output)
    ensures r.timer.setMinutes == Settings.ReadNumber(minutesInput, t.setMinutes)
    ensures r.timer.pingValue == Settings.ReadNumber(pingInput, t.pingValue)
    ensures r.timer.pingUnit == Settings.NormaliseUnit(unitChoice)
    ensures r.timer.interval == Settings.PingInterval(r.timer.pingUnit, r.timer.pingValue)
    ensures r.timer.target == r.timer.setMinutes * 60
    ensures !r.timer.running && !r.timer.pending && r.timer.remaining == r.timer.target
    ensures r.timer.setsDone == t.setsDone && r.timer.volume == t.volume
    ensures r.events == [Saved]
    ensures minutesInput.Some? || t.setMinutes >= 1 ==> r.timer.setMinutes >= 1
    ensures Valid(t) ==> Valid(r.timer)
  {
    var minutes := Settings.ReadNumber(minutesInput, t.setMinutes);
    var ping := Settings.ReadNumber(pingInput, t.pingValue);
    var unit := Settings.NormaliseUnit(unitChoice);
    var configured := t.(setMinutes := minutes, pingValue := ping, pingUnit := unit,
                         interval := Settings.PingInterval(unit, ping), target := minutes * 60);
    Output(Reset(configured), [Saved])
  }
}
