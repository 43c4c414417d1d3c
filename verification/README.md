# Thirty Timer: countdown state machine and preferences

The Thirty Timer is a small desktop countdown for repeating work intervals
("sets"). It counts down the set length once a second. It plays an
awareness ping at a configured cadence and a completion sound when a set
ends. It counts completed sets and keeps its settings in a JSON preference
file. The program exists in two near-identical versions: `thirty_timer.py`,
and `thirty_timer_v2.py`, which adds a volume setting.

This project models the logic of both versions as pure functions over an
immutable timer record. Each transition returns the next state and the side
effects it asks for, as events: `Ping`, `CompletionPing`, `Saved` and
`AskNextSet`.

- `wrappers.dfy`, module `Wrappers`: `Option`, standing in for Python's `None`.
- `clock.dfy`, module `Clock`: the `HH:MM:SS` rendering `fmt`, and a reader
  of that rendering that acts as its inverse.
- `settings.dfy`, module `Settings`: the defaults, the ping cadence
  (`_calc_ping_interval_seconds`) and how `apply_settings` normalises input.
- `countdown.dfy`, module `Countdown`: the timer record and the operations
  `toggle`, `start`, `pause`, `reset`, `_tick`, `_on_complete`, `plus_set`,
  `minus_set`, `reset_sets_to_zero` and `apply_settings`. It also holds the
  invariant `Valid`. The countdown code of the two versions is the same, so
  it is modelled once.
- `store.dfy`, module `Store`: the preference file as a record of optional
  fields, with `_load_state` and `_save_state` for each version. Both
  versions use the same file. The first writes four keys and ignores
  `volume`. The second writes and reads all five.
- `runs.dfy`, module `Runs`: whole sets, meaning the scheduler firing
  repeatedly and the pings counted over a set. Also whole sessions of user
  actions, over which `Valid` is preserved.

The environment is modelled like this:

- The one-second scheduler (`after`/`after_cancel`) is the caller of
  `Countdown.Fire`. The field `pending` stands for `after_id`: a tick is
  scheduled. `Fire` runs `_tick` only while a tick is pending.
- `start` calls `_tick` synchronously, so the first second is counted at
  once. The model keeps this.
- `_on_complete` asks its question in a modal dialog. When the question
  appears, the timer is paused and no tick is pending. The model splits it
  in two: the completing tick ends with `AskNextSet`, and the answer is a
  separate call, `AnswerNextSet(t, yes)`. Each answer is one step, so the
  program's `start` → `_tick` → `_on_complete` → `start` recursion becomes a
  sequence of steps. That chain runs once whenever a paused timer is started
  with one second left, or a set completes on the first tick, and the answer
  is "yes". It repeats without bound only when the set length is 0 or
  negative.
- The yes/no answers and the text of the settings fields are inputs. A
  number field arrives as the result of `int()` on its text, and `None`
  means `int()` raised.
- JSON values in the preference file are `Store.Field` values: `Missing`,
  `Present(v)` when the conversion succeeds, or `Unreadable` when `int()` or
  `float()` raises. A file that is absent is `NoFile`. One that is not a
  JSON object is `Corrupt`.

Some behaviours of the code are worth stating plainly, because they are
easy to get wrong:

- The tick that reaches zero also pings when the cadence divides the
  elapsed time, so it plays the awareness ping and then the completion
  sound. A two-minute set with a 30 s cadence pings four times, at 30, 60,
  90 and 120 s. See `Runs.PingExample` and `Runs.LastTickPingsTwice`.
- A load assigns the fields one at a time. A conversion that raises
  part-way keeps the fields already assigned, the other fields keep their
  previous values, and target, cadence and countdown are not recomputed.
  See `Store.LoadSettings`, `Store.UnreadableCount`,
  `Store.UnreadableMinutes`, `Store.UnreadablePingValue` and
  `Store.UnreadableVolumeV2`.
- The first version's failure handler `self.sets_done = self.sets_done or 0`
  is the identity on integers. So both versions fail the same way.
- The loader does not clamp `set_minutes`, `ping_value` or `sets_done`. So
  `Countdown.Valid` holds only once the settings are sane. A ping value
  below 1 still gives a cadence of 1 s or 60 s, and `Runs.ZeroLengthSet`
  shows what a set length of 0 or less does.

## Model

| member | source | states |
|---|---|---|
| Clock.Fmt | thirty_timer_v2.py:24-28 | A negative count renders as `00:00:00`. The result always has ':' at the two separator positions and at least 8 characters, exactly 8 below 100 hours. The hour field starts with '0' exactly when the count is below 10 hours, so there is never an extra leading zero |
| Clock.Pad2 | thirty_timer_v2.py:28 | The `02d` field: only digits, at least two, exactly two for values below 100, and the digits denote the value. A leading '0' appears exactly for values below 10 |
| Clock.FmtRoundTrip | thirty_timer.py:18-22 | Reading the rendering back gives the clamped count. Minutes and seconds are two digits below 60, and h·3600 + m·60 + s equals the count |
| Clock.ValueOfDecimal | thirty_timer.py:22 | The digits an integer is printed with denote that integer |
| Settings.PingInterval | thirty_timer_v2.py:293-297 | The cadence exists exactly for "Seconds" and "Minutes", and is at least 1. For a value v ≥ 1 it is v or v·60. For a value below 1 it is exactly 1 or 60. For "Off" and unknown units there is none |
| Settings.MinutesAreSixtySeconds | thirty_timer_v2.py:293-297 | For the same value, the "Minutes" cadence is 60 times the "Seconds" cadence, and "Off" has none |
| Settings.ReadNumber | thirty_timer_v2.py:300-304 | A parsed number below 1 becomes exactly 1, and one that is ≥ 1 is kept. An unparsable field keeps the previous setting |
| Settings.NormaliseUnit | thirty_timer_v2.py:306-308 | The result is always one of Off, Seconds and Minutes. A known unit is kept, and an empty or unknown one becomes Off |
| Countdown.Initial | thirty_timer_v2.py:44-55 | The state before loading holds every default: count 0, length 30, ping 5 "Minutes", volume 50. It is sane and idle, with a 1800 s target, a full countdown and a 300 s cadence |
| Countdown.Pause | thirty_timer_v2.py:224-229 | Not running and no tick pending. Countdown, settings and count are unchanged. Preserves `Valid` |
| Countdown.Reset | thirty_timer.py:164-167 | From any state: not running, no tick pending, remaining = target, settings and count unchanged |
| Countdown.Tick | thirty_timer_v2.py:236-256 | Not running: nothing changes. Running with more than 1 s left: exactly one second comes off and the next tick is scheduled. At 1 s or less: completion at 0. A ping is emitted iff the cadence is set and the new elapsed time is a positive multiple of it |
| Countdown.Complete | thirty_timer_v2.py:258-265 | Paused, count +1, remaining 0, then save, completion sound and the question, in that order. Nothing else changes |
| Countdown.AnswerNextSet | thirty_timer_v2.py:267-269 | "No" leaves the completed state as it is. "Yes" refills and starts. With a target above 1 s the timer runs at target − 1 and pings iff a 1 s elapsed time is due. With a target of 1 s or less the set completes again at once: count +1, settings unchanged, and the completion events. Preserves `Valid` |
| Countdown.Fire | thirty_timer.py:169-190 | With nothing pending, nothing happens. A running timer above 1 s loses exactly one second, keeps everything else and emits only the due ping. At 1 s it reaches 0, pauses, counts the set with settings unchanged, and emits the due ping, then save, completion sound and question. Preserves `Valid` |
| Countdown.Start | thirty_timer_v2.py:213-222 | An exhausted countdown is refilled first. If already running, nothing more happens. Otherwise the timer runs and ticks at once: above 1 s it drops one second with the due ping. From 1 s, or with a target of 1 s or less, it completes the set at once: count +1, settings unchanged, the due ping, then save, completion sound and question. An exhausted countdown with a target above 1 s restarts at target − 1. Preserves `Valid` |
| Countdown.Toggle | thirty_timer_v2.py:207-211 | Running: pause, with no events. Not running: `start`. Preserves `Valid` |
| Countdown.PlusSet | thirty_timer_v2.py:275-278 | The count goes up by exactly 1 with exactly one save, and nothing else changes |
| Countdown.MinusSet | thirty_timer_v2.py:280-284 | A positive count goes down by 1 with one save. At 0 (or below) nothing changes and nothing is saved. Never produces a negative count from a non-negative one |
| Countdown.ResetSets | thirty_timer_v2.py:286-290 | When confirmed: count 0 and one save. Otherwise nothing changes and nothing is saved |
| Countdown.ApplySettings | thirty_timer_v2.py:299-317 | New length, ping value and unit come from the normalisers. Cadence and target = length·60 are recomputed. Paused with a full countdown, count and volume kept, one save. Length ≥ 1 whenever the input parses or the old length was ≥ 1 |
| Store.Read | thirty_timer_v2.py:324-328 | A missing key gives the default, a convertible value gives itself, and an unconvertible one stops the load |
| Store.LoadSettings | thirty_timer_v2.py:324-327 | The four shared keys are assigned in order. An unreadable count changes nothing. An unreadable set length keeps only the count from the file. An unreadable ping value keeps count and set length from the file. Only those four fields can change |
| Store.Recompute | thirty_timer_v2.py:329-331 | Target = length·60, the cadence follows the ping settings, and the countdown is full. Nothing else changes |
| Store.LoadV1 | thirty_timer.py:259-271 | No file or a non-object: no change. A full load: the file's values or defaults, then target, cadence and a full countdown. A failed conversion: exactly the fields assigned before it change, and target, cadence and countdown are untouched. Running state and volume are never touched |
| Store.LoadV2 | thirty_timer_v2.py:320-333 | The same, plus the volume. An unreadable volume keeps the four settings from the file and leaves target, cadence, countdown and volume untouched |
| Store.SaveV1 | thirty_timer.py:273-284 | The first version writes all four shared keys, whatever their values, and no volume. Loading the result in the first version gives back count, length, ping value and unit, and keeps the loader's volume |
| Store.SaveV2 | thirty_timer_v2.py:335-347 | The second version writes all four shared keys and the volume, whatever their values. Loading the result in the second version gives back all five |
| Store.SaveLoadV2 | thirty_timer_v2.py:335-347 | Save then load reproduces all five persisted fields, recomputes target and countdown, and keeps the loader's running state |
| Store.SaveLoadV1 | thirty_timer.py:273-284 | Save then load reproduces the four persisted fields. The volume is neither written nor read |
| Store.RestartV2 | thirty_timer_v2.py:44-69 | Saving a sane state and loading it into a fresh window gives a sane, idle timer with a full countdown and the same settings and count |
| Store.LoadDefaultsV2 | thirty_timer_v2.py:320-331 | A file with no keys gives exactly 0 / 30 / 5 / "Minutes" / 50, target 1800 and cadence 300 |
| Store.LoadDefaultsV1 | thirty_timer.py:259-269 | A file with no keys gives exactly 0 / 30 / 5 / "Minutes", target 1800 and cadence 300 |
| Store.LoadNothing | thirty_timer.py:261-262 | No file, or a file that is not a JSON object, changes nothing in either version |
| Store.UnreadableVolumeV2 | thirty_timer_v2.py:324-333 | An unconvertible volume keeps the four settings from the file but leaves target, countdown, cadence and volume stale |
| Store.UnreadableMinutes | thirty_timer.py:263-271 | An unconvertible set length keeps only the count from the file |
| Store.UnreadableCount | thirty_timer.py:263-271 | An unconvertible count stops either load before anything is assigned: nothing changes |
| Store.UnreadablePingValue | thirty_timer_v2.py:324-333 | An unconvertible ping value keeps count and set length from the file. Ping unit, target, cadence and countdown keep their previous values |
| Store.CrossVersion | thirty_timer.py:276-281 | A first-version file loaded by the second version gets the default volume. A second-version file loaded by the first keeps the settings and ignores the volume |
| Runs.MultiplesClosedForm | thirty_timer_v2.py:247-248 | Counting the seconds in (lo, hi] where elapsed mod i = 0 gives hi / i − lo / i |
| Runs.RunTrace | thirty_timer_v2.py:236-256 | The events of n fires of a running timer are, in order, the awareness pings of the seconds it counts down (one per elapsed time that is a positive multiple of the cadence), then the completion events if and only if the countdown reached 0 |
| Runs.DuePingsCount | thirty_timer_v2.py:247-248 | Such a ping trace holds only pings, exactly as many as there are multiples of the cadence in the elapsed span |
| Runs.CountdownRun | thirty_timer_v2.py:236-269 | Firing a running timer (tick pending, 0 < remaining ≤ target) n ≤ remaining times takes exactly n seconds off. Before zero nothing is saved or asked. The fire that reaches 0 completes exactly once (one save, one completion sound, one question). The pings are the positive multiples of the cadence that the elapsed time passes |
| Runs.FiresSplit | thirty_timer.py:169-190 | The scheduler's fires compose: n fires are a fires followed by n − a more, with the events in order |
| Runs.RunPastEnd | thirty_timer_v2.py:236-265 | Firing a running timer at least `remaining` times ends in the completed state, which then stays put. The set is completed exactly once (one save, one completion sound, one question), and the pings are those of the whole rest of the set |
| Runs.IdleFires | thirty_timer.py:169-171 | With no tick pending, any number of fires changes nothing |
| Runs.PausedStaysPut | thirty_timer.py:157-162 | After `pause`, no number of scheduler fires moves the countdown |
| Runs.OneMinuteSet | thirty_timer.py:145-204 | A one-minute set reaches 0 after `start` and 59 fires. The count goes up by 1 and the completion sound plays exactly once |
| Runs.PingExample | thirty_timer.py:178-182 | Target 120 s with a 30 s cadence gives exactly 4 pings over the set (one per positive multiple of 30 up to 120), and none on the first second |
| Runs.LastTickPingsTwice | thirty_timer_v2.py:245-254 | When the cadence divides the target, the tick reaching 0 emits the ping and then the completion events |
| Runs.Perform | thirty_timer_v2.py:207-317 | Every user action and every scheduler fire preserves `Valid` |
| Runs.SessionKeepsValid | thirty_timer.py:141-256 | Any sequence of actions keeps 0 ≤ remaining ≤ target, a tick pending exactly while running, and a non-negative count |
| Runs.ApplyCurrentSettings | thirty_timer.py:234-256 | Applying the settings a sane timer already has is exactly `reset` plus one save |
| Runs.ApplyTenMinutes | thirty_timer.py:249-256 | Applying a 10-minute length mid-countdown pauses and refills to 600 s |
| Runs.PlusMinusInverse | thirty_timer.py:210-219 | `minus_set` undoes `plus_set`, and `plus_set` undoes `minus_set` on a positive count |
| Runs.NextSetStarts | thirty_timer.py:193-204 | After a set completes, "yes" restarts at target − 1 with the count one higher |
| Runs.ZeroLengthSet | thirty_timer_v2.py:213-222 | With a length of 0 or less, `start` completes a set at once without a ping, and each "yes" completes another |

## Left out

- Window construction, layout, styling, drag-to-move, the settings-control
  refresh, the label text (`_count_text`, `_update_display`) and the
  resize font scaling. These are presentation only.
- Sound playback (`_beep_ok`, `_beep_exclaim`, `winsound`, `pygame`). These
  are foreign calls, modelled only as the `Ping` and `CompletionPing`
  events. Their volume scaling is left out too.
- `_on_volume_change`: the slider produces floating-point volumes. Volume is
  an integer here, carried through save and load only.
- File I/O, `mkdir`, JSON text and the swallowed write errors. A `Saved`
  event means the persisted fields of the resulting state are written. A
  failed write, which leaves the file as it was, is the environment's
  business. JSON conversions are abstracted as `Store.Field`, so Python's
  exact `int()`/`float()` parsing rules (signs, whitespace, underscores,
  truncation of floats) are not modelled.
- The save in `destroy` on window close, the DPI setup and the `__main__`
  entry point. These are window lifecycle.
- The scheduler's timing (one real second) and `after_cancel`. Only whether
  a tick is pending is modelled.
- Countdown.AnswerNextSet: the answer is a separate step rather than a call
  nested inside the completing tick. This is equivalent because the dialog
  is modal and nothing is pending while it is shown.
