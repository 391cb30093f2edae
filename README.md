# ChronoPulse countdown timer, modelled in Dafny

ChronoPulse is a single-page countdown timer. The user enters hours, minutes and
seconds, starts a countdown that ticks once a second, can pause, resume and reset it,
and hears a repeating three-tone alarm when it reaches zero. All of its logic lives in
`js/timer.js`, in two singleton objects: `Timer` (the countdown) and `AudioEngine`
(the alarm and its mute switch). This project models both objects and the `HH:MM:SS`
readout produced by `updateDisplay`, and proves properties of them.

Files (each module is named by its role):

- `options.dfy`, module `Options`: the `Option` type. It is used for a parsed input
  field (`None` stands for a field `parseInt` cannot read) and for an interval handle.
- `display.dfy`, module `Display`: the readout. `Format(n)` is the text
  `updateDisplay(n)` writes for a non-negative `n`. `ParseClock` reads such a text
  back, independently of `Format`. The lemmas show the readout's shape and that reading
  it back gives `n`.
- `alarm.dfy`, module `AlarmModel`: the alarm's state machine as values.
  `PlayAlarm`, `StopAlarm` and `ToggleMute` are its steps.
- `alarm.dfy`, module `AlarmEngine`: class `AudioEngine`. Its fields are updated in
  place, and every method is proved to perform its `AlarmModel` step.
- `timer.dfy`, module `TimerModel`: the countdown's state machine as values.
  `Start`, `Tick`, `Complete`, `Pause`, `Reset` and `DismissAlarm` are its steps.
  `Valid` is the invariant that every step except `Complete` keeps. `Complete` keeps it
  only once the count has reached zero, and that is the one case in which `Tick` calls it. Lemmas cover properties that span
  several steps: pause then resume, and a full countdown.
- `timer.dfy`, module `TimerEngine`: class `Timer`, whose field `audio` refers to
  the `AudioEngine`. Every method is proved to perform its `TimerModel` step, and
  `TwoSecondRun` is a client that uses only those contracts.

How the model represents the program's environment:

- The tick interval is represented by the flag `tickArmed`. `setInterval` arms it and
  `clearInterval` disarms it. A tick is an explicit call, and it requires a running
  timer, because only the armed interval fires it.
- For the alarm, the model records which alarm intervals the browser still has armed
  (`armed`) and a counter `issued`. Each alarm play gets a fresh positive handle,
  `issued + 1`, numbered here by alarm plays only. The browser's own counter is shared
  with the tick interval and the melody's timeouts, so its numbers differ but stay
  fresh and positive. Because handles are positive, the test `if (this.intervalId)`
  is exactly "a handle is stored".
- The inputs reach `Start` already parsed, with `None` counting as 0. A negative
  field is kept, because the code does not reject negative fields one by one.

Where the program's behaviour is surprising, the model follows the code:

- `playAlarm` is not idempotent. An unmuted second call arms another interval and
  overwrites the stored handle without clearing the old one. `stopAlarm` then clears
  only the newer interval (`PlayOverwritesHandle`).
- A muted `playAlarm` changes no state at all. There is no "sounding" flag; the alarm
  sounds exactly while an alarm interval is armed (`Sounding`).
- `tick` does not clamp the count at zero. The invariant shows that the count is
  exactly 0 when the countdown completes, so no clamp is needed.
- A start that is rejected (sum ≤ 0) still overwrites `totalSeconds` with that sum,
  even a negative one.
- `start` does not redraw the readout. Right after a start the readout still shows
  its previous text, and the first tick shows `T - 1`.
- Muting survives `reset` and `dismissAlarm`.

## Model

| member | source | states |
|---|---|---|
| Display.DecimalString | js/timer.js:191-193 | `k.toString()` for a non-negative integer: its decimal digits, most significant first, without leading zeros |
| Display.PadStart2 | js/timer.js:191-193 | `padStart(2, '0')`: prepend '0' until the text has two characters; a text of two or more is returned unchanged |
| Display.Field | js/timer.js:191-193 | one part of the readout: the part's decimal digits padded to at least two characters |
| Display.Format | js/timer.js:186-195 | the readout text of `updateDisplay(n)`: the fields of ⌊n/3600⌋, ⌊(n mod 3600)/60⌋ and n mod 60 joined by ':' |
| Display.DecimalStringRoundTrip | js/timer.js:191-193 | the decimal string of a part is a non-empty string of digits whose value is the part itself |
| Display.DecimalStringLength | js/timer.js:191-193 | a part has exactly one digit iff it is below 10, exactly three iff it is from 100 to 999, and three or more iff it is 100 or more |
| Display.NoLeadingZero | js/timer.js:191-193 | the digits of a number of 10 or more do not start with '0' |
| Display.PadStart2Keeps | js/timer.js:191-193 | `padStart(2, '0')` keeps the digits and their value, gives length max(2, original length), and never truncates |
| Display.FieldShape | js/timer.js:191-193 | a padded field reads back as its part, is at least two characters, is exactly two iff the part is below 100, exactly three iff it is from 100 to 999, and from 100 on is the unpadded digits |
| Display.SplitSeconds | js/timer.js:187-189 | minutes and seconds are below 60, and hours·3600 + minutes·60 + seconds recomposes the count |
| Display.FormatShape | js/timer.js:186-195 | the readout is hours, ':', two-digit minutes, ':', two-digit seconds; it has 8 characters iff the count is below 100 hours, and more otherwise |
| Display.ParseFormatRoundTrip | js/timer.js:186-195 | reading a readout back as H:MM:SS gives exactly the seconds it was made from |
| Display.FormatInjective | js/timer.js:186-195 | two different second counts never produce the same readout |
| Display.FormatFields | js/timer.js:187-195 | for m, s < 60 the readout of h·3600 + m·60 + s shows exactly the fields h, m and s |
| Display.FieldExamples | js/timer.js:191-193 | 0, 1, 59 and 100 are padded to "00", "01", "59" and "100" |
| Display.FormatExamples | js/timer.js:186-195 | 3661 → "01:01:01", 59 → "00:00:59", 0 → "00:00:00", 360000 → "100:00:00" |
| AlarmModel.Initial | js/timer.js:9-10 | the engine as the page creates it: not muted, with no stored handle and no armed alarm interval |
| AlarmModel.Sounding | js/timer.js:25-29 | the alarm is repeating: some alarm interval armed by `playAlarm` has not been cleared |
| AlarmModel.Valid | js/timer.js:10-53 | the engine's invariant: a stored handle belongs to an alarm interval that is still armed, and every armed handle has been issued |
| AlarmModel.PlayAlarm | js/timer.js:21-30 | muted: nothing changes; unmuted: a fresh handle is armed and stored (overwriting any old one) and the alarm is sounding; mute is untouched; the invariant is kept |
| AlarmModel.StopAlarm | js/timer.js:48-53 | the stored handle, if any, is cleared and no handle is stored afterwards; with none stored nothing changes; mute is never touched |
| AlarmModel.ToggleMute | js/timer.js:55-58 | mute is flipped and nothing else changes |
| AlarmModel.ToggleMuteTwice | js/timer.js:55-58 | toggling twice restores the original state |
| AlarmModel.StopAlarmIdempotent | js/timer.js:48-53 | stopping twice has the same effect as stopping once |
| AlarmModel.MutedPlayIsSilent | js/timer.js:21-23 | a muted play from silence arms no interval and stores no handle |
| AlarmModel.PlayThenStopSilences | js/timer.js:21-53 | one play from silence followed by a stop leaves no alarm interval armed |
| AlarmModel.PlayOverwritesHandle | js/timer.js:21-53 | a second unmuted play leaves the first interval armed after a stop |
| AlarmEngine.AudioEngine.constructor | js/timer.js:7-10 | the engine starts unmuted with no handle and no interval |
| AlarmEngine.AudioEngine.PlayAlarm | js/timer.js:21-30 | the fields change exactly as `AlarmModel.PlayAlarm` says |
| AlarmEngine.AudioEngine.StopAlarm | js/timer.js:48-53 | the fields change exactly as `AlarmModel.StopAlarm` says |
| AlarmEngine.AudioEngine.ToggleMute | js/timer.js:55-58 | the fields change as `AlarmModel.ToggleMute` says, and the new mute value is returned |
| TimerModel.Initial | js/timer.js:63-67 | the timer as the page sets it up: counts 0, not running, not paused, no tick interval, and the 00:00:00 readout that `init` writes at line 88 |
| TimerModel.Ticks | js/timer.js:130-141 | the state after k firings of the armed one-second tick interval, each one a `tick` |
| TimerModel.Valid | js/timer.js:127-154 | the timer's invariant: never running and paused at once; the tick interval is armed exactly while running; a started run has between 1 and `totalSeconds` seconds left, and otherwise none are left |
| TimerModel.FieldValue | js/timer.js:115-117 | `parseInt(field.value)`, falling back to 0, with the parse already done: a field without a number counts as 0, any other value (negative included) is kept |
| TimerModel.RequestedSeconds | js/timer.js:115-118 | the duration the three fields ask for, hours·3600 + minutes·60 + seconds, each field read as `FieldValue` |
| TimerModel.Start | js/timer.js:109-131 | no-op while running; from paused it resumes with count, total and readout unchanged; from idle with sum > 0 total = remaining = sum and it runs with the tick armed; with sum ≤ 0 only totalSeconds changes, to the sum; the invariant is kept |
| TimerModel.Tick | js/timer.js:133-141 | remaining drops by exactly 1 and stays ≥ 0; total is unchanged; the readout shows the new count; the timer keeps running iff more than one second was left; the alarm is played exactly when it stops; the invariant is kept |
| TimerModel.Complete | js/timer.js:163-169 | the tick is disarmed, the timer stops, the readout shows 00:00:00 and the alarm is played; counts and pause flag are unchanged; the invariant holds afterwards when the timer was running with the count at zero, the only way `tick` reaches it |
| TimerModel.Pause | js/timer.js:143-149 | no-op when not running; otherwise paused, tick disarmed, count, total and readout unchanged; the invariant is kept |
| TimerModel.Reset | js/timer.js:151-161 | from any state: the initial timer (both counts 0, not running, not paused, tick disarmed, 00:00:00); the alarm stopped, with no handle and mute kept |
| TimerModel.DismissAlarm | js/timer.js:180-184 | ends in exactly the state `reset` gives |
| TimerModel.PauseThenStart | js/timer.js:109-149 | pause then start returns exactly to the state at pause time, whatever the inputs hold |
| TimerModel.StartWhileRunning | js/timer.js:110 | start while running changes nothing, whatever the inputs hold |
| TimerModel.TicksCountDown | js/timer.js:133-169 | k ≤ R ticks from R seconds left: R − k left, total unchanged, running iff k < R, tick armed iff running, alarm played once iff k = R, readout shows R − k |
| TimerModel.StartThenCountdown | js/timer.js:109-169 | after a successful start with total T, the first T − 1 ticks keep it running and do not touch the alarm; the T-th reaches 0, disarms the tick, keeps T as the total, shows 00:00:00 and plays the alarm once |
| TimerModel.ResetSilencesSingleAlarm | js/timer.js:151-161 | after an alarm sounded once from silence, reset leaves no alarm interval armed |
| TimerEngine.Timer.constructor | js/timer.js:62-67 | the timer starts idle with zero counts, no tick armed, and the readout 00:00:00 that `init` writes |
| TimerEngine.Timer.Start | js/timer.js:109-131 | the fields and the branch taken are exactly `TimerModel.Start` |
| TimerEngine.Timer.Tick | js/timer.js:133-141 | the timer's and the alarm's fields change exactly as `TimerModel.Tick` says |
| TimerEngine.Timer.Pause | js/timer.js:143-149 | the fields change exactly as `TimerModel.Pause` says |
| TimerEngine.Timer.Reset | js/timer.js:151-161 | the timer's and the alarm's fields change exactly as `TimerModel.Reset` says |
| TimerEngine.Timer.Complete | js/timer.js:163-169 | the timer's and the alarm's fields change exactly as `TimerModel.Complete` says |
| TimerEngine.Timer.DismissAlarm | js/timer.js:180-184 | the timer's and the alarm's fields change exactly as `TimerModel.DismissAlarm` says |

## Left out

- DOM work is not modelled: element lookup, class toggling, button labels, `document.title`, `updateUIState`, `shakeInputs` and `bindEvents` (including the pause button's pause-or-start choice). All of this is presentation. `Timer.init` is not modelled either, apart from its `updateDisplay(0)`, which the `Timer` constructor performs. The `Rejected` start outcome stands for the `shakeInputs` cue, and the readout text is kept as the field `display`.
- Web Audio is not modelled: `AudioEngine.init`, `beep` and the three-tone `setTimeout` melody. These are browser audio calls with floating-point timing. Only the arming and clearing of the alarm interval is modelled.
- The model assumes `AudioEngine.init` returns normally. In a browser without `AudioContext` it throws. `start` then stops before changing any state, and `playAlarm` stops before arming anything, so no alarm would ever sound and the timer could never start.
- The Notification API and the permission request are not modelled. They are browser calls that do not affect the timer's state.
- `updateProgress` and the progress ring are not modelled. They compute with the floating-point circumference `2 * Math.PI * 120`.
- Wall-clock scheduling is not modelled. `setInterval` and `setTimeout` become an armed flag (for the tick) or a set of armed handles (for the alarm), and a tick is an explicit call.
- `parseInt` is not modelled. Each input arrives as an already-parsed optional integer.
- JavaScript numbers are doubles, and the model does not capture their loss of precision beyond 2^53. Counts are unbounded integers.
- Display.Format: readouts of negative counts are not modelled (JavaScript would print them as `-1:-1:-1`). The timer's invariant keeps the count non-negative whenever it is formatted.
