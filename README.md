# Blow-to-turn-off alarm screens: a Dafny model

The repository holds three React Native screens of an alarm that the user
turns off by blowing into the microphone. This project models the state
logic inside their timer and button callbacks, with the audio platform
reduced to inputs:

- `BlowGame` (example.js): the blow game. A loudness loop raises `progress`
  by 10 for every sample strictly above 5000, capped at 100, and the call
  that reaches 100 stops listening. A countdown adds 20 to `timeProgress`
  per tick and, once at 100, clears itself and stops listening. Stopping
  saves the recording's URI to a list. The screen is the class
  `BlowGameScreen`; the two `setInterval` callbacks are `AnalyzeTick` and
  `TimerTick`. The loop and countdown intervals are counters, because a
  restart after the blow loop completed can stack a second countdown on
  one still running.
- `MicMonitor` (code/original2withmusicMic.js): the turn-off screen with
  background music. The polling tick moves progress to
  `min(p + 0.1, 1)` on a metering reading strictly above -30 dB, and to
  `max(p - 0.05, 0)` on any other reading. Reaching 1 turns the alarm off,
  stops polling and stops the audio as `StopAllAudio` does. Progress is an exact integer
  count of twentieths: 1 is 20, 0.1 is 2 and 0.05 is 1. The screen is the
  class `TurnOffScreen`, whose invariant keeps progress in range and keeps
  polling off once the alarm is off.
- `Duration` and `Recorder` (ex.js): the recorder screen. `Duration` has
  `getDurationFormatted` as written, which the list shows, and the "m:ss"
  label it evidently means (see Findings). `Recorder` has the numbered rows and the class
  `RecorderScreen`. That class holds the current recording and the list:
  start is gated on the `'granted'` permission, stop appends one line, and
  clear empties the list.
- `Options`: the `Option` type for JavaScript's `null`/`undefined`.

Ticks are sequential method calls on the current state. Platform results
are parameters: what an `await` produced, or that it threw, for the awaits
whose outcome changes the screen's state (the exceptions are listed under
Left out). These include the permission status, the recorder, the fetched
file size, the metering status, the loaded sound and whether unloading a
recorder or stopping the music succeeded.

## Model

| member | source | states |
|---|---|---|
| `BlowGame.Increased` | example.js:111-114 | progress never decreases; it stays at or below 100 when it starts there; it rises by exactly 10 while there is room and clamps to 100 otherwise; at or above 100 nothing changes |
| `BlowGame.AfterSample` | example.js:86-88 | one loudness sample never lowers progress; it changes progress only when the size is strictly above 5000, and below 100 it raises progress exactly then |
| `BlowGame.TriggersStop` | example.js:111-123 | the call that stops listening is exactly the one that starts below 100 and lands on 100 |
| `BlowGame.ProgressAfter` | example.js:86-88 | over any run of loudness samples, progress never decreases (there is no decay branch) and, from a start at or below 100, never exceeds 100 |
| `BlowGame.LoudRun` | example.js:111-114 | from any progress in [0, 100], k samples above the threshold give min(p + 10k, 100) |
| `BlowGame.TenthLoudSampleStops` | example.js:112-123 | from 0, a run of loud samples reads 10·i after i samples; exactly the 10th triggers the stop, and it sets progress to 100 |
| `BlowGame.QuietRunKeepsProgress` | example.js:86-88 | samples at or below 5000 (the threshold is strict) never change progress |
| `BlowGame.TimerNext` | example.js:94-106 | below 100 the tick adds 20 and goes on; at or above 100 it answers 100 and stops; a multiple of 20 in [0, 100] stays one |
| `BlowGame.CountdownFromZero` | example.js:92-108 | from 0 the countdown reads 20·i after i ticks, and the stop fires on the 6th tick and on no earlier one |
| `BlowGame.CountdownStaysInRange` | example.js:94-106 | any number of ticks keeps `timeProgress` a multiple of 20 in [0, 100] |
| `BlowGame.Saved` | example.js:129-133 | with a truthy URI (present and not empty) the list gains exactly one `{uri}` at the end and keeps every earlier entry in order; with a missing or empty URI it is unchanged |
| `BlowGame.SavedOnStop` | example.js:62-67 | the earlier entries are kept in order; the list grows by exactly one entry, the recorder's URI, when a recorder with a truthy URI existed and unloading it succeeded, and is unchanged otherwise |
| `BlowGame.BlowGameScreen.constructor` | example.js:6-12 | not listening, both progress values 0, no recordings, no recorder, no interval running |
| `BlowGame.BlowGameScreen.StartListening` | example.js:28-58 | listening is set and both progress values reset to 0 whatever the outcome; the recorder handle is set once created; both loops start only when recording started |
| `BlowGame.BlowGameScreen.SaveRecording` | example.js:129-133 | the list becomes `Saved(old list, uri)` and nothing else changes |
| `BlowGame.BlowGameScreen.StopListening` | example.js:60-69 | listening is cleared; when unloading the recorder succeeds its URI is saved as `SavedOnStop` says and the handle is cleared; when unloading throws nothing is saved and the handle stays set; progress values and loops unchanged |
| `BlowGame.BlowGameScreen.IncreaseProgress` | example.js:111-127 | at or above 100 nothing changes; otherwise progress becomes `Increased(p)` and the progress invariant is kept; exactly the call that reaches 100 stops listening and saves as `StopListening` does, including when unloading throws |
| `BlowGame.BlowGameScreen.AnalyzeTick` | example.js:71-90 | a tick while not listening ends its loop; a tick with no recorder, a missing or empty URI, or a size not above 5000 changes nothing else; otherwise it has the effects of `IncreaseProgress`; the progress invariant is kept |
| `BlowGame.BlowGameScreen.TimerTick` | example.js:92-109 | `timeProgress` becomes `TimerNext(prev)`; the tick at 100 ends its interval and stops listening as `StopListening` does; `timeProgress` stays a multiple of 20 in [0, 100] |
| `MicMonitor.Raised` | code/original2withmusicMic.js:105 | the result is at most 1 and at most p + 0.1, is one of the two, and stays in [0, 1] from [0, 1] |
| `MicMonitor.Decayed` | code/original2withmusicMic.js:114 | the result is never negative, is p - 0.05 or 0, never rises from [0, 1], and stays 0 at 0 |
| `MicMonitor.NextProgress` | code/original2withmusicMic.js:103-115 | a reading strictly above -30 raises and any other lowers (exactly -30 lowers); progress stays in [0, 1] |
| `MicMonitor.Completes` | code/original2withmusicMic.js:105-110 | a completing reading sets progress to 1; only a blow completes, and from a progress in [0, 1] a blow completes exactly when progress is at least 0.9 |
| `MicMonitor.ProgressAfter` | code/original2withmusicMic.js:102-115 | over any run of valid readings progress stays in [0, 1] |
| `MicMonitor.QuietRunStaysAtZero` | code/original2withmusicMic.js:113-114 | from 0, readings at or below -30 keep progress at 0 |
| `MicMonitor.BlowRunFromZero` | code/original2withmusicMic.js:103-105 | from 0, i blows (i <= 10) give exactly 0.1·i |
| `MicMonitor.TenthBlowCompletes` | code/original2withmusicMic.js:103-110 | from 0, of a run of blows exactly the 10th turns the alarm off |
| `MicMonitor.AlternatingRunCreepsUp` | code/original2withmusicMic.js:103-115 | from 0, j alternating blow/quiet pairs (j <= 18, so no blow reaches 1) leave progress at 0.05·j |
| `MicMonitor.AlternatingRunCompletes` | code/original2withmusicMic.js:103-110 | from 0, no reading of 18 alternating blow/quiet pairs turns the alarm off; they leave progress at 0.9, and the blow after them (the 37th reading) turns it off |
| `MicMonitor.TurnOffScreen.constructor` | code/original2withmusicMic.js:7-14 | progress 0, not turned off, both audio slots empty, mounted, not polling |
| `MicMonitor.TurnOffScreen.StopAllAudio` | code/original2withmusicMic.js:23-33 | the recording slot ends up empty; the music slot ends up empty unless stopping or unloading the music threw, in which case the call rejects and the music keeps its slot; nothing else changes |
| `MicMonitor.TurnOffScreen.StartRecording` | code/original2withmusicMic.js:35-91 | audio is stopped first, and if stopping the previous music throws the catch swallows it and nothing starts (the music keeps its slot); otherwise the music slot is set once the music was created, the recording slot only when recording started, and polling starts exactly then; progress is not reset |
| `MicMonitor.TurnOffScreen.Unmount` | code/original2withmusicMic.js:16-21 | not mounted, the recording slot empty and the music slot as `StopAllAudio` leaves it (kept when stopping the music threw); progress and polling unchanged |
| `MicMonitor.TurnOffScreen.MonitorTick` | code/original2withmusicMic.js:93-122 | after unmount the tick stops polling and changes nothing else; a status error stops polling and keeps progress; an ignored status changes nothing; a valid reading sets progress to `NextProgress`, and exactly the reading that reaches 1 turns off, stops polling and stops the audio as `StopAllAudio` does (the music slot stays set when stopping it threw); the invariant (progress in [0, 1], off implies full and not polling) is kept |
| `Duration.Decimal` | ex.js:41 | a number in a template string is one or more decimal digits, a single digit exactly below 10 |
| `Duration.WholeMinutes` | ex.js:39-41 | the floor of the minutes: m·60000 <= ms < (m+1)·60000 |
| `Duration.RoundedSeconds` | ex.js:39-40 | the leftover fraction of a minute in seconds, rounded half up; it lies in 0..60 |
| `Duration.DurationFormatted` | ex.js:38-42 | the text always starts with the whole minutes, and it goes on past them exactly when the rounded seconds are below 10 |
| `Duration.FormattedShapes` | ex.js:38-42 | the text has a ':' exactly when the rounded seconds are below 10; then it is the minutes, ":0 " and the seconds digit; otherwise it is the minutes alone |
| `Duration.SecondsDroppedAt75000` | ex.js:41 | 75000 ms formats as "1"; the intended label is "1:15" |
| `Duration.SpaceInPaddingAt65000` | ex.js:41 | 65000 ms formats as "1:0 5"; the intended label is "1:05" |
| `Duration.SixtySecondsAt59600` | ex.js:39-41 | 59600 ms rounds to 60 seconds and formats as "0"; the intended label is "1:00" |
| `Duration.DurationLabel` | ex.js:38-42 | the corrected text (see Findings) is always minutes, ':' and two seconds digits |
| `Duration.LabelReadsBack` | ex.js:38-42 | the corrected label always reads back as minutes and seconds below 60 that add up to the rounded duration |
| `Recorder.LineFor` | ex.js:30-34 | the pushed entry keeps the loaded sound and the recorder's URI; its duration text is `getDurationFormatted` as written: it holds a ':' exactly when the rounded seconds are below 10, below 10 it is exactly the minutes' digits, ":0 " and one seconds digit, and otherwise it is only the digits of the whole minutes |
| `Recorder.RecordingLines` | ex.js:43-54 | one row per recording, in list order, the row at index i numbered i + 1 and showing that recording's duration |
| `Recorder.RecorderScreen.constructor` | ex.js:7-8 | no current recording and an empty list |
| `Recorder.RecorderScreen.StartRecording` | ex.js:10-23 | a recording is set exactly when the permission status is 'granted' and the recorder was created, so the button then reads "Stop Recording" and otherwise still "Start Recording"; every thrown error leaves the state unchanged; the list is untouched |
| `Recorder.RecorderScreen.StopRecording` | ex.js:25-36 | the current recording is cleared, so the button reads "Start Recording"; the list gains exactly the entry `LineFor` describes at the end, earlier entries unchanged, and the clear button is then titled; if stopping or loading threw the list is unchanged |
| `Recorder.RecorderScreen.ClearRecordings` | ex.js:55-57 | the list becomes empty (so clearing twice is clearing once), the clear button loses its title, and the current recording is untouched |

## Left out

- Audio, permission and UI calls (expo-av recorder, sound creation and playback, audio mode, permission prompts, `Alert`, `Animated`, `ProgressBar`, JSX, styles) are platform I/O. Their results are parameters. `requestMicrophonePermission` and `playRecording` in example.js only prompt or play and hold no state, so they are not modelled.
- The loudness proxy of example.js:81-82 (`fetch` of the recording and its `content-length` header) is network and file I/O. `AnalyzeTick` takes the resulting number as an integer. How the header string compares with 5000 in JavaScript is not modelled. A rejected `fetch` is not a separate input: it leaves the state as a size at or below 5000 does.
- Timer scheduling is not modelled: `setInterval` periods, overlapping asynchronous ticks and React's deferred state updates. Every tick is one atomic step on the current state, and an interval's tick is a precondition on its method (only a set interval fires).
- BlowGame.BlowGameScreen.AnalyzeTick: reads the current `isListening`, but in the app the callback sees the value captured when the loop was created (example.js:73). That value is `false`, so there the loop ends on its first tick.
- BlowGame.BlowGameScreen.IncreaseProgress: reads the current `progress`, where the app reads the render-time value (example.js:112).
- BlowGame.BlowGameScreen.SaveRecording: appends to the current list, where the app spreads the render-time `recordings` (example.js:131).
- MicMonitor.TurnOffScreen.StopAllAudio: clears the current recording slot. When called from the polling tick or the unmount cleanup, the app reads a `recording` captured while it was still `null` (code/original2withmusicMic.js:24), so there the recording slot is not cleared. For the same reason a throw of the recorder's `stopAndUnloadAsync` (code/original2withmusicMic.js:25) is not modelled; a throw while stopping the music (lines 29-30) is.
- Floating point is not modelled. The mic screen's 0.1 and 0.05 steps are exact twentieths here; in IEEE doubles, ten additions of 0.1 give 0.9999999999999999. `Math.round` and `Math.floor` in ex.js are exact integer arithmetic on whole non-negative milliseconds, so results near a rounding boundary may differ from the doubles.
- MicMonitor.TenthBlowCompletes: holds for exact twentieths. In IEEE doubles the 10th blow from 0 leaves 0.9999999999999999, below 1, so the app turns off on the 11th blow. `MicMonitor.BlowRunFromZero` and `MicMonitor.AlternatingRunCompletes` count readings in the same exact arithmetic and may be off by a reading in the same way.
- Recorder.RecordingLines: models each row's number and duration. It does not model the row's exact text layout ("recording # n |duration") or its play button.
- The screens have no configurable time limit (example.js's fixed countdown is `TimerTick`), no error events and no `InvalidState` failures on start or stop, so the model has none. Some properties one might expect of a blow controller do not hold of this code:
  - An alternating blow/quiet run does not settle into a bounded oscillation. It gains 0.05 per pair and turns the alarm off on the 37th reading (`MicMonitor.AlternatingRunCompletes`).
  - A tick without a valid reading is ignored, not decayed.
  - The mic screen does not reset progress on start.
  - A status error stops polling silently, with no stopped state or event.
  - The blow game's countdown ticks every second (5000 ms / 5) and stops listening on its 6th tick (`BlowGame.CountdownFromZero`), about 6 s after start, not after the 5 s its alert announces.

## Findings

| source | as written | input that shows it | evidently intended | confidence | as-written member | corrected member |
|---|---|---|---|---|---|---|
| ex.js:41 | at 10 or more rounded seconds the text is the minutes alone | 75000 ms gives "1" | "1:15" | high; not executed | `Duration.SecondsDroppedAt75000` | `Duration.LabelReadsBack` |
| ex.js:41 | the zero padding is ":0 " with a space | 65000 ms gives "1:0 5" | "1:05" | high; not executed | `Duration.SpaceInPaddingAt65000` | `Duration.LabelReadsBack` |
| ex.js:39-40 | the leftover seconds are rounded on their own and can reach 60 without carrying into the minutes | 59600 ms gives 60 seconds of minute 0, shown as "0" | "1:00" | medium; not executed | `Duration.SixtySecondsAt59600` | `Duration.LabelReadsBack` |

In every row the corrected text is `Duration.DurationLabel`. It rounds the
whole duration to seconds (`Duration.TotalSeconds`), then splits that into
minutes and two-digit seconds. The recorder screen's list keeps the text as
written: `Recorder.LineFor` stores `Duration.DurationFormatted`.
