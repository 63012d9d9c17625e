# Rhythm Weaver metronome: sequencing core in Dafny

Rhythm Weaver is a step-sequencer metronome that runs in a browser. The user
builds a list of *measures*. Each measure has a number of *subdivisions*
(1 to 16 pulses) and a *pattern* that stores one state per pulse: 0 silent,
1 accent, 2 strong. The sequence then plays in a loop at a tempo of 1 to
300 beats per minute.

Playback is driven by a look-ahead scheduler. About every 25 ms a timer
calls `scheduleNotes`, which emits every pulse whose start time lies
before the audio clock's current time plus 0.1 s, then moves a playhead
(measure, pulse, next note time) past them. This includes pulses that are
already late because the timer stalled. For each pulse it emits:

- a click on the audio clock when the pulse's state is above 0
  (440 Hz for an accent, 880 Hz for a strong pulse);
- a highlight for the display, always.

This project models that scheduler together with the transport handlers
(play/pause, stop, typed tempo), the pattern-editing handlers (add and
remove a measure, open and close the editor, resize a measure, rotate a
pulse) and the state assignments made when a session is loaded.

Layout:

- `wrappers.dfy`: `Option`, for inputs that may be missing or not a number.
- `pattern.dfy` (module `Pattern`): the `Measure` value and the pure editing
  functions (resize, rotate, splice out, editor-index correction).
- `scheduler.dfy` (module `Scheduler`): the scheduling loop as a pure
  function `Run` of the measures, the tempo, the playhead and the horizon,
  with lemmas about what one tick emits.
- `session.dfy` (module `Session`): class `Metronome`. It holds the state the
  source keeps in `state` and in the module-level playhead variables. Its
  methods update those fields the way the handlers do. `Tick` is the
  `while` loop of `scheduleNotes` and is proved equal to `Run`.

Times are exact reals, and the audio clock's current time is a parameter
of `Tick` and `PlayPause`. Each measure is a value inside the `measures`
sequence: an in-place update of a measure object in the source becomes a
replacement of that element.

Four behaviours of the code that a user might not expect, which the model
keeps:

- Play starts at the last measure when there is more than one
  (script.js:260), not at the first.
- Changing a measure's subdivisions during playback does not correct the
  pulse index. The index may then point past the end of the pattern. The
  scheduler emits no click for such a pulse, emits its highlight, and the
  `>=` test wraps it to the next measure (`RunHead`).
- Stop and pause cancel only the scheduler timer. Highlights that are
  already pending still fire. Highlights are outside this model.
- No subdivision count of 0 is ever rejected at run time. The model
  instead requires every measure to be well-formed.

## Model

| member | source | states |
|---|---|---|
| `Pattern.DefaultMeasure` | script.js:298 | The measure that "add measure" appends (4 pulses: strong, then three accents) is well-formed. |
| `Pattern.Resized` | script.js:328-331 | The resized pattern has exactly the new length. Its first min(old, new) entries are the old ones, and every slot past the old length is an accent (1). |
| `Pattern.GrowThenShrink` | script.js:330-331 | Growing a pattern and cutting it back to its old length gives the original: truncation removes exactly what growth added. |
| `Pattern.ResizeKeepsWellFormed` | script.js:328-332 | Resizing a well-formed measure to a count in 1..16 keeps it well-formed: the pattern length equals the subdivisions and entries stay in 0..2. |
| `Pattern.Rotated` | script.js:344 | A clicked pulse gets a valid state that differs from its old one. |
| `Pattern.RotationCycle` | script.js:344 | Clicks cycle 0→1→2→0: three clicks restore the state and pass through both other states. |
| `Pattern.Removed` | script.js:308 | Splicing out measure i drops exactly that measure. Earlier measures keep their index and later ones move down by one. |
| `Pattern.EditingAfterRemoval` | script.js:309-310 | For a removal from an open or closed editor, the new index is -1 exactly when the editor was closed or showed the removed measure. Otherwise an index above the removed one moves down by one and an index below it is kept. Its partner is `EditorFollowsRemoval`. |
| `Pattern.EditorFollowsRemoval` | script.js:309-310 | After a removal the editor index is -1 exactly when it was -1 or was the removed measure. Otherwise it is the old index less one when that was above the removed measure, and the old index when below, so it names the same measure in the shortened sequence. |
| `Scheduler.PulseDuration` | script.js:131 | `subdivisions` pulses of this length make exactly one beat of 60/tempo seconds, and within the tempo and subdivision ranges a pulse is never shorter than 1/80 s. |
| `Scheduler.BeatSplit` | script.js:131 | `subdivisions` pulses add up to exactly one beat of 60/tempo seconds. |
| `Scheduler.Frequency` | script.js:149-150 | A click is 880 Hz exactly for state 2 and 440 Hz otherwise. |
| `Scheduler.StateAt` | script.js:132 | The read `measure.pattern[currentPulse]`: a state exactly when the index lies inside the pattern (then the stored entry, a valid state for a well-formed measure), and nothing (`undefined` in the source) otherwise. |
| `Scheduler.PulseEvents` | script.js:132-134 | One pulse emits one or two events, all at the pulse's time, ending with its highlight. A click comes first exactly when the stored state is above 0, at `Frequency` of that state. Its partner is `PulseEventsByState`. |
| `Scheduler.PulseEventsByState` | script.js:132-134 | For state 0, or a pulse index past the pattern's end, only a highlight is emitted. State 1 gives a 440 Hz click and state 2 an 880 Hz click, each followed by the highlight at the same time. |
| `Scheduler.NextMeasureWraps` | script.js:139 | Moving on from the last of n measures returns to measure 0. Any other measure moves to the next index. |
| `Scheduler.Advance` | script.js:135-140 | After one pulse the playhead is on an existing pulse of an existing measure, and its time has grown by that measure's pulse duration. Inside a measure it moves to the next pulse of the same measure. After a measure's last pulse (or an index past its end) it moves to pulse 0 of the next measure, or to (0, 0) after the last measure. |
| `Scheduler.BudgetDrops` | script.js:127-135 | Each pass through the loop lowers the count of shortest pulses that still fit before the horizon, so the loop ends. |
| `Scheduler.Run` | script.js:126-142 | The playhead a tick leaves behind still names an existing measure whenever there is one. |
| `Scheduler.RunHead` | script.js:127-140 | After a tick the playhead time is at or past now + 0.1, unless there are no measures. In that case nothing is emitted and nothing changes. A tick that emitted anything leaves the playhead in range, even if it started past the end of a shortened measure. |
| `Scheduler.RunPulses` | script.js:127-140 | A tick's events are exactly, in order, the events of a chain of pulses. The chain starts at the playhead and each pulse is the one after the previous. The new playhead is the pulse after the last. No pulses are visited exactly when there are no measures or the playhead is already at the horizon. |
| `Scheduler.RunTimes` | script.js:127-135 | Every emitted event has a time in [old next-note time, now + 0.1). Times never decrease, and every event after a highlight is strictly later than that highlight. |
| `Scheduler.RunPulseCount` | script.js:127-135 | One tick processes at most ⌊80·(horizon − next-note time)⌋ + 1 pulses. |
| `Scheduler.RunSplit` | script.js:126-142 | Two ticks in a row emit exactly what one tick to the later horizon emits and leave the same playhead, so no pulse is emitted twice or skipped. |
| `Session.LoadedTempo` | script.js:413 | A loaded tempo is never 0. A present non-zero tempo is kept, and a missing or zero one becomes 120. |
| `Session.LoadedMeasures` | script.js:219 | A loaded document's measures are kept when present, and a non-empty result always is the document's own list, so a missing list yields no measures. Its partner is `SaveLoadRoundTrip`. |
| `Session.SaveLoadRoundTrip` | script.js:206-219 | The {tempo, measures} document a valid session saves (`Metronome.Saved`) is of the valid shape, and loading it gives back the session's tempo and measures. |
| `Session.ClampTempo` | script.js:289 | A typed tempo becomes the value in [1, 300] closest to it, and a tempo already in range is kept. |
| `Session.Metronome.constructor` | script.js:431-439 | A session starts with the saved tempo and measures when a document was saved, and otherwise with tempo 120. If that leaves no measures, it starts with the one default measure. It starts stopped, with the editor closed and the playhead at (0, 0). |
| `Session.Metronome.Tick` | script.js:126-142 | The events emitted and the new playhead are exactly `Run` from the old playhead to now + 0.1. Measures, tempo and play state are unchanged and the session invariant holds. |
| `Session.Metronome.SchedulePulse` | script.js:129-140 | One pass of the loop body emits the pulse's events and moves the playhead to `Advance` of the old one. |
| `Session.Metronome.PlayPause` | script.js:254-269 | When playing: stop, keeping the playhead. When stopped with no measures: nothing changes. Otherwise: play from pulse 0 of the last measure (of measure 0 if there is only one), with the first pulse at now + 0.1. |
| `Session.Metronome.Stop` | script.js:271-278 | Playback stops and the playhead returns to (0, 0). The next-note time is not touched. |
| `Session.Metronome.SetTypedTempo` | script.js:286-293 | Input that is not a number leaves the tempo unchanged. Otherwise the tempo becomes the clamped value. |
| `Session.Metronome.AddMeasure` | script.js:297-301 | The default measure is appended and nothing else changes. |
| `Session.Metronome.RemoveMeasure` | script.js:303-314 | Exactly measure i is removed, playback is stopped (playhead to (0, 0)) if it was running, and the editor index is corrected. |
| `Session.Metronome.SelectMeasure` | script.js:315-321 | Clicking measure i opens it in the editor. |
| `Session.Metronome.CloseEditor` | script.js:350-354 | The editor index becomes -1. |
| `Session.Metronome.ResizeSubdivisions` | script.js:324-337 | With a measure open and a count in 1..16, only that measure changes: it gets the new count and the resized pattern. Otherwise nothing changes, and the playhead is never corrected. |
| `Session.Metronome.TogglePulse` | script.js:339-348 | Only entry i of the open measure's pattern changes, and it rotates. |
| `Session.Metronome.LoadDocument` | script.js:412-416 | Tempo and measures come from the document (120 and no measures when missing) and the editor closes. Running playback is stopped, and the playhead is otherwise kept. The same assignments are made when a preset is loaded (script.js:375-378). |

## Left out

- IndexedDB preset storage and the preset modal (script.js:43-120, 356-388): asynchronous browser database I/O. Only the state assignments of loading a preset are kept, in `LoadDocument`.
- localStorage, JSON parsing and serialising, the Blob export and the FileReader import (script.js:204-224, 390-426): I/O. Documents arrive already parsed as `Document` values. A file that fails to parse shows an alert and changes nothing, so it is not modelled as a call.
- Documents are assumed to have the shape the application writes (`ValidDocument`): tempo missing, 0 or in 1..300, and well-formed measures. The source never checks this. A hand-edited file with a negative tempo would make `scheduleNotes` loop forever, A measure with 0 subdivisions would make the pulse duration infinite: that pulse is still emitted, the next note time becomes infinite, and nothing is ever scheduled again, so playback falls silent. Both are outside the model.
- The Web Audio oscillator, gain node and exponential envelope (script.js:144-156): a foreign API and floating-point signal work. Only the 440/880 Hz choice is kept.
- The `setTimeout` re-arm loop and the delayed highlight callbacks (script.js:158-171): timers and DOM. A tick is one explicit `Tick(now)` call, and a highlight is a `Visual` event with no delay. The play handler also runs one scheduling pass at once (script.js:262), which `PlayPause` does not. With one clock reading per tick nothing is lost: a `Tick(now)` right after `PlayPause(now)` emits nothing, because the next note time then equals the horizon now + 0.1.
- Lazy creation of the audio context (script.js:256): the audio clock is the `now` parameter.
- DOM rendering (`renderEditor`, `renderSequencer`, `updateUI`, the class toggles, script.js:173-248, 277, 295).
- One tick reads the audio clock once: `Tick(now)` fixes the horizon at now + 0.1 for the whole loop, whereas script.js:127 reads `audioContext.currentTime` again at every loop test. The model does not capture a clock that moves during one tick.
- Text parsing: the typed tempo, the subdivision count and the DOM indices are read with `parseInt(…, 10)` (script.js:287, 306, 317, 327, 342), which takes a leading integer ("7.9" gives 7, "12abc" gives 12). The model receives the already parsed value, as an `Option<int>` that is None for text with no leading number, or as an `int` index.
- IEEE-754 rounding of the next note time: times are exact reals.
- The tempo slider (script.js:280-284): it stores the slider value unclamped and relies on the HTML range attribute. Every model operation keeps the tempo in 1..300 (`Valid`).
- Session.Metronome.Tick: requires a non-empty sequence's current measure index to be in range. In the source an out-of-range index throws. The session invariant guarantees it while playing.
- Session.Metronome.TogglePulse: requires an open measure and a pulse index below its subdivision count, as the editor only shows toggles for existing pulses of an open measure.
- Session.Metronome.RemoveMeasure: requires an existing index, as remove buttons exist only for existing measures.
