# LED record/playback sequencer

A model of the switch-driven sequencer in `src/applications/led.c`. This is the
`led_sample` control loop of an RT-Thread board application, together with
`terminate_led`.

Each pass of the loop does three things:

1. It samples the nine switches and the millisecond clock.
2. If the switch word changed since the previous pass, it runs five handlers in
   source order:
   - switches 0-2 select a note;
   - switch 3 toggles autoplay (play/pause);
   - switches 4-6 select a tempo;
   - switch 7 starts or stops a recording;
   - switch 8 starts or stops playback of the recording.
3. It runs one driver:
   - the playback driver, which replays the recorded steps in a loop; or else
   - the autoplay driver, which walks up the scale at the current tempo.

The loop writes its results to the seven-segment display and to the LEDs.
A recording holds at most 50 steps. Each step is a note, a tempo and the time
since the previous step.

The project has four modules:

- `LedSpec` (`led_spec.dfy`) is the loop as a pure state machine.
  - `State` holds every static variable of the source.
  - Each handler and each driver is a function that returns the new state and
    the port writes it makes, in order.
  - `Step` is one pass of the loop, and `Run` is a finite sequence of passes.
    `Interleaved` is such a sequence with terminate_led calls between passes.
  - `Inv` is the invariant of the reachable states: recording and playback
    exclude each other, the buffer holds at most 50 steps, the playback cursor
    stays in bounds, and the note and tempo stay in range. Every handler
    preserves it.
- `Led` (`led.dfy`) is the source's own form: a class `Sequencer`.
  - Its fields are the statics, and `recordedSequence` is an array of 50 slots
    that the handlers write in place.
  - A ghost log `outputs` records every display and LED write.
  - Every method is proved against the matching `LedSpec` function: its new
    `Model()` is that function's state, and the log grows by exactly that
    function's writes.
- `LedProperties` (`led_properties.dfy`) holds properties of whole runs and
  concrete switch scenarios.
- `LedWords` (`led_words.dfy`) proves that the model's arithmetic decoding of
  the switch word equals the C masks and shifts on the 32-bit word. It proves
  the same for every word the model writes to a port and the C `|` and `<<`
  expressions.

Where the code and a plain reading of its design differ, the model follows the
code:

- A tempo change captured while recording always stores
  `now - last_record_time` as its duration, even when it is the first step
  (led.c:112). Only a note change stores 0 for the first step (led.c:70-73).
- When the buffer is full during recording, a note or tempo change is not
  dropped. It falls into the `else` branch and changes the live note or tempo,
  with its display and LED writes (led.c:69, 83-88, 111, 118-121).
- Play/pause can toggle `playing` during playback. Autoplay stays suppressed
  there because the drivers are an `else if` (led.c:95, 180, 204).

## Model

| member | source | states |
|---|---|---|
| LedSpec.Elapsed | src/applications/led.c:72 | `now - since` in `rt_uint32_t` arithmetic: adding it to `since` modulo 2^32 gives `now`, and with no wrap-around it is the plain difference |
| LedSpec.Field | src/applications/led.c:65-66 | a three-bit switch group is below 8 and a one-bit group is below 2 |
| LedSpec.NoteOf | src/applications/led.c:66 | the note selected by switches 0-2 is in 0..7 |
| LedSpec.TempoOf | src/applications/led.c:108 | the tempo selected by switches 4-6 is in 1..8 |
| LedSpec.Frequency | src/applications/led.c:53 | the note table gives a frequency in 262..523 Hz, so `freq % 0xFFFF` and `freq & 0xFFFF` leave it unchanged |
| LedSpec.ToneWrites | src/applications/led.c:210-215 | autoplay writes the note's table frequency to the LEDs and `0x02110000` plus that frequency to the display: `% 0xFFFF` and `& 0xFFFF` change no table entry |
| LedSpec.Changed | src/applications/led.c:62-65 | the `changed_bits & mask` test: some bit of the group differs between the old and the new switch word. It has no contract of its own; `LedProperties.ChangedOnlyOnNewWord` and `LedWords.ChangedIsMask` state its properties |
| LedSpec.Rising | src/applications/led.c:93-94 | the guard of the one-bit handlers (also lines 126-127 and 161-162): the bit changed and is now set. `LedProperties.RisingIsZeroToOne` states it is exactly a 0-to-1 edge |
| LedSpec.Capturing | src/applications/led.c:69 | the capture guard `is_recording && record_count < MAX_RECORD_STEPS`, shared with line 111. `LedProperties.CaptureSlotInBounds` states the slot it writes exists |
| LedSpec.Inv | src/applications/led.c:26-50 | the invariant of the statics: recording and playback exclusive, at most 50 steps, playback only of a non-empty recording with the cursor inside it, note below 8, tempo 1..8, autoplay counter below 500, every stored step valid. `LedSpec.Run`, `LedSpec.Interleaved` and `LedProperties.InvBoundsAutoplay` state what follows from it |
| LedSpec.Init | src/applications/led.c:26-50 | the load-time statics satisfy the invariant: not recording, not playing back, autoplay paused, empty buffer, note 0, tempo 4 |
| LedSpec.BlinkWrites | src/applications/led.c:136-141 | a blink of `n` cycles is `2n` LED writes that alternate between the first and the second pattern |
| LedSpec.Append | src/applications/led.c:75-79 | an append writes exactly slot `record_count`, raises the count by one, stamps `last_record_time`, changes no other slot or field, and keeps the invariant (at most 50 steps) |
| LedSpec.NoteSwitch | src/applications/led.c:64-90 | no change to switches 0-2 does nothing. While capturing, it appends (new note, current tempo, 0 for the first step and otherwise the elapsed time), keeps the live note and writes `0xF000 OR 1<<note`. Otherwise, including a full buffer, it sets the live note and shows it on the display and the LEDs. Recorded steps are never overwritten |
| LedSpec.PlaySwitch | src/applications/led.c:92-104 | `playing` toggles if and only if switch 3 rose and the sequencer is not recording. The LEDs read 0xFFFF when it turns on and 0x0000 when it turns off, and nothing else changes |
| LedSpec.TempoSwitch | src/applications/led.c:106-123 | no change to switches 4-6 does nothing. While capturing, it appends (current note, new tempo, elapsed time, even for the first step) and keeps the live tempo. Otherwise it sets the live tempo and shows it. Recorded steps are never overwritten |
| LedSpec.RecordSwitch | src/applications/led.c:125-158 | recording changes if and only if switch 7 rose and playback is off. Starting resets the count to 0, stamps both record times and emits 3 blink cycles and the "E" glyph. Stopping clears only the recording flag, keeps the count, and emits 5 blink cycles and the step count. Otherwise nothing changes |
| LedSpec.PlaybackSwitch | src/applications/led.c:160-174 | playback toggles if and only if switch 8 rose, the buffer is not empty and the sequencer is not recording. Starting rewinds the cursor, stamps the start time and writes 0x0F0F; stopping writes 0x0000 |
| LedSpec.Due | src/applications/led.c:181-185 | the firing condition of the playback driver: the cursor is inside the recording and either the step's duration has elapsed since the last firing or the cursor is at slot 0. `LedProperties.DueBounds` states its consequences |
| LedSpec.LiveSwitches | src/applications/led.c:64-123 | the note, play and tempo handlers in order keep the invariant and the recorded prefix, append only while recording, and touch only note, tempo, playing and the buffer fields |
| LedSpec.ModeSwitches | src/applications/led.c:125-174 | the record and playback toggles change the count only by starting a recording from 0, and change the recording flag only on a rising switch 7 |
| LedSpec.Switches | src/applications/led.c:61-177 | an unchanged switch word runs no handler and writes nothing. The new word becomes `last_switch_state`, the autoplay counter is untouched, the buffer only grows while recording, and recording changes only on a rising switch 7 |
| LedSpec.PlaybackDriver | src/applications/led.c:180-201 | at the end of the recording it rewinds to slot 0 without firing. Otherwise it fires the step under the cursor exactly when that step is due, copying its note and tempo, advancing the cursor, restamping the start time and showing the step. The cursor stays within the recording |
| LedSpec.Autoplay | src/applications/led.c:204-221 | it counts a pass. On reaching `500 / tempo` it plays the note's frequency, resets the counter to 0 and moves to `(note + 1) % 8`. The counter stays below 500 |
| LedSpec.Drivers | src/applications/led.c:179-222 | playback has priority, and the autoplay counter is untouched while playing back. Without playback the cursor and the tempo are untouched, and with neither driver active nothing happens |
| LedSpec.Step | src/applications/led.c:57-222 | one pass keeps the invariant and records the sampled word. Without a switch change it is the driver alone. The buffer only grows while recording, and recording starts or stops only on a rising switch 7 |
| LedSpec.Terminated | src/applications/led.c:33-38 | terminate_led zeroes the count and clears both modes, leaves every other field as it was, and keeps the invariant |
| LedSpec.Run | src/applications/led.c:55-225 | every state reached by finitely many passes satisfies the invariant |
| LedSpec.Interleaved | src/applications/led.c:33-38 | passes of the loop with terminate_led calls between them, in any order, keep the invariant |
| Led.Sequencer.constructor | src/applications/led.c:42-50 | the statics at load time equal `LedSpec.Init`, and the only write so far enables the display |
| Led.Sequencer.Blink | src/applications/led.c:149-154 | the blink loop appends exactly `BlinkWrites` to the log |
| Led.Sequencer.Record | src/applications/led.c:113-117 | writing the slot in place, incrementing the count and stamping the time is `Append` |
| Led.Sequencer.SelectNote | src/applications/led.c:64-90 | the in-place note handler yields `NoteSwitch`'s state and writes |
| Led.Sequencer.TogglePlay | src/applications/led.c:92-104 | the in-place play/pause handler yields `PlaySwitch`'s state and writes |
| Led.Sequencer.SetTempo | src/applications/led.c:106-123 | the in-place tempo handler yields `TempoSwitch`'s state and writes |
| Led.Sequencer.ToggleRecord | src/applications/led.c:125-158 | the in-place record toggle yields `RecordSwitch`'s state and writes |
| Led.Sequencer.TogglePlayback | src/applications/led.c:160-174 | the in-place playback toggle yields `PlaybackSwitch`'s state and writes |
| Led.Sequencer.HandleLiveSwitches | src/applications/led.c:64-123 | the three live handlers in order yield `LiveSwitches` |
| Led.Sequencer.HandleModeSwitches | src/applications/led.c:125-174 | the two mode toggles in order yield `ModeSwitches` |
| Led.Sequencer.RememberSwitches | src/applications/led.c:176 | only `last_switch_state` changes |
| Led.Sequencer.HandleSwitches | src/applications/led.c:61-177 | edge detection plus the five handlers yields `Switches` |
| Led.Sequencer.AdvancePlayback | src/applications/led.c:180-201 | the in-place playback driver yields `PlaybackDriver` |
| Led.Sequencer.AdvanceAutoplay | src/applications/led.c:204-221 | the in-place autoplay driver yields `Autoplay` |
| Led.Sequencer.Drive | src/applications/led.c:179-222 | the `if`/`else if` over the two drivers yields `Drivers` |
| Led.Sequencer.Tick | src/applications/led.c:57-222 | one pass of the loop body yields `Step`'s state and appends `Step`'s writes to the log |
| Led.Sequencer.Terminate | src/applications/led.c:33-38 | terminate_led yields `Terminated` and touches only the three cleared fields |
| LedProperties.RunConcat | src/applications/led.c:55-225 | running two sequences of passes one after the other is running their concatenation |
| LedProperties.ReachableStatesSafe | src/applications/led.c:33-222 | after any passes and terminate_led calls from load time: recording and playback are never both on, playback implies a non-empty buffer with the cursor inside it, at most 50 steps, `notes[current_note]` and `500 / tempo` are defined, and every stored step has a valid note and tempo |
| LedProperties.PassesOnlyIsRun | src/applications/led.c:55-225 | with no terminate_led call, an interleaved history is the plain run of its passes |
| LedProperties.ChangedOnlyOnNewWord | src/applications/led.c:61-62 | a group counts as changed only when the switch word differs from `last_switch_state`, so no handler runs outside the `switch_state != last_switch_state` block |
| LedProperties.RisingIsZeroToOne | src/applications/led.c:93-94 | for switches 3, 7 and 8 a handler fires if and only if the bit went from 0 to 1; a release or an unchanged bit runs nothing |
| LedProperties.CaptureSlotInBounds | src/applications/led.c:69-78 | under the capture guard and the invariant, `recorded_sequence[record_count]` lies inside the 50-slot buffer and playback is off |
| LedProperties.DueBounds | src/applications/led.c:181-185 | a step that fires is a recorded step, inside the buffer, with a valid note and tempo; slot 0 is due at once whatever the elapsed time |
| LedProperties.InvBoundsAutoplay | src/applications/led.c:208-210 | in every state of the invariant `notes[current_note]` is in range and the autoplay period `500 / tempo` is between 62 and 500 passes |
| LedProperties.RecordingAppendOnly | src/applications/led.c:69-79 | while switch 7 stays put, recording neither starts nor stops, and every recorded step stays as it was |
| LedProperties.QuietPlaybackPass | src/applications/led.c:180-201 | during playback, a pass without switch changes is the playback driver alone and fires the cursor's slot exactly when it is due |
| LedProperties.PlaybackLoopsInOrder | src/applications/led.c:180-201 | without switch changes, playback fires slots of the recording in recorded order: first the cursor's slot (0 at the end), then each next slot, wrapping after the last. It never changes the recording or leaves playback |
| LedProperties.PlaybackPaced | src/applications/led.c:180-196 | without switch changes, every firing of a slot other than 0 comes at least that step's recorded duration after the firing before it (after the playback start time for the first firing of the run) |
| LedProperties.QuietRunIsReplay | src/applications/led.c:180-201 | during playback, a run with the switches held fires exactly what the playback driver alone fires at the same times |
| LedProperties.LiveNoteScenario | src/applications/led.c:83-88 | from load time, switches 0-2 set to 101 make note 5 live, write display word 0x02110055 and light LED 5, and record nothing |
| LedProperties.RecordingFrom | src/applications/led.c:128-133 | a freshly started recording satisfies the invariant, captures events and has an empty buffer, with switch word 0x80, both record times stamped, note 0, tempo 4 and autoplay paused |
| LedProperties.RecordStartScenario | src/applications/led.c:128-142 | from load time, raising switch 7 starts a recording with an empty buffer and writes 3 blink cycles and the "E" glyph |
| LedProperties.OnlyNoteBitsChanged | src/applications/led.c:62-65 | two different switch words that agree above bit 2 change group 0-2 and no other group |
| LedProperties.CaptureNoteStep | src/applications/led.c:69-82 | while capturing, a pass that changes only switches 0-2 is exactly one append plus the capture LED write |
| LedProperties.CapturedNote | src/applications/led.c:69-79 | the same pass, field by field: one more step, the earlier steps unchanged, the live note and tempo kept |
| LedProperties.RecordThreeNotesScenario | src/applications/led.c:69-79 | notes 2, 5 and 1 played 0, 120 and 300 ms apart are recorded as steps with durations 0, 120 and 300, and the live note stays 0 |
| LedProperties.ReleaseRecordSwitch | src/applications/led.c:126-127 | releasing switch 7 while recording runs no handler and writes nothing: only `last_switch_state` changes |
| LedProperties.PressRecordSwitchAgain | src/applications/led.c:144-155 | raising switch 7 again stops the recording, keeps the buffer and the count, and writes 5 blink cycles and the step count; no driver runs in that pass |
| LedProperties.ReplayStart | src/applications/led.c:161-196 | raising switch 8 on the stopped three-step recording starts playback and fires slot 0 in the same pass: note 2 and tempo 4 become live, the cursor moves to 1 and the start time to 2000 |
| LedProperties.ReplayTail | src/applications/led.c:180-201 | with the cursor at 1 since 2000 ms: slot 1 is not due at 2119 and fires at 2120, slot 2 is not due at 2419 and fires at 2420, the next pass wraps without firing and the one after fires slot 0 |
| LedProperties.ReplayRun | src/applications/led.c:161-201 | from the stopped three-step recording, raising switch 8 at 2000 ms and then holding the switches fires slot 0 at 2000, slot 1 at 2120, slot 2 at 2420 and slot 0 again at 2422 |
| LedProperties.ReplayThreeStepsScenario | src/applications/led.c:144-201 | the recording `RecordThreeNotesScenario` leaves, stopped by releasing and raising switch 7 and replayed by raising switch 8: slot 0 fires at once, slot 1 120 ms later, slot 2 300 ms after that, then playback wraps and slot 0 fires at once |
| LedWords.NoteOfIsMask | src/applications/led.c:66 | the model's note is `switch_state & 0x0007` |
| LedWords.TempoOfIsMask | src/applications/led.c:108 | the model's tempo is `((switch_state >> 4) & 0x0007) + 1` |
| LedWords.PlayBitIsMask | src/applications/led.c:94 | `switch_state & 0x0008` is nonzero if and only if switch 3 is on in the model |
| LedWords.RecordBitIsMask | src/applications/led.c:127 | `switch_state & 0x0080` is nonzero if and only if switch 7 is on in the model |
| LedWords.PlaybackBitIsMask | src/applications/led.c:162 | `switch_state & 0x0100` is nonzero if and only if switch 8 is on in the model |
| LedWords.NoteMaskedIsField | src/applications/led.c:65 | two words agree under `& 0x0007` if and only if their note fields agree |
| LedWords.TempoMaskedIsField | src/applications/led.c:107 | two words agree under `& 0x0070` if and only if their tempo fields agree |
| LedWords.MaskedIsField | src/applications/led.c:62-65 | for every group, two words agree under the group's mask if and only if they agree on the group |
| LedWords.ChangedIsMask | src/applications/led.c:62-65 | `(switch_state ^ last_switch_state) & mask` is nonzero if and only if the model's `Changed` holds, for every group |
| LedWords.NoteLedIsShift | src/applications/led.c:82-88 | the note LED is `1 << note` and the capture LED is `0xF000 OR (1 << note)` |
| LedWords.NoteDisplayIsOr | src/applications/led.c:86 | the note display word is `0x02110000 OR (note << 4) OR note` |
| LedWords.TempoDisplayIsOr | src/applications/led.c:121 | the tempo, glyph and count display word is `0x02111300 OR v` |
| LedWords.StepWordsAreOr | src/applications/led.c:191-192 | a replayed step shows `0x02110000 OR (note << 4) OR tempo` and lights `(1 << note) OR (tempo << 8)` |
| LedWords.ToneDisplayIsOr | src/applications/led.c:210-215 | the autoplay display word is `0x02110000 OR (freq & 0xFFFF)` |

## Left out

- `src/applications/mem.c` is not part of this model. It is a two-thread memory-pool demo whose behaviour is blocking kernel calls between threads.
- Memory-mapped I/O (led.c:7-16): the register read becomes the `switchState` parameter, and each write becomes an entry of the ghost log `outputs`. The `>> 16` of the raw GPIO read (led.c:57) happens before the model: the parameter is the shifted word.
- The clock `rt_tick_get() * 1000 / RT_TICK_PER_SECOND` (led.c:58) becomes the `now` parameter.
- `rt_thread_delay` (led.c:138-140, 151-153, 224) is scheduler blocking. Only the LED writes of the blink loops are kept, in order.
- The infinite `while (1)` is modelled as one `Tick` and as `Run` over any finite sequence of samples.
- `terminate_led` may run from another thread while the loop runs. The model treats each call as one atomic event between two passes (`Interleaved`); a call landing in the middle of a pass is not modelled.
- `uint8`/`uint32` widths of the statics: `record_count`, `playback_index`, `current_note`, `tempo` and `note_counter` are unbounded naturals. The invariant bounds them (at most 50, at most 50, below 8, 1..8, below 500), so no wrap-around can happen. Times and durations are `rt_uint32_t`, with modular subtraction.
- The switch groups are decoded with division and remainder rather than masks, and each `|` of disjoint bit fields in a port word is written as a sum. Module `LedWords` proves each equal to the C expression on 32-bit words.
- `record_start_time` is written when a recording starts (led.c:132) but never read. It is a field with no property of its own.
