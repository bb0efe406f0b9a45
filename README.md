# Plugin host core, modelled in Dafny

This project models the sequential logic inside a small audio-plugin host
library. The library loads VST2 and VST3 plugins, feeds them audio blocks
with MIDI and parameter events, and relays the plugin's own parameter
gestures back to the host application. Its VST3 side is a C++ wrapper
(`vst3-wrapper/source/vst3wrapper.cpp`) around the Steinberg SDK. The wrapper
is driven from Rust through a C ABI (`bindings.h`). The VST2 side is Rust on
top of the `vst` crate.

The model covers these parts of the core:

- **VST3 parameter-edit tracker.** `ComponentHandler::performEdit`, `endEdit`,
  `beginEdit` and `restartComponent`, `PlugFrame::resizeView`, and
  `send_param_change_event` with its ParamID-to-index table. Module
  `ParamEdits` (param_edits.dfy) holds it, using the records in module
  `Bindings`.
- **VST3 per-block process bridge.** Module `ProcessBridge`
  (process_bridge.dfy) covers:
  - the transport flag set and process mode;
  - MIDI translation into the bus-0 event list, which is cleared after the
    block;
  - one-point-per-id parameter queues;
  - bus-buffer binding.
- **VST3 instance life cycle.** Module `Vst3Instance` (vst3_instance.dfy)
  covers:
  - the shared host context with its reference count (`init` / `_destroy`);
  - the choice of the first audio-effect class;
  - the 16-slot IO configuration (`get_io_config`);
  - `get_parameter`, which strips NULs, maps flags and records the index.
- **VST3 Rust side.** Module `Vst3Format` (vst3_format.dfy) covers:
  - `last_param_updates`;
  - `process` pushing those updates into a 512-slot ring;
  - `editor_updates` draining that ring and skipping NaN values;
  - `get_preset_data`, latency, and suspend/resume.
- **VST2 host callbacks.** Module `Vst2Callbacks` (vst2_callbacks.dfy)
  covers:
  - the `just_started` / `currently_editing` gesture tracker behind
    `automate`, `begin_edit` and `end_edit`;
  - the time info, process level, `can_do` and language answers;
  - the other `Vst2Host` callbacks.
- **VST2 MIDI list.** Module `Vst2Midi` (vst2_midi.dfy) covers
  `process_vst2_midi_events_list`: a stable sort by block time, a filter to
  MIDI, conversion, and the 100-event limit.
- **VST2 plugin wrapper.** Module `Vst2Plugin` (vst2_plugin.dfy) covers:
  - the Suspended/Resumed state machine and the sample-rate and block-size
    changes;
  - `process`, `get_parameter` (the formatted value) and
    `get_io_configuration`.
- **Format detection.** Module `Discovery` (discovery.dfy) covers `is_vst2`,
  `is_vst3` and `is_clap`.
- **Transport basics.** Module `Transport` (transport.dfy) covers
  `PlayingState::is_playing` and the `ProcessDetails` defaults.

Shared definitions sit in `Common`: `Option`/`Result`, the parameter value
type, the integer casts, and an order-preserving `Filter` with its lemmas.
Module `Ring` holds the bounded FIFO that stands for the `ringbuf` queues.
Module `Events` holds the host and plugin event records.

Conventions:

- A parameter value is `Value = Num(real) | NaN`. NaN is a sentinel, and no
  floating-point arithmetic is modelled.
- Integer conversions are written out: `AsI32`, `AsU32`, `AsUsize` (64-bit
  `usize`) and `AsI64` wrap modulo 2^32 or 2^64 as the C and Rust casts do.
- Each call into the SDK, into the VST2 plugin or across a thread boundary
  is modelled as one atomic step.
- Where the code works by updating state, it is modelled as a class with
  `modifies` clauses. That covers the edit handler, the event sink, the
  process data with its bus-slot arrays, the plugin instance and its shared
  host context, the Rust `Vst3` and `Vst2` objects, and the VST2 host. Each
  method is proved against a pure function of the old state, and the
  properties are proved about that function.

Some behaviours of the code are easy to misread; the model follows the code:

- `TranslateMidi` compares the whole status byte: the note-on branch is
  taken only for exactly `0x90` and the note-off branch only for exactly
  `0x80`. Every other status byte, including `0x91` (note-on, channel 2) and
  `0x81`–`0x8F`, still adds the zero-initialised event. Its type is 0, which
  is `kNoteOnEvent` in the VST3 SDK, so the plugin receives a note-on of key
  0 with velocity 0, length 0 and note id 0.
- `InitResult`: `init` returns true for a module that loads but has no
  audio-effect class, although no plugin is then set up.
- `TimeInfoFlagsFor`: in the VST2 time info, `Recording` sets only the
  recording flag, not the playing flag. `ContextFlagsFor` in the VST3 bridge
  sets the playing flag for every state but Stopped.
- `LastUpdateFor`: `last_param_updates` keeps the last update for each id in
  input order. The block time it stores is never consulted, although its doc
  comment speaks of the latest sample.
- `ParamEdits.EndEditStep` emits the end-of-gesture notification while the mutex is
  still held. Since each call is atomic in the model, this makes no
  difference here.

## Model

| member | source | states |
|---|---|---|
| Common.AsI32 | src/formats/vst2.rs:620 | the `as i32` cast gives the unique value in [-2^31, 2^31) congruent to the input modulo 2^32, and is the identity on that range |
| Common.AsU32 | vst3-wrapper/source/vst3wrapper.cpp:33 | the `int32_t` to `ParamID` conversion gives the unique value in [0, 2^32) congruent to the input, and is the identity on that range |
| Common.AsUsize | vst3-wrapper/source/vst3wrapper.cpp:60-61 | the `uintptr_t` cast gives the unique value in [0, 2^64) congruent to the input, and is the identity on that range |
| Common.AsI64 | src/formats/vst2.rs:482-484 | the `as isize` cast gives the unique value in [-2^63, 2^63) congruent to the input, and is the identity on that range |
| Common.Filter | src/formats/vst2.rs:573-576 | keeping the elements that satisfy a predicate gives no more elements than the input, and an element is in the result exactly when it is in the input and satisfies the predicate |
| Common.FilterAppend | src/formats/vst3/mod.rs:158-167 | filtering distributes over concatenation |
| Common.FilterKeepsAll | src/formats/vst2.rs:573-576 | filtering a list whose every element passes returns it unchanged |
| Common.FilterCommutes | src/formats/vst2.rs:573-576 | filtering by two predicates gives the same list in either order |
| Ring.Pushed | src/formats/vst3/mod.rs:49 | a push onto a queue below capacity appends the element; at capacity the queue is unchanged |
| Ring.BoundedQueue.TryPush | src/formats/vst3/mod.rs:64 | `try_push` succeeds exactly when the ring has room, appends at the back, and otherwise drops the element |
| Ring.BoundedQueue.TryPop | src/formats/vst3/mod.rs:135 | `try_pop` returns None on an empty ring, and otherwise removes and returns the oldest element |
| Transport.IsPlaying | src/lib.rs:60-69 | `is_playing` is false exactly for Stopped |
| Transport.DefaultProcessDetails | src/lib.rs:34-49 | the default has sample rate 44100, block size 512, tempo 120, 4/4 time, zero positions and nanos, no cycle, and the default playing state Stopped, so it is not playing |
| Discovery.LowerChar | src/discovery.rs:31 | the ASCII part of lowercasing: `A`–`Z` map to `a`–`z`, and every other character is left alone (non-ASCII case folding is not modelled) |
| Discovery.ToLower | src/discovery.rs:31 | the ASCII lowercasing of the path, character by character, so of the same length |
| Discovery.IsVst2AsWritten | src/discovery.rs:26-51 | `is_vst2` as written can fail only when contents are checked on an existing path whose lowercased spelling does not exist |
| Discovery.IsVst2 | src/discovery.rs:26-51 | false for a missing path; without a content check, true exactly for an existing path with a `.dll`, `.so` or `.vst` extension in any case; with the check, additionally exactly when the file exports `VSTPluginMain` |
| Discovery.MixedCasePathPanics | src/discovery.rs:31-40 | an existing mixed-case `.so` plugin makes the as-written function fail, while the corrected one accepts it |
| Discovery.AsWrittenAgreesOnLowerCasePaths | src/discovery.rs:26-51 | on lower-case paths, or without a content check, the as-written and corrected functions agree |
| Discovery.DetectionIgnoresCase | src/discovery.rs:31-61 | all three extension tests give the same answer for a path and for its lowercased form |
| Discovery.UpperCaseExtensions | src/discovery.rs:31-61 | `.VST3`, `.CLAP`, `.DLL`, `.SO` and `.VST` in upper case are recognised |
| Discovery.FormatsAreExclusive | src/discovery.rs:32-60 | no path passes more than one of the VST2-extension, `.vst3` and `.clap` tests |
| Vst3Format.LastUpdateFor | src/formats/vst3/mod.rs:158-168 | the update kept for an id is present exactly when some Parameter event has that id, and it is the one from the last such event in input order |
| Vst3Format.LastUpdateIgnoresMidiAndTimes | src/formats/vst3/mod.rs:158-168 | two event lists with the same Parameter events in the same order give the same update per id, whatever MIDI events and block times they carry |
| Vst3Format.LastUpdateOfFiltered | src/formats/vst3/mod.rs:158-168 | dropping the MIDI events first does not change the update kept for any id |
| Vst3Format.LastParamUpdates | src/formats/vst3/mod.rs:150-171 | the result holds exactly the last update for each id that has one, with no id twice (order unspecified, as with the hash map) |
| Vst3Format.LatestPerId | src/formats/vst3/mod.rs:157-168 | the loop's map holds, for exactly the ids with a Parameter event, the last update for that id; the key list lists each of those ids once |
| Vst3Format.ValuesOf | src/formats/vst3/mod.rs:170 | collecting the map's values gives one value per key, in key order |
| Vst3Format.ForwardedIsFiltered | src/formats/vst3/mod.rs:134-146 | the controller calls made by draining the ring are, in FIFO order, exactly the (id, value) pairs of the queued updates whose value is not NaN |
| Vst3Format.ForwardedNeverNaN | src/formats/vst3/mod.rs:136 | no NaN value is ever forwarded to the edit controller |
| Vst3Format.GetPresetData | src/formats/vst3/mod.rs:75-98 | the result is Err exactly when the wrapper returns null; otherwise it is the first `len` bytes, and the stream is freed exactly in that case |
| Vst3Format.Vst3.Process | src/formats/vst3/mod.rs:56-66 | `process` only appends to the ring; each update it pushes is the last one for its id, no id is pushed twice, and either every id's last update was pushed or the 512-slot ring is full |
| Vst3Format.Vst3.EditorUpdates | src/formats/vst3/mod.rs:134-146 | `editor_updates` leaves the ring empty and appends the forwarded calls for its old contents to the controller's call log |
| Vst3Format.Vst3.GetLatency | src/formats/vst3/mod.rs:130-132 | the latency is always 0 |
| Vst3Format.Vst3.Suspend | src/formats/vst3/mod.rs:122 | suspend changes nothing |
| Vst3Format.Vst3.Resume | src/formats/vst3/mod.rs:124 | resume changes nothing |
| Vst2Callbacks.Position | src/formats/vst2.rs:404-407 | the position of the first gesture for an index, or None exactly when no gesture has that index |
| Vst2Callbacks.Without | src/formats/vst2.rs:421 | `retain` removes every occurrence of the index and keeps the count of every other value |
| Vst2Callbacks.RemoveAt | src/formats/vst2.rs:502 | `Vec::remove` drops exactly the element at the position and shifts the rest down |
| Vst2Callbacks.AutomateStep | src/formats/vst2.rs:398-436 | `automate` always emits an update with the index, the value and `end_edit == Some(false)`, and always drops the index from `just_started`; if the index was just started or not being edited, it appends a new gesture and reports no initial value; otherwise it updates only the first matching gesture's current value and reports its initial value |
| Vst2Callbacks.BeginEditStep | src/formats/vst2.rs:486-492 | `begin_edit` appends the index to `just_started`, leaves the gestures alone and emits nothing |
| Vst2Callbacks.EndEditStepAsWritten | src/formats/vst2.rs:494-514 | `end_edit` as written removes the first matching gesture and reports its list position as the parameter id; with no match it does nothing |
| Vst2Callbacks.EndEditStep | src/formats/vst2.rs:494-514 | the corrected `end_edit` removes the first matching gesture and reports the index with that gesture's current and initial values and `end_edit == Some(true)`; with no match it emits nothing and changes nothing |
| Vst2Callbacks.EndEditReportsPosition | src/formats/vst2.rs:497-506 | after begin, automate and end on index 7, the as-written `end_edit` reports id 0 where the corrected one reports 7 |
| Vst2Callbacks.AutomateCanDuplicate | src/formats/vst2.rs:409-414 | a `begin_edit` then `automate` on an index already being edited adds a second gesture for that index |
| Vst2Callbacks.Automations | src/formats/vst2.rs:398 | a run of `automate` calls on one index, one per value |
| Vst2Callbacks.Dragged | src/formats/vst2.rs:415-434 | the updates a drag reports: each later value with the first value as its initial value |
| Vst2Callbacks.OpenGesture | src/formats/vst2.rs:398-492 | begin and one automate on an idle index append one gesture and report the first value with no initial value |
| Vst2Callbacks.DragGesture | src/formats/vst2.rs:404-434 | a further automate on that gesture replaces its current value and reports the first value as initial |
| Vst2Callbacks.GestureInProgress | src/formats/vst2.rs:398-492 | after begin and any number of automates, exactly one gesture is open, holding the last value, and the reported updates are the first value followed by each later value |
| Vst2Callbacks.EditGesture | src/formats/vst2.rs:398-514 | a complete begin/automate.../end gesture on an idle index restores the state exactly and reports the first value, each later value, then an end of edit carrying the last value and the first as initial |
| Vst2Callbacks.TimeInfoFlagsFor | src/formats/vst2.rs:443-461 | tempo, time signature, nanoseconds, PPQ position and bars are always valid; cycle active and cycle position valid exactly with a cycle; recording exactly for Recording; playing exactly for Playing and OfflineRendering |
| Vst2Callbacks.TimeInfoFor | src/formats/vst2.rs:438-476 | the time info is always present, never both playing and recording, copies the cycle (or zeros), the transport values and the time signature as `i32` |
| Vst2Callbacks.DefaultTimeInfo | src/formats/vst2.rs:443-461 | with the default transport only the always-valid flags are set and the numerator is 4 |
| Vst2Callbacks.ProcessLevelFor | src/formats/vst2.rs:546-551 | the process level is Offline exactly for OfflineRendering |
| Vst2Callbacks.CanDo | src/formats/vst2.rs:523-533 | `can_do` answers 1 for exactly the four listed capabilities and 0 otherwise |
| Vst2Callbacks.HostLanguageFor | src/formats/vst2.rs:535-544 | each host language maps to its VST2 language, English by default, and Japanese is never reported |
| Vst2Callbacks.FindEditing | src/formats/vst2.rs:404-407 | the search loop finds the first gesture for the index |
| Vst2Callbacks.RetainOthers | src/formats/vst2.rs:421 | the `retain` loop removes exactly the index |
| Vst2Callbacks.Vst2Host.Automate | src/formats/vst2.rs:398-436 | the host's tracker takes the `automate` step and the emitted update is try-pushed to the plugin-event queue |
| Vst2Callbacks.Vst2Host.BeginEdit | src/formats/vst2.rs:486-492 | the host's tracker takes the `begin_edit` step |
| Vst2Callbacks.Vst2Host.EndEdit | src/formats/vst2.rs:494-514 | the host's tracker takes the corrected `end_edit` step, and an update is pushed only when a gesture ended |
| Vst2Callbacks.Vst2Host.UpdateDisplay | src/formats/vst2.rs:516-521 | pushes UpdateDisplay |
| Vst2Callbacks.Vst2Host.SetSize | src/formats/vst2.rs:553-557 | pushes a resize with width and height cast to `usize` |
| Vst2Callbacks.Vst2Host.IoChanged | src/formats/vst2.rs:559-564 | pushes IOChanged |
| Vst2Callbacks.Vst2Host.GetTimeInfo | src/formats/vst2.rs:438-476 | answers with the time info for the shared transport |
| Vst2Callbacks.Vst2Host.GetProcessLevel | src/formats/vst2.rs:546-551 | Offline exactly while the shared transport is OfflineRendering |
| Vst2Callbacks.Vst2Host.GetBlockSize | src/formats/vst2.rs:482-484 | the shared block size as `isize` |
| Vst2Callbacks.Vst2Host.GetInfo | src/formats/vst2.rs:478-480 | version 1 and the host's name and vendor |
| Vst2Callbacks.Vst2Host.GetLanguage | src/formats/vst2.rs:535-544 | the VST2 language for the host's language |
| Vst2Midi.TruncToI8 | src/formats/vst2.rs:625 | the `f32 as i8` cast saturates at -128 and 127 and otherwise truncates toward zero |
| Vst2Midi.MidiEventToVst2Event | src/formats/vst2.rs:605-636 | a MIDI event converts to a VST2 event with the block time as delta frames (cast to `i32`), the note length and MIDI bytes copied, the detune truncated to `i8` and zero note offset and note-off velocity; a non-MIDI event gives None |
| Vst2Midi.InsertPermutes | src/formats/vst2.rs:571 | inserting one event adds exactly that event to the multiset |
| Vst2Midi.InsertSorted | src/formats/vst2.rs:571 | inserting into a time-sorted list keeps it sorted |
| Vst2Midi.SortSortsAndPermutes | src/formats/vst2.rs:571 | the sort by block time yields a sorted permutation of its input |
| Vst2Midi.InsertAtTime | src/formats/vst2.rs:571 | insertion places the new event after every event already at its time |
| Vst2Midi.SortIsStable | src/formats/vst2.rs:571 | the sort is stable: the events at each block time keep their input order |
| Vst2Midi.FilterKeepsSorted | src/formats/vst2.rs:571-576 | filtering a sorted list keeps it sorted |
| Vst2Midi.FilterInsert | src/formats/vst2.rs:571-576 | filtering commutes with insertion into a sorted list |
| Vst2Midi.SortThenFilter | src/formats/vst2.rs:571-576 | sorting all events and then keeping MIDI equals sorting the MIDI events alone |
| Vst2Midi.ConvertMidi | src/formats/vst2.rs:573-576 | one converted event per MIDI event, in order |
| Vst2Midi.Vst2EventListContents | src/formats/vst2.rs:567-603 | the list given to the plugin has one entry per host MIDI event, being the conversion of the stable time-sort of the MIDI events |
| Vst2Midi.DeltaFramesAscending | src/formats/vst2.rs:571-620 | for block times below 2^31 the delta frames never decrease along the list |
| Vst2Midi.EventsBlock | src/formats/vst2.rs:580-590 | the 100-slot `Vst2Events` block holds the list in its first slots, records its length and leaves the rest empty |
| Vst2Midi.FillSlots | src/formats/vst2.rs:588-590 | the fill loop produces exactly that block's slots |
| Vst2Midi.ProcessVst2MidiEventsList | src/formats/vst2.rs:567-603 | panics (None) exactly when there are more than 100 MIDI events; otherwise hands over the block of the converted, sorted MIDI list |
| Vst2Plugin.TrimStart | src/formats/vst2.rs:322-323 | `trim_start` drops exactly the leading white space |
| Vst2Plugin.TrimEnd | src/formats/vst2.rs:322-323 | `trim_end` drops exactly the trailing white space |
| Vst2Plugin.TrimIsTrimmed | src/formats/vst2.rs:322-323 | trimming leaves no white space at either end |
| Vst2Plugin.TrimKeepsTrimmed | src/formats/vst2.rs:322-323 | trimming is the identity on trimmed text, so it is idempotent |
| Vst2Plugin.FormattedValueShape | src/formats/vst2.rs:322-324 | the formatted value is trimmed; it is "text label" when both are non-empty, and only the text or only the label when the other is empty |
| Vst2Plugin.GetParameter | src/formats/vst2.rs:316-333 | the parameter carries the id as both id and index, the plugin's name and value, and the formatted value |
| Vst2Plugin.GetIoConfiguration | src/formats/vst2.rs:335-358 | at most one bus per direction, present exactly when the channel count is positive, carrying that count |
| Vst2Plugin.LifecycleAlternates | src/formats/vst2.rs:130-148 | whatever the sequence of suspend and resume requests, the plugin sees resume, start, stop, suspend in strict rotation |
| Vst2Plugin.Vst2.Suspend | src/formats/vst2.rs:130-138 | suspend is a no-op when Suspended; otherwise it stops processing, suspends and becomes Suspended |
| Vst2Plugin.Vst2.Resume | src/formats/vst2.rs:140-148 | resume is a no-op when Resumed; otherwise it resumes, starts processing and becomes Resumed |
| Vst2Plugin.Vst2.ChangeSampleRate | src/formats/vst2.rs:120-123 | suspends first, then sets the rate |
| Vst2Plugin.Vst2.ChangeBlockSize | src/formats/vst2.rs:125-128 | suspends first, then sets the block size as `i64` |
| Vst2Plugin.FirstBus | src/formats/vst2.rs:249-257 | the plugin is given the first bus of a non-empty list and the empty buffer for an empty one |
| Vst2Plugin.Vst2.Process | src/formats/vst2.rs:226-262 | publishes the transport; sets every parameter event in order; panics exactly on more than 100 MIDI events; otherwise hands over the MIDI block and processes audio bound to the first input and first output bus, or to an empty buffer where there is none; the suspend state is untouched |
| Vst2Plugin.Vst2.SetParameters | src/formats/vst2.rs:239-245 | the loop makes the `set_parameter` calls for the parameter events |
| Vst2Plugin.ParameterCallsMatchEvents | src/formats/vst2.rs:239-245 | one `set_parameter` call per Parameter event, in input order, with that event's id and value |
| ParamEdits.ParameterIndexTable.Record | vst3-wrapper/source/vst3wrapper.cpp:792 | `get_parameter` records the index under the ParamID, replacing any earlier entry |
| ParamEdits.ResolveIndex | vst3-wrapper/source/vst3wrapper.cpp:31-37 | the reported index is the recorded one for the id read as a ParamID, and -1 when there is no table or no entry |
| ParamEdits.ParamIdRoundTrip | vst3-wrapper/source/vst3wrapper.cpp:22-33 | a ParamID passed through the `int32_t` parameter and back is unchanged |
| ParamEdits.RecordedIndexResolves | vst3-wrapper/source/vst3wrapper.cpp:31-37 | after recording an index for a ParamID, that id resolves to it and every other id resolves as before |
| ParamEdits.IndexOf | vst3-wrapper/source/vst3wrapper.cpp:110-112 | the search finds the first tracked gesture for the id, or None exactly when there is none |
| ParamEdits.PerformEditUpdatesOnlyId | vst3-wrapper/source/vst3wrapper.cpp:100-134 | `performEdit` on a tracked id sets only its current value and reports its initial value; on an untracked id it adds a gesture with current = initial = v and reports (v, v); other ids are unaffected; at most one gesture per id is kept |
| ParamEdits.EndEditRemovesOnlyId | vst3-wrapper/source/vst3wrapper.cpp:136-157 | `endEdit` on a tracked id reports its current and initial values as an end of edit and removes exactly that gesture, keeping the others in order; on an untracked id it reports (NaN, NaN) and removes nothing |
| ParamEdits.EditThenEnd | vst3-wrapper/source/vst3wrapper.cpp:122-150 | a perform then end on an idle id reports (v, v, false) then (v, v, true) and restores the gesture list |
| ParamEdits.EditGesture | vst3-wrapper/source/vst3wrapper.cpp:122-157 | `performEdit` with v1 … vn on an idle id, then `endEdit`: each perform reports (vk, v1, not ended), the end reports (vn, v1, ended) once, and the gesture list is restored; with no perform, the end reports NaN values |
| ParamEdits.EndEditKeepsOnePerId | vst3-wrapper/source/vst3wrapper.cpp:136-157 | `endEdit` keeps at most one gesture per id |
| ParamEdits.ComponentHandler.BeginEdit | vst3-wrapper/source/vst3wrapper.cpp:95-98 | `beginEdit` returns kResultOk and does nothing |
| ParamEdits.ComponentHandler.PerformEdit | vst3-wrapper/source/vst3wrapper.cpp:100-134 | without edit state it returns kResultFalse and changes nothing; otherwise it takes the perform-edit step, sends its notification with the resolved index, and returns kResultOk |
| ParamEdits.ComponentHandler.EndEdit | vst3-wrapper/source/vst3wrapper.cpp:136-157 | takes the end-edit step, sends its notification with the resolved index, and returns kResultOk |
| ParamEdits.ComponentHandler.RestartComponent | vst3-wrapper/source/vst3wrapper.cpp:159-167 | sends IOChanged and returns kResultOk |
| ParamEdits.ResizeEvent | vst3-wrapper/source/vst3wrapper.cpp:55-66 | the resize event carries the view's width and height, wrapped to `uintptr_t` when negative |
| ParamEdits.PlugFrame.ResizeView | vst3-wrapper/source/vst3wrapper.cpp:55-66 | sends that resize event and returns kResultOk |
| Bindings.Contents | vst3-wrapper/source/bindings.h:36-41 | a reader sees exactly the first `count` slots of a `HeaplessVec` |
| Bindings.EmptyIOConfiguration | vst3-wrapper/source/vst3wrapper.cpp:442-444 | the zero-initialised configuration has no buses and no event inputs |
| Bindings.EventSink.Send | vst3-wrapper/source/vst3wrapper.cpp:44 | `send_event_to_host` appends the event |
| Vst3Instance.InitRegistry | vst3-wrapper/source/vst3wrapper.cpp:193-197 | `init` adds one reference and ensures a context exists |
| Vst3Instance.DestroyReleasesAtZero | vst3-wrapper/source/vst3wrapper.cpp:515-525 | `_destroy(true)` decrements only a positive count and releases the context exactly when the count is zero with a context present; `_destroy(false)` changes nothing |
| Vst3Instance.RegistryStaysConsistent | vst3-wrapper/source/vst3wrapper.cpp:515-525 | a context exists exactly while the count is positive, and init then destroy restores the registry |
| Vst3Instance.FirstAudioEffect | vst3-wrapper/source/vst3wrapper.cpp:214-218 | the first class whose category is audio effect, or None exactly when there is none |
| Vst3Instance.InitResult | vst3-wrapper/source/vst3wrapper.cpp:190-221 | `init` is false when the module fails to load, is exactly the class-load result when there is an audio-effect class, and is true for a module without one |
| Vst3Instance.StripNul | vst3-wrapper/source/vst3wrapper.cpp:796-801 | the copied name contains exactly the non-NUL characters of the title |
| Vst3Instance.StripNulKeepsText | vst3-wrapper/source/vst3wrapper.cpp:796-817 | text without NULs is kept as is, and a NUL splits the text without losing what follows |
| Vst3Instance.ParameterFor | vst3-wrapper/source/vst3wrapper.cpp:796-830 | the parameter carries the requested index, the value, and the ParamID converted to `int32` (so it converts back); each boolean is set exactly when its flag is present; name and formatted value are the title and the formatted string with every NUL skipped, in order |
| Vst3Instance.VecForContents | vst3-wrapper/source/vst3wrapper.cpp:453-467 | the filled vector holds one bus per channel count, each cast to `size_t` |
| Vst3Instance.IoVecAsWritten | vst3-wrapper/source/vst3wrapper.cpp:453-467 | as written, bus i is stored to slot i and the count grows to the bus count, with no bound |
| Vst3Instance.SeventeenBusesOverflow | vst3-wrapper/source/vst3wrapper.cpp:453-459 | a plugin with 17 input buses makes the loop write slot 16 of a 16-slot vector |
| Vst3Instance.CorrectedAgreesWithinCapacity | vst3-wrapper/source/vst3wrapper.cpp:453-467 | up to 16 buses, the bounded builder stores exactly what the as-written loop stores |
| Vst3Instance.HostContext.Acquire | vst3-wrapper/source/vst3wrapper.cpp:193-197 | one more reference; a context is created only if none exists |
| Vst3Instance.HostContext.Release | vst3-wrapper/source/vst3wrapper.cpp:515-525 | the registry takes the `_destroy(true)` step and nothing new is created |
| Vst3Instance.PluginInstance.Destroy | vst3-wrapper/source/vst3wrapper.cpp:479-526 | `_destroy` releases the loaded class, resets the bus lists, counts, module and name, and updates the registry as above |
| Vst3Instance.PluginInstance.ClearPlugin | vst3-wrapper/source/vst3wrapper.cpp:481-513 | the resets: no class stays loaded, no module, no buses, no name; the IO configuration is kept |
| Vst3Instance.PluginInstance.Init | vst3-wrapper/source/vst3wrapper.cpp:190-354 | `init` destroys without decrementing, takes a reference, keeps the module exactly when it loads, uses only the first audio-effect class (no class when there is none), recomputes the IO configuration and takes the class name and buses exactly when that class loads (otherwise they stay reset), and returns the init result |
| Vst3Instance.PluginInstance.GetIoConfig | vst3-wrapper/source/vst3wrapper.cpp:441-477 | the corrected builder succeeds exactly when neither direction has more than 16 buses, then stores and returns the filled configuration; otherwise it is an error and nothing is stored |
| Vst3Instance.PluginInstance.GetParameter | vst3-wrapper/source/vst3wrapper.cpp:784-831 | records the index for the ParamID and returns the parameter described above |
| Vst3Instance.FillSlots | vst3-wrapper/source/vst3wrapper.cpp:453-459 | the fill loop builds exactly the bounded vector |
| ProcessBridge.ContextFlagsFor | vst3-wrapper/source/vst3wrapper.cpp:649-699 | tempo, time signature, bar position, cycle and system time are always valid; cycle active exactly when the cycle is enabled; playing exactly when not Stopped; recording exactly for Recording |
| ProcessBridge.ProcessModeFor | vst3-wrapper/source/vst3wrapper.cpp:693-697 | the mode is Offline exactly for OfflineRendering |
| ProcessBridge.ContextFor | vst3-wrapper/source/vst3wrapper.cpp:651-679 | the context copies tempo, musical position, the time signature as `int32`, the cycle bounds and system time, with a 60 fps frame rate |
| ProcessBridge.ContextState | vst3-wrapper/source/vst3wrapper.cpp:649-699 | the `state \|=` steps build exactly that flag set |
| ProcessBridge.TranslateMidi | vst3-wrapper/source/vst3wrapper.cpp:706-734 | the event is on bus 0 at the block time; a note-off exactly for status 0x80, otherwise a note-on of length 0; note id -1 exactly for 0x90 and 0x80, which carry channel 0, the key, the velocity byte and the detune; any other status byte gives the all-zero note-on of a zero-initialised event |
| ProcessBridge.OtherChannelsAreZeroed | vst3-wrapper/source/vst3wrapper.cpp:708-734 | status bytes of other channels, such as 0x91 or 0x81, give the all-zero note-on, whose note id is not -1 |
| ProcessBridge.MidiListIsFiltered | vst3-wrapper/source/vst3wrapper.cpp:703-736 | the input event list holds the translations of exactly the MIDI events, in order |
| ProcessBridge.QueueIndex | vst3-wrapper/source/vst3wrapper.cpp:753 | `addParameterData` finds the first queue for the id, or None exactly when there is none |
| ProcessBridge.LastParamEvent | vst3-wrapper/source/vst3wrapper.cpp:738-762 | None exactly when no parameter event has the queue key; otherwise an event with that key at a position after which no event has it |
| ProcessBridge.SetPointEffect | vst3-wrapper/source/vst3wrapper.cpp:753-761 | after clear and addPoint the id's queue holds exactly the new point, and other ids' queues are unchanged |
| ProcessBridge.LastPointWins | vst3-wrapper/source/vst3wrapper.cpp:738-762 | after the loop each id's queue holds exactly one point, from the last parameter event for that id; ids without events keep their queues |
| ProcessBridge.BoundSlots | vst3-wrapper/source/vst3wrapper.cpp:634-640 | slot i is bound to buffer i for every i below the bus count, and other slots are untouched |
| ProcessBridge.InputSlotsAsWritten | vst3-wrapper/source/vst3wrapper.cpp:634-636 | as written, slot 0 ends up with the last input buffer and no other slot changes |
| ProcessBridge.TwoInputBusesShareSlotZero | vst3-wrapper/source/vst3wrapper.cpp:634-640 | with two input buses, as written the second buffer overwrites slot 0 and slot 1 stays unbound; the corrected binding gives buffers 0 and 1 |
| ProcessBridge.BindSlots | vst3-wrapper/source/vst3wrapper.cpp:638-640 | the binding loop over the slot array produces the corrected binding |
| ProcessBridge.ProcessData.Process | vst3-wrapper/source/vst3wrapper.cpp:625-772 | sets the sample count as `int32`, the context and mode; binds output slot i to buffer i, and input slot i to buffer i by the corrected binding; delivers the MIDI list (only with an event input) and the parameter queues to the plugin; leaves the event list empty |
| ProcessBridge.ProcessData.AddMidi | vst3-wrapper/source/vst3wrapper.cpp:701-736 | appends the translations of the MIDI events and touches nothing else |
| ProcessBridge.ProcessData.AddParameterChanges | vst3-wrapper/source/vst3wrapper.cpp:738-762 | the loop leaves the parameter changes as the one-point-per-id queues, touching nothing else |

## Left out

- The SDK and module plumbing are oracles:
  - `Module::create` becomes the `ModuleLoad` parameter, and
    `load_plugin_from_class` becomes the `classLoaded` flag
    (vst3-wrapper/source/vst3wrapper.cpp:207-349). The bus channel counts
    its closing `get_io_config` reads are parameters of `Init`, and so is
    the bus bookkeeping it fills in (`loadedBuses`).
  - Bus arrangement, activation and `setupProcessing` are not modelled.
  - `_audioEffect->process` is represented only by the recorded `Delivery`
    of what the plugin would see.
- The `vst` crate calls on the VST2 plugin (`set_parameter`, `process_events`,
  `process`, `suspend`, `resume`, ...) are recorded as a call log rather
  than executed. Audio sample data is not modelled: only which host bus is
  bound to which slot (VST3) or handed to the plugin (VST2, the first input
  and output bus) is.
- Floating point is not modelled:
  - `projectTimeSamples`, the `ppq_pos` sample position, and the `f64`/`f32`
    conversions of tempo, positions and values are left out;
  - NaN is a sentinel constructor;
  - `TruncToI8` is stated on reals.
- The `TChar` to `char` narrowing in `get_parameter` is not modelled; title
  characters are kept as they are.
- The `EventList` capacity of the SDK and the 400-entry `ParameterChanges`
  container are not visible. The model's event list is unbounded, and so is
  its list of queues. The queues persist from block to block, as the object
  is created once.
- The VST3 SDK headers are not part of this model. That a zero-initialised
  `Event` is a note-on (`kNoteOnEvent` is 0, and the note-on fields come
  first in its union) is taken from the SDK.
- Mutexes, `Arc`, the `ringbuf` producer/consumer split and the
  `AtomicBool` are left out. Each call is one atomic step, so the lock held
  while `endEdit` notifies the host has no effect here.
- String and memory marshalling (`alloc_string`, `free_string`, the data
  stream, the raw-pointer casts in the VST2 MIDI path) are left out.
  `get_preset_data` is modelled only as the choice between null and `len`
  bytes.
- The editor and windowing code (`createView`, `show_gui`, `show_editor`,
  `hide_editor`) and the example host are out of scope.
- The `is_vst2` content scan with `goblin` becomes a set of files known to
  export `VSTPluginMain`, and reading the file becomes membership in the set
  of existing paths.
- `clap.rs` is not modelled: it holds only `todo!()`. The dispatch in
  `formats/mod.rs` is not modelled either, and `scan_directory` is
  `todo!()`.
- Vst3Format.LastParamUpdates: the order of the result is left unspecified,
  as with `HashMap` iteration; it is stated as membership.
- Vst3Format.Vst3.Process: the pushed updates are a ghost out-parameter. The
  contract states which updates can be in the ring, not the hash-map order
  in which they arrive.
- Vst3Instance.PluginInstance.GetIoConfig: this is the corrected builder. It
  returns an error for more than 16 buses of a kind, where the code writes
  past the vector; see Findings.
- Vst2Callbacks.Vst2Host.EndEdit: this is the corrected step that reports the
  index. The code reports the list position; see Findings.
- Vst3Instance.PluginInstance.Destroy: `_io_config` is not reset by
  `_destroy` in the code, and the model keeps it too.
- Vst3Instance.PluginInstance.Init: the IO configuration recomputed after a
  class loads uses the corrected `get_io_config`, so more than 16 buses of a
  kind leave it unchanged where the code writes past the vector; see
  Findings.
- ProcessBridge.ProcessData.Process: inputs are bound by the corrected
  `BoundSlots`, slot i to buffer i. The code writes every input buffer into
  slot 0 (`InputSlotsAsWritten`); see Findings.
- Discovery.LowerChar / Discovery.ToLower: only ASCII letters are folded.
  Rust's `to_lowercase` also folds every other Unicode uppercase letter and
  can lengthen the string (`İ` becomes two characters). The extension tests
  compare ASCII suffixes and are unaffected, but `IsVst2AsWritten` treats a
  path such as `/x/Ä.so` as already lowercase: checked with contents, the
  code would fail there and the model accepts it.

## Findings

| source | as written | input that shows it | evidently intended | confidence | as-written member | corrected member |
|---|---|---|---|---|---|---|
| src/formats/vst2.rs:497-506 | `end_edit` rebinds `index` to the gesture's list position and reports that as the parameter id | begin_edit(7), automate(7, 0.5), end_edit(7) reports parameter id 0 | report the index the plugin passed | not executed | Vst2Callbacks.EndEditReportsPosition | Vst2Callbacks.EndEditStep |
| vst3-wrapper/source/vst3wrapper.cpp:453-467 | bus descriptors are written to `data[i]` of a 16-slot vector with no bound | a plugin with 17 audio input buses writes slot 16 | refuse more than 16 buses instead of overflowing | not executed | Vst3Instance.SeventeenBusesOverflow | Vst3Instance.PluginInstance.GetIoConfig |
| src/discovery.rs:31-40 | after lowercasing, the content scan reads the lowercased path and panics if it cannot | an existing `/Plugins/Synth.so` on a case-sensitive file system, checked with contents | read the file at the original path | not executed | Discovery.MixedCasePathPanics | Discovery.IsVst2 |
| vst3-wrapper/source/vst3wrapper.cpp:634-636 | every input buffer is assigned to `inputs->channelBuffers32`, that is slot 0 | two input buses: slot 0 gets buffer 1 and slot 1 stays unbound | bind input i to slot i, as the output loop does | not executed | ProcessBridge.TwoInputBusesShareSlotZero | ProcessBridge.BoundSlots |
