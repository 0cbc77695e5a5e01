# FM radio control core

This is a model of the control layer of an ESP32 FM radio built around an RDA5807M tuner chip, a rotary encoder with a push button, and an SSD1306 display. Four threads cooperate over channels:

- The **button listener** measures each press and classifies it as a bounce, a short press or a long press.
- The **encoder listener** turns the rising clock edges of the rotary encoder into scroll events. It drops every other edge.
- The **tuner thread** starts the chip. It then polls the chip every 100 ms. Each cycle applies at most one queued command and reports changes of signal strength (RSSI) and of frequency.
- The **UI loop** owns `AppState`. It feeds every event through a first-match dispatch table keyed on `(cursor_at, cursor_selected, event)`. The table moves a cursor around a ring of UI elements, toggles the selection of the frequency and volume controls, steps the frequency or volume, stores and recalls four preset frequencies in non-volatile storage, and sends commands to the tuner.

Modules:

- `RadioTypes` (`radio_types.dfy`): the shared types of `radio/src/main.rs`. `u8` and `u32` are newtypes over their exact ranges.
- `UiState` (`ui_state.dfy`): the focus ring, the dispatch table `Process` as a function, and the classes `AppState` and `Nvs`. `AppState.ProcessEvent` updates the state in place and is proved to agree with `Process`.
- `UiStateProperties` (`ui_state_properties.dfy`): what the table guarantees, arm by arm, the selection invariant, and runs of the event loop.
- `Tuner` (`tuner.dfy`): the start-up calls and the polling loop. The loop is a method over a finite sequence of chip readings, proved against the function `Poll`.
- `TunerProperties` (`tuner_properties.dfy`): start-up order, FIFO command draining, and the exact reporting conditions.
- `Input` (`input.dfy`): the two listeners of `radio/src/input.rs`. `src/input.rs` has the same two loops with doc comments, so one model covers both files.
- `InputProperties` (`input_properties.dfy`): the press thresholds and the edge filter.

Modelling choices:

- **Panics.** A panic of `process_event` is an outcome `Panic(fault)`, not a precondition. This covers the `todo!()` for station info, the `unreachable!()` arm, `freq_khz ± 100` leaving the `u32` range, and a preset index past the name table. Overflow panics as in a debug build.
- **Storage.** The preset store is a map from the slot names `"preset1"` … `"preset4"` to `u32` values.
- **Command sender.** The command sent by one event is an `Option`. The commands sent by a run are a sequence.
- **Focus ring size.** The ring has **eight** elements: `SeekDown`, `FreqControl`, `SeekUp`, `Preset(0)` to `Preset(3)`, `VolumeControl`. That follows from `NUM_PRESETS = 4` in `radio/src/main.rs:41` and from the code of `prev` and `next`. `RingPeriod` proves that the period is exactly 8.

## Model

| member | source | states |
|---|---|---|
| UiState.Position | radio/src/main.rs:32-39 | each valid element (a preset index below `NUM_PRESETS`) has a ring position below 8 |
| UiState.AtPosition | radio/src/state.rs:7-31 | every ring position below 8 holds exactly one valid element; it inverts `Position` |
| UiState.Prev | radio/src/state.rs:7-18 | `prev` of a valid element is valid and sits one position back on the ring, modulo 8 (`SeekDown` goes to `VolumeControl`, `Preset(0)` to `SeekUp`) |
| UiState.Next | radio/src/state.rs:20-31 | `next` of a valid element is valid and sits one position forward on the ring, modulo 8 (`Preset(3)` goes to `VolumeControl`, `VolumeControl` to `SeekDown`) |
| UiState.Initial | radio/src/state.rs:35-44 | the state `new` builds satisfies the invariant: a valid cursor, volume at most 15, nothing selected |
| UiState.Process | radio/src/state.rs:53-130 | the dispatch table never changes the station info; it changes rssi only on `ChangeRSSI`; it sends a command only on a short press or a scroll; it changes the preset store only on a long press on an unselected preset |
| UiState.Run | radio/src/main.rs:108-111 | the event loop over a finite sequence of events, stopping at the first panic; while it runs, the station info never changes |
| UiState.Nvs.constructor | radio/src/main.rs:62-64 | the store opens with the given entries |
| UiState.Nvs.GetU32 | radio/src/state.rs:95 | `get_u32` returns the stored value or nothing when the key is absent |
| UiState.Nvs.SetU32 | radio/src/state.rs:103-105 | `set_u32` overwrites exactly one key and leaves all other entries |
| UiState.AppState.constructor | radio/src/state.rs:35-44 | `new` gives 100 000 kHz, volume 5, empty station info, rssi 0, cursor on `SeekDown`, nothing selected, and that state keeps the invariant |
| UiState.AppState.ProcessEvent | radio/src/state.rs:46-131 | the in-place update of the fields, the preset store and the command sent equal those of the dispatch table, on every event on which the table does not panic, and the invariant is kept |
| UiStateProperties.PositionInjective | radio/src/state.rs:7-31 | distinct valid elements have distinct positions |
| UiStateProperties.RingInverse | radio/src/state.rs:7-31 | `next(prev(e)) == e` and `prev(next(e)) == e` for every valid element |
| UiStateProperties.NextNPosition | radio/src/state.rs:20-31 | `k` steps of `next` move a valid element `k` positions forward, modulo 8, and keep it valid |
| UiStateProperties.RingPeriod | radio/src/state.rs:20-31 | 8 steps of `next` return to the start and no smaller positive number of steps does |
| UiStateProperties.RingOrder | radio/src/state.rs:23-29 | from `SeekDown`, `next` visits `FreqControl`, `SeekUp`, `Preset(0)` … `Preset(3)`, `VolumeControl` in that order |
| UiStateProperties.ScrollMovesCursor | radio/src/state.rs:55-56 | while nothing is selected, a scroll moves only the cursor, to `next` or `prev`, and sends nothing, whatever the cursor |
| UiStateProperties.RadioReportsApply | radio/src/state.rs:59-61 | a frequency or rssi report sets that field alone, whatever the cursor state, and sends nothing |
| UiStateProperties.SeekPress | radio/src/state.rs:64-91 | a short press on an unselected seek button sends exactly that seek and changes nothing |
| UiStateProperties.PressTogglesSelection | radio/src/state.rs:69-71 | a short press on the frequency or volume control toggles the selection and changes nothing else |
| UiStateProperties.FrequencyStep | radio/src/state.rs:74-86 | with the frequency control selected, a scroll moves the frequency by exactly 100 kHz in its direction and sends the new frequency; leaving the u32 range panics |
| UiStateProperties.VolumeStep | radio/src/state.rs:108-123 | with the volume control selected, a scroll moves the volume one step within 0 to 15; a `SetVolume` carrying the new volume is sent exactly when the volume changed |
| UiStateProperties.PresetStore | radio/src/state.rs:103-105 | a long press on an unselected preset stores the current frequency in that slot and changes nothing else |
| UiStateProperties.PresetRecall | radio/src/state.rs:94-101 | a short press on an unselected preset tunes to the stored frequency and sends it; on an empty slot it does nothing |
| UiStateProperties.PresetNamesDistinct | radio/src/state.rs:52 | the four slot names are pairwise distinct |
| UiStateProperties.PresetRoundTrip | radio/src/state.rs:94-105 | after storing into a slot, recalling that slot from any unselected state retunes to the stored frequency; recalling another slot behaves as before the store |
| UiStateProperties.ProcessKeepsValid | radio/src/state.rs:53-129 | every arm that does not panic keeps the invariant: a valid cursor, volume at most 15, and a selection only on the frequency or volume control |
| UiStateProperties.UnreachableArmNotReached | radio/src/state.rs:125-129 | under the selection invariant, no event other than station info reaches `unreachable!()` |
| UiStateProperties.UnreachableArmNeedsInvariant | radio/src/state.rs:125-129 | any state that breaks the selection invariant reaches `unreachable!()` on a short press |
| UiStateProperties.PanicsExactly | radio/src/state.rs:53-130 | from a valid state the table panics exactly on station info and on a manual frequency step out of the u32 range |
| UiStateProperties.RunKeepsValid | radio/src/main.rs:108-111 | along every run of the event loop from a valid state, the state stays valid |
| UiStateProperties.RunCommandsBounded | radio/src/main.rs:108-111 | the event loop sends at most one command per event |
| UiStateProperties.VolumeUpClamps | radio/src/state.rs:116-123 | `k` scrolls up on the selected volume control give volume `min(v+k, 15)`, with one `SetVolume` per actual step, in order |
| UiStateProperties.VolumeDownClamps | radio/src/state.rs:108-115 | `k` scrolls down on the selected volume control give volume `max(v−k, 0)`, with one `SetVolume` per actual step, in order |
| UiStateProperties.SeekUpScenario | radio/src/state.rs:88-91 | from the initial state, two scrolls up and a short press send exactly one `SeekUp` |
| UiStateProperties.PresetScenario | radio/src/state.rs:93-105 | storing 95 500 kHz, being retuned, moving away and back, and pressing again restores 95 500 kHz and sends it |
| Tuner.Startup | radio/src/tuner.rs:29-34 | the five start-up calls begin with `start` and contain no status read |
| Tuner.Apply | radio/src/tuner.rs:42-49 | each command maps to its chip call, with seeks wrapping around the band, and the command is recovered from that call |
| Tuner.AbsDiff | radio/src/tuner.rs:52 | `abs_diff` is the distance between the two `u8` values |
| Tuner.PollOnce | radio/src/tuner.rs:39-78 | one cycle makes four chip calls, or five when a command was queued, starting with the status read; it sends at most two events and removes exactly the head of the queue |
| Tuner.Poll | radio/src/tuner.rs:39-78 | the loop over one cycle per reading makes between four and five chip calls per cycle and never lengthens the queue |
| Tuner.PollCycle | radio/src/tuner.rs:39-78 | one pass of the loop body makes the chip calls, sends the events and updates the last-reported values and the queue as `PollOnce` says |
| Tuner.StartChip | radio/src/tuner.rs:29-34 | the start-up calls are exactly `Startup()` |
| Tuner.TunerThread | radio/src/tuner.rs:29-78 | the thread's calls are the start-up followed by one cycle per reading from last-reported values 0 and 0; its events and the commands left queued are those of `Poll` |
| TunerProperties.StartupOrder | radio/src/tuner.rs:29-40 | start, a 100 ms wait, seek threshold 35, frequency 100 000 kHz and volume 5 come first, in that order, and the first status read follows |
| TunerProperties.FirstCycle | radio/src/tuner.rs:39-78 | the first cycle of a run is a prefix of the run's calls and events |
| TunerProperties.FirstCycleReports | radio/src/tuner.rs:36-37 | because both last-reported values start at 0, the first cycle reports any non-zero frequency unless a seek has completed, and reports any signal strength above 5 |
| TunerProperties.ApplyRoundTrip | radio/src/tuner.rs:42-49 | the command is recoverable from its chip call, so the mapping is one-to-one |
| TunerProperties.CycleShape | radio/src/tuner.rs:40-77 | a cycle reads the status first, then applies the head of the queue (if any) and removes exactly that one, then reads rssi and frequency, then sleeps 100 ms |
| TunerProperties.RssiReport | radio/src/tuner.rs:51-55 | `ChangeRSSI(rssi)` is sent exactly when the strength moved by more than 5, and only then is the last-reported strength updated |
| TunerProperties.FrequencyReport | radio/src/tuner.rs:57-65 | `ChangeFrequency(freq)` is sent exactly when the frequency differs from the last report and no seek has completed; otherwise the last-reported frequency stays |
| TunerProperties.ReportOrder | radio/src/tuner.rs:51-65 | a cycle sends at most two events; an rssi report comes before a frequency report |
| TunerProperties.QueueRemainder | radio/src/tuner.rs:42 | after `n` cycles the queue has lost exactly its first `min(n, length)` commands |
| TunerProperties.QueueDrainedInOrder | radio/src/tuner.rs:42-49 | over `n` cycles the chip receives the first `min(n, length)` queued commands, each once, in queue order |
| TunerProperties.CycleApplies | radio/src/tuner.rs:42-49 | one cycle applies exactly the command at the head of the queue, if any |
| TunerProperties.NoFrequencyReportsAfterSeek | radio/src/tuner.rs:59-60 | while every status says the seek has completed, no frequency report is sent and the last-reported frequency does not move |
| TunerProperties.EventsBounded | radio/src/tuner.rs:51-65 | a run sends at most two events per cycle |
| TunerProperties.SeekSweepScenario | radio/src/tuner.rs:57-65 | a move during a seek is reported once; a move after the seek completed is not reported until seeking resumes |
| Input.ClassifyPress | radio/src/input.rs:18-22 | the classification only ever yields nothing, `ShortPress` or `LongPress` |
| Input.ButtonEvents | radio/src/input.rs:11-24 | what the button loop sends for a sequence of presses: at most one event per press, each a short or a long press |
| Input.ButtonListener | radio/src/input.rs:11-24 | the loop sends, for each measured press in order, its classification |
| Input.EncoderStep | radio/src/input.rs:43-52 | one rising edge always flips `second` and sends, if anything, a scroll up or down |
| Input.EncoderEvents | radio/src/input.rs:37-53 | what the encoder loop sends for a sequence of rising edges: at most one scroll event per edge |
| Input.OnRisingEdge | radio/src/input.rs:43-52 | one edge sends the event the edge filter gives and flips `second` |
| Input.EncoderListener | radio/src/input.rs:37-53 | the loop over the rising edges sends the filtered events from `second == false`; `second` ends true exactly after an odd number of edges |
| InputProperties.PressThresholds | radio/src/input.rs:18-22 | nothing below 50 ms, `ShortPress` exactly from 50 to 599 ms, `LongPress` exactly from 600 ms on |
| InputProperties.PressBoundaries | src/input.rs:20-24 | 49 ms is a bounce, 50 and 599 ms are short, 600 ms is long |
| InputProperties.PressMonotone | src/input.rs:20-24 | holding the button longer never gives a weaker classification |
| InputProperties.OneEventPerPress | src/input.rs:7-25 | the events sent are one per press that is not a bounce, in order: short under 600 ms, long from 600 ms |
| InputProperties.BounceIgnored | src/input.rs:22 | a press under 50 ms adds nothing to what is sent |
| InputProperties.EncoderStepSpec | src/input.rs:50-59 | an edge sends exactly when `second` is false, `ScrollUp` exactly when data equals clock, and `second` always flips |
| InputProperties.EncoderCount | radio/src/input.rs:37-53 | `n` edges from `second == false` send exactly ceil(n/2) events; from `second == true`, floor(n/2) |
| InputProperties.EncoderInformativeEdges | src/input.rs:50-58 | the `k`-th event comes from edge `2k` (counting from 0) when `second` starts false, and its direction is given by that edge's levels |
| InputProperties.OneEventPerDetent | src/input.rs:50-51 | with two rising edges per detent, an even number of edges sends exactly one event per detent |

## Left out

- GPIO edge waits, pin drivers and `Instant` timing. A press is its duration in whole milliseconds. A clock edge is the pair of levels read just after it.
- The I²C bus and the RDA5807M driver. What the chip answers in one cycle (the seek-complete flag, signal strength and frequency) is a parameter `Reading`. The calls made on the chip are logged as `Action`s. Driver errors, which `unwrap` would turn into panics, are not modelled.
- Threads and `mpsc` channels. Each thread's loop runs over a finite input sequence. The tuner's command queue is a `seq` consumed from the front, and the events each thread sends are an output `seq`. Interleaving of the threads is not modelled.
- The infinite loops. The tuner, listener and event loops run over finite prefixes of their inputs.
- `main`'s peripheral, storage and display setup, and `update_ui`: rendering code in modules that are not part of this model. The redraw after each event has no effect on the modelled state.
- Station info. `ChangeStationInfo` reaches a `todo!()`, which is the outcome `Panic(Unimplemented)`. `AppState.ProcessEvent` requires a non-panicking event, so that arm is never entered there. The commented-out RDS reading of the tuner has no behaviour.
- Storage faults. A `get_u32` error is treated like an absent key, as the `if let Ok(Some(..))` does. A failing `set_u32` (an `unwrap` panic) is not modelled.
- Release builds: with overflow checks off, `freq_khz -= 100` and `freq_khz + 100` (radio/src/state.rs:76, radio/src/state.rs:82) wrap modulo 2^32 instead of panicking. The model covers only the checked (debug) arithmetic.
- UiState.AppState.ProcessEvent: does not model the panicking calls. Its precondition excludes them, while `Process` models each panic as an outcome.

## Notes

Two behaviours of the source are worth knowing, and both are proved:

- From a valid state, **manual frequency steps are unbounded** (the source marks this with a TODO). Stepping below 0 kHz or above the `u32` range panics (`PanicsExactly`, `FrequencyStep`).
- Because the tuner's last-reported frequency starts at 0, the first cycle after start-up sends a `ChangeFrequency` for the tuned frequency, unless a seek has just completed (`FirstCycleReports`).
