/** The UI state machine of the radio: the focus ring of UI elements, the application
    state, and the dispatch table that turns one input event into a state change, at most
    one command for the tuner, and at most one read or write of a preset slot. */
module UiState {
  import opened RadioTypes

  // ---------------------------------------------------------------------------
  // The focus ring

  /** Position of an element on the ring, counted from SeekDown: the reference
      definition against which Next and Prev are specified. */
  function Position(e: UIElement): (p: nat)
    requires ValidElement(e)
    ensures p < RING_SIZE
  {
    match e
    case SeekDown => 0
    case FreqControl => 1
    case SeekUp => 2
    case Preset(i) => 3 + i as nat
    case VolumeControl => 3 + NUM_PRESETS as nat
  }

  /** The element at a ring position. */
  function AtPosition(p: nat): (e: UIElement)
    requires p < RING_SIZE
    ensures ValidElement(e) && Position(e) == p
  {
    if p == 0 then UIElement.SeekDown
    else if p == 1 then FreqControl
    else if p == 2 then UIElement.SeekUp
    else if p < 3 + NUM_PRESETS as nat then Preset((p - 3) as u8)
    else VolumeControl
  }

  /** `UIElement::prev`: the element before `e` on the ring. */
  function Prev(e: UIElement): (r: UIElement)
    ensures ValidElement(e) ==> ValidElement(r) && Position(r) == (Position(e) + RING_SIZE - 1) % RING_SIZE
  {
    match e
    case SeekDown => VolumeControl
    case FreqControl => UIElement.SeekDown
    case SeekUp => FreqControl
    case Preset(0) => UIElement.SeekUp
    case Preset(x) => Preset(x - 1)
    case VolumeControl => Preset(NUM_PRESETS - 1)
  }

  /** `UIElement::next`: the element after `e` on the ring. */
  function Next(e: UIElement): (r: UIElement)
    ensures ValidElement(e) ==> ValidElement(r) && Position(r) == (Position(e) + 1) % RING_SIZE
  {
    match e
    case SeekDown => FreqControl
    case FreqControl => UIElement.SeekUp
    case SeekUp => Preset(0)
    case Preset(x) =>
      if x < NUM_PRESETS - 1 then Preset(x + 1) else VolumeControl
    case VolumeControl => UIElement.SeekDown
  }

  /** `Next` applied `k` times. */
  function NextN(e: UIElement, k: nat): UIElement {
    if k == 0 then e else Next(NextN(e, k - 1))
  }

  // ---------------------------------------------------------------------------
  // Application state and preset storage

  /** A snapshot of the fields of `AppState`. */
  datatype AppSnapshot = AppSnapshot(
    freqKhz: u32,
    volume: u8,
    stationInfo: string,
    rssi: u8,
    cursorAt: UIElement,
    cursorSelected: bool)

  /** The state `AppState::new` builds. */
  function Initial(): (s: AppSnapshot)
    ensures Valid(s)
  {
    AppSnapshot(100_000, 5, "", 0, UIElement.SeekDown, false)
  }

  /** The storage keys of the preset slots, indexed by preset number. */
  const PRESET_NAMES: seq<string> := ["preset1", "preset2", "preset3", "preset4"]

  /** The key-value store the presets live in, as the UI loop sees it. */
  type Presets = map<string, u32>

  /** Only the frequency and volume controls can be selected. */
  predicate SelectionInvariant(s: AppSnapshot) {
    s.cursorSelected ==> s.cursorAt == FreqControl || s.cursorAt == VolumeControl
  }

  /** The invariant the UI loop keeps: a drawable cursor, a volume the chip accepts,
      and a selection only on a control that can be selected. */
  predicate Valid(s: AppSnapshot) {
    ValidElement(s.cursorAt) && s.volume <= 15 && SelectionInvariant(s)
  }

  // ---------------------------------------------------------------------------
  // The dispatch table

  /** The ways `process_event` can panic. */
  datatype Fault =
    | Unimplemented        // the `todo!()` arm for station information
    | Unreachable          // the final `unreachable!()` arm
    | FrequencyUnderflow   // `freq_khz -= 100` below zero
    | FrequencyOverflow    // `freq_khz + 100` beyond u32
    | PresetOutOfRange     // `PRESET_NAMES[preset]` with a preset index past the table

  /** The effect of one call of `process_event`: the new state, the new preset store and
      the command sent to the tuner, if any; or the panic that ends the UI thread. */
  datatype Outcome =
    | Done(state: AppSnapshot, presets: Presets, command: Option<OutputCommand>)
    | Panic(fault: Fault)

  /** `AppState::process_event`: the first arm of the table that matches
      `(cursor_at, cursor_selected, event)` decides the effect. */
  function Process(s: AppSnapshot, presets: Presets, e: InputEvent): (r: Outcome)
    ensures r.Done? ==> r.state.stationInfo == s.stationInfo
    ensures r.Done? ==> r.state.rssi == (if e.ChangeRSSI? then e.rssi else s.rssi)
    ensures r.Done? && r.command.Some? ==> e == ShortPress || e == ScrollUp || e == ScrollDown
    ensures r.Done? && r.presets != presets ==>
              e == LongPress && s.cursorAt.Preset? && !s.cursorSelected
  {
    match (s.cursorAt, s.cursorSelected, e)
    // scrolling through UI elements
    case (_, false, ScrollDown) => Done(s.(cursorAt := Prev(s.cursorAt)), presets, None)
    case (_, false, ScrollUp) => Done(s.(cursorAt := Next(s.cursorAt)), presets, None)
    // events from the radio
    case (_, _, ChangeFrequency(freq)) => Done(s.(freqKhz := freq), presets, None)
    case (_, _, ChangeStationInfo(_)) => Panic(Unimplemented)
    case (_, _, ChangeRSSI(rssi)) => Done(s.(rssi := rssi), presets, None)
    // seek down
    case (SeekDown, false, ShortPress) => Done(s, presets, Some(OutputCommand.SeekDown))
    // (de)selecting the frequency or volume control
    case (FreqControl, _, ShortPress) => Done(s.(cursorSelected := !s.cursorSelected), presets, None)
    case (VolumeControl, _, ShortPress) => Done(s.(cursorSelected := !s.cursorSelected), presets, None)
    // frequency control
    case (FreqControl, true, ScrollDown) =>
      if s.freqKhz < 100 then Panic(FrequencyUnderflow)
      else
        var f := s.freqKhz - 100;
        Done(s.(freqKhz := f), presets, Some(SetFrequency(f)))
    case (FreqControl, true, ScrollUp) =>
      if s.freqKhz as int + 100 > U32_MAX then Panic(FrequencyOverflow)
      else
        var f := s.freqKhz + 100;
        Done(s.(freqKhz := f), presets, Some(SetFrequency(f)))
    // seek up
    case (SeekUp, false, ShortPress) => Done(s, presets, Some(OutputCommand.SeekUp))
    // select preset
    case (Preset(preset), false, ShortPress) =>
      if preset as int >= |PRESET_NAMES| then Panic(PresetOutOfRange)
      else if PRESET_NAMES[preset] in presets then
        var f := presets[PRESET_NAMES[preset]];
        Done(s.(freqKhz := f), presets, Some(SetFrequency(f)))
      else Done(s, presets, None)
    // set preset
    case (Preset(preset), false, LongPress) =>
      if preset as int >= |PRESET_NAMES| then Panic(PresetOutOfRange)
      else Done(s, presets[PRESET_NAMES[preset] := s.freqKhz], None)
    // volume control
    case (VolumeControl, true, ScrollDown) =>
      if s.volume > 0 then
        var v := s.volume - 1;
        Done(s.(volume := v), presets, Some(SetVolume(v)))
      else Done(s, presets, None)
    case (VolumeControl, true, ScrollUp) =>
      if s.volume < 15 then
        var v := s.volume + 1;
        Done(s.(volume := v), presets, Some(SetVolume(v)))
      else Done(s, presets, None)
    // all other user inputs are ignored
    case (_, _, LongPress) => Done(s, presets, None)
    // any other combination
    case _ => Panic(Unreachable)
  }

  // ---------------------------------------------------------------------------
  // The event loop of the UI thread, over a finite prefix of the event stream

  /** What the UI thread has done after a finite sequence of events: the commands it
      sent, in order, and either its current state or the panic that stopped it. */
  datatype Trace =
    | Running(state: AppSnapshot, presets: Presets, commands: seq<OutputCommand>)
    | Crashed(fault: Fault, commands: seq<OutputCommand>)

  function Emitted(c: Option<OutputCommand>): seq<OutputCommand> {
    match c
    case None => []
    case Some(cmd) => [cmd]
  }

  function Prepend(cmds: seq<OutputCommand>, t: Trace): Trace {
    match t
    case Running(s, p, cs) => Running(s, p, cmds + cs)
    case Crashed(f, cs) => Crashed(f, cmds + cs)
  }

  /** The `while let Ok(event) = event_receiver.recv()` loop run over `events`. */
  function Run(s: AppSnapshot, presets: Presets, events: seq<InputEvent>): (t: Trace)
    ensures t.Running? ==> t.state.stationInfo == s.stationInfo
    decreases |events|
  {
    if events == [] then Running(s, presets, [])
    else
      match Process(s, presets, events[0])
      case Panic(f) => Crashed(f, [])
      case Done(s', p', c) => Prepend(Emitted(c), Run(s', p', events[1..]))
  }

  // ---------------------------------------------------------------------------
  // The state object

  /** The persistent key-value store: `get_u32` and `set_u32` of the storage driver,
      with storage faults left out. */
  class Nvs {
    var entries: Presets

    constructor (initial: Presets)
      ensures entries == initial
    {
      entries := initial;
    }

    // A stand-in for the storage driver: its contract is the lookup itself.
    method GetU32(name: string) returns (r: Option<u32>)
      ensures r == if name in entries then Some(entries[name]) else None
    {
      r := if name in entries then Some(entries[name]) else None;
    }

    method SetU32(name: string, value: u32)
      modifies this
      ensures entries == old(entries)[name := value]
    {
      entries := entries[name := value];
    }
  }

  /** `AppState`, owned and updated in place by the UI thread. */
  class AppState {
    var freqKhz: u32
    var volume: u8
    var stationInfo: string
    var rssi: u8
    var cursorAt: UIElement
    var cursorSelected: bool

    function Snapshot(): AppSnapshot
      reads this
    {
      AppSnapshot(freqKhz, volume, stationInfo, rssi, cursorAt, cursorSelected)
    }

    /** `AppState::new`. */
    constructor ()
      ensures Snapshot() == Initial()
      ensures Valid(Snapshot())
    {
      freqKhz := 100_000;
      volume := 5;
      stationInfo := "";
      rssi := 0;
      cursorAt := UIElement.SeekDown;
      cursorSelected := false;
    }

    /** `AppState::process_event`: updates the fields in place, reads or writes one
        preset slot of `nvs`, and returns the command it hands to the command sender.
        The caller must not feed it an event on which the table panics. */
    method ProcessEvent(event: InputEvent, nvs: Nvs) returns (command: Option<OutputCommand>)
      requires Process(Snapshot(), nvs.entries, event).Done?
      modifies this, nvs
      ensures Process(old(Snapshot()), old(nvs.entries), event) == Done(Snapshot(), nvs.entries, command)
      ensures Valid(old(Snapshot())) ==> Valid(Snapshot())
    {
      command := None;
      var at, selected := cursorAt, cursorSelected;
      if !selected && event == ScrollDown {
        // scrolling through UI elements
        cursorAt := Prev(at);
      } else if !selected && event == ScrollUp {
        cursorAt := Next(at);
      } else if event.ChangeFrequency? {
        // events from the radio
        freqKhz := event.freq;
      } else if event.ChangeStationInfo? {
        assert false;
      } else if event.ChangeRSSI? {
        rssi := event.rssi;
      } else if at == UIElement.SeekDown && !selected && event == ShortPress {
        command := Some(OutputCommand.SeekDown);
      } else if (at == FreqControl || at == VolumeControl) && event == ShortPress {
        // (de)selecting the frequency or volume control
        cursorSelected := !selected;
      } else if at == FreqControl && selected && event == ScrollDown {
        freqKhz := freqKhz - 100;
        command := Some(SetFrequency(freqKhz));
      } else if at == FreqControl && selected && event == ScrollUp {
        freqKhz := freqKhz + 100;
        command := Some(SetFrequency(freqKhz));
      } else if at == UIElement.SeekUp && !selected && event == ShortPress {
        command := Some(OutputCommand.SeekUp);
      } else if at.Preset? && !selected && event == ShortPress {
        // select preset
        var stored := nvs.GetU32(PRESET_NAMES[at.index]);
        if stored.Some? {
          freqKhz := stored.value;
          command := Some(SetFrequency(freqKhz));
        }
      } else if at.Preset? && !selected && event == LongPress {
        // set preset
        nvs.SetU32(PRESET_NAMES[at.index], freqKhz);
      } else if at == VolumeControl && selected && event == ScrollDown {
        if volume > 0 {
          volume := volume - 1;
          command := Some(SetVolume(volume));
        }
      } else if at == VolumeControl && selected && event == ScrollUp {
        if volume < 15 {
          volume := volume + 1;
          command := Some(SetVolume(volume));
        }
      } else if event == LongPress {
        // all other user inputs are ignored
      } else {
        assert false;
      }
    }
  }
}
