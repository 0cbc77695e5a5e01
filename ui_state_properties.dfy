/** What the UI state machine guarantees: the focus ring is an 8-cycle, every arm of
    the dispatch table does what it is meant to, the selection invariant is kept, and
    under it the `unreachable!()` arm is never reached. */
module UiStateProperties {
  import opened RadioTypes
  import opened UiState

  // ---------------------------------------------------------------------------
  // The focus ring

  /** Ring positions identify elements. */
  lemma PositionInjective(a: UIElement, b: UIElement)
    requires ValidElement(a) && ValidElement(b)
    requires Position(a) == Position(b)
    ensures a == b
  {
  }

  /** `prev` undoes `next` and `next` undoes `prev`. */
  lemma RingInverse(e: UIElement)
    requires ValidElement(e)
    ensures Next(Prev(e)) == e && Prev(Next(e)) == e
  {
    PositionInjective(Next(Prev(e)), e);
    PositionInjective(Prev(Next(e)), e);
  }

  /** `k` steps of `next` advance the ring position by `k`, modulo the ring size. */
  lemma {:induction false} NextNPosition(e: UIElement, k: nat)
    requires ValidElement(e)
    ensures ValidElement(NextN(e, k))
    ensures Position(NextN(e, k)) == (Position(e) + k) % RING_SIZE
  {
    if k > 0 {
      NextNPosition(e, k - 1);
      var prev := NextN(e, k - 1);
      assert Position(Next(prev)) == (Position(prev) + 1) % RING_SIZE;
      SuccMod(Position(e) + k - 1);
    }
  }

  lemma SuccMod(a: nat)
    ensures (a % RING_SIZE + 1) % RING_SIZE == (a + 1) % RING_SIZE
  {
  }

  /** The ring has exactly eight elements: `next` returns to the start after eight steps
      and not before. */
  lemma RingPeriod(e: UIElement)
    requires ValidElement(e)
    ensures NextN(e, RING_SIZE) == e
    ensures forall k: nat :: 0 < k < RING_SIZE ==> NextN(e, k) != e
  {
    NextNPosition(e, RING_SIZE);
    ShiftMod(Position(e), RING_SIZE);
    PositionInjective(NextN(e, RING_SIZE), e);
    forall k: nat | 0 < k < RING_SIZE
      ensures NextN(e, k) != e
    {
      NextNPosition(e, k);
      ShiftMod(Position(e), k);
    }
  }

  lemma ShiftMod(p: nat, k: nat)
    requires p < RING_SIZE && k <= RING_SIZE
    ensures (p + k) % RING_SIZE == p <==> k == 0 || k == RING_SIZE
  {
  }

  /** The order of the ring, starting at SeekDown: SeekDown, FreqControl, SeekUp,
      Preset(0) .. Preset(3), VolumeControl. */
  lemma RingOrder(k: nat)
    requires k < RING_SIZE
    ensures NextN(UIElement.SeekDown, k) == AtPosition(k)
  {
    NextNPosition(UIElement.SeekDown, k);
    PositionInjective(NextN(UIElement.SeekDown, k), AtPosition(k));
  }

  // ---------------------------------------------------------------------------
  // The arms of the dispatch table

  /** While nothing is selected, scrolling only moves the cursor; this arm is tried
      before the frequency and volume arms. */
  lemma ScrollMovesCursor(s: AppSnapshot, p: Presets, e: InputEvent)
    requires !s.cursorSelected
    requires e == ScrollUp || e == ScrollDown
    ensures Process(s, p, e)
         == Done(s.(cursorAt := if e == ScrollUp then Next(s.cursorAt) else Prev(s.cursorAt)), p, None)
  {
  }

  /** Frequency and signal-strength reports from the tuner update their field whatever
      the cursor state, and nothing else. */
  lemma RadioReportsApply(s: AppSnapshot, p: Presets, e: InputEvent)
    requires e.ChangeFrequency? || e.ChangeRSSI?
    ensures Process(s, p, e)
         == Done(if e.ChangeFrequency? then s.(freqKhz := e.freq) else s.(rssi := e.rssi), p, None)
  {
  }

  /** A short press on an unselected seek button sends exactly that seek command and
      changes nothing. */
  lemma SeekPress(s: AppSnapshot, p: Presets)
    requires !s.cursorSelected
    requires s.cursorAt == UIElement.SeekDown || s.cursorAt == UIElement.SeekUp
    ensures Process(s, p, ShortPress)
         == Done(s, p, Some(if s.cursorAt == UIElement.SeekDown then OutputCommand.SeekDown else OutputCommand.SeekUp))
  {
  }

  /** A short press on the frequency or volume control toggles the selection. */
  lemma PressTogglesSelection(s: AppSnapshot, p: Presets)
    requires s.cursorAt == FreqControl || s.cursorAt == VolumeControl
    ensures Process(s, p, ShortPress) == Done(s.(cursorSelected := !s.cursorSelected), p, None)
  {
  }

  /** While the frequency control is selected, a scroll moves the frequency by exactly
      100 kHz in the scroll's direction and sends the new frequency; leaving the u32
      range panics. */
  lemma FrequencyStep(s: AppSnapshot, p: Presets, e: InputEvent)
    requires s.cursorAt == FreqControl && s.cursorSelected
    requires e == ScrollUp || e == ScrollDown
    ensures var f := s.freqKhz as int + (if e == ScrollUp then 100 else -100);
            Process(s, p, e) ==
              if 0 <= f <= U32_MAX then Done(s.(freqKhz := f as u32), p, Some(SetFrequency(f as u32)))
              else Panic(if e == ScrollUp then FrequencyOverflow else FrequencyUnderflow)
  {
  }

  function Min(a: int, b: int): int { if a < b then a else b }
  function Max(a: int, b: int): int { if a < b then b else a }

  /** While the volume control is selected, a scroll moves the volume one step within
      [0, 15], and a command is sent exactly when the volume changed, carrying the new
      volume. */
  lemma VolumeStep(s: AppSnapshot, p: Presets, e: InputEvent)
    requires s.cursorAt == VolumeControl && s.cursorSelected && s.volume <= 15
    requires e == ScrollUp || e == ScrollDown
    ensures var r := Process(s, p, e);
            && r.Done? && r.presets == p
            && r.state == s.(volume := r.state.volume)
            && r.state.volume as int
               == (if e == ScrollUp then Min(s.volume as int + 1, 15) else Max(s.volume as int - 1, 0))
            && (r.command.Some? <==> r.state.volume != s.volume)
            && (r.command.Some? ==> r.command.value == SetVolume(r.state.volume))
  {
  }

  /** A long press on an unselected preset stores the current frequency in its slot
      and changes nothing else. */
  lemma PresetStore(s: AppSnapshot, p: Presets)
    requires s.cursorAt.Preset? && s.cursorAt.index < NUM_PRESETS && !s.cursorSelected
    ensures Process(s, p, LongPress) == Done(s, p[PRESET_NAMES[s.cursorAt.index] := s.freqKhz], None)
  {
  }

  /** A short press on an unselected preset tunes to the stored frequency and sends it;
      on an empty slot it does nothing. */
  lemma PresetRecall(s: AppSnapshot, p: Presets)
    requires s.cursorAt.Preset? && s.cursorAt.index < NUM_PRESETS && !s.cursorSelected
    ensures var name := PRESET_NAMES[s.cursorAt.index];
            Process(s, p, ShortPress) ==
              if name in p then Done(s.(freqKhz := p[name]), p, Some(SetFrequency(p[name])))
              else Done(s, p, None)
  {
  }

  /** The presets are four distinct slots. */
  lemma PresetNamesDistinct(i: nat, j: nat)
    requires i < |PRESET_NAMES| && j < |PRESET_NAMES| && i != j
    ensures PRESET_NAMES[i] != PRESET_NAMES[j]
  {
    assert PRESET_NAMES[i][6] != PRESET_NAMES[j][6];
  }

  /** Storing a preset and later recalling it, from any state whose cursor is back on
      that preset, retunes to the stored frequency; recalling another slot sees that
      slot's old value. */
  lemma PresetRoundTrip(s: AppSnapshot, p: Presets, t: AppSnapshot, j: u8)
    requires s.cursorAt.Preset? && s.cursorAt.index < NUM_PRESETS && !s.cursorSelected
    requires !t.cursorSelected && j < NUM_PRESETS
    ensures var stored := Process(s, p, LongPress).presets;
            var i := s.cursorAt.index;
            && (j == i ==> Process(t.(cursorAt := Preset(j)), stored, ShortPress)
                           == Done(t.(cursorAt := Preset(j), freqKhz := s.freqKhz), stored,
                                   Some(SetFrequency(s.freqKhz))))
            && (j != i ==> Process(t.(cursorAt := Preset(j)), stored, ShortPress)
                           == Process(t.(cursorAt := Preset(j)), p, ShortPress).(presets := stored))
  {
    var i := s.cursorAt.index;
    if j != i {
      PresetNamesDistinct(i as nat, j as nat);
    }
  }

  // ---------------------------------------------------------------------------
  // The invariant and the unreachable arm

  /** Every arm that does not panic keeps the state valid. */
  lemma ProcessKeepsValid(s: AppSnapshot, p: Presets, e: InputEvent)
    requires Valid(s)
    requires Process(s, p, e).Done?
    ensures Valid(Process(s, p, e).state)
  {
  }

  /** Under the selection invariant, every event other than station information is
      matched by some arm before `unreachable!()`. */
  lemma UnreachableArmNotReached(s: AppSnapshot, p: Presets, e: InputEvent)
    requires SelectionInvariant(s)
    requires !e.ChangeStationInfo?
    ensures Process(s, p, e) != Panic(Unreachable)
  {
  }

  /** The invariant is exactly what keeps the `unreachable!()` arm away: any state that
      breaks it reaches that arm on a short press. */
  lemma UnreachableArmNeedsInvariant(s: AppSnapshot, p: Presets)
    requires !SelectionInvariant(s)
    ensures Process(s, p, ShortPress) == Panic(Unreachable)
  {
  }

  /** From a valid state the table panics only on station information and on a manual
      frequency step out of the u32 range. */
  lemma PanicsExactly(s: AppSnapshot, p: Presets, e: InputEvent)
    requires Valid(s)
    ensures Process(s, p, e).Panic? <==>
              || e.ChangeStationInfo?
              || (s.cursorAt == FreqControl && s.cursorSelected && e == ScrollDown && s.freqKhz < 100)
              || (s.cursorAt == FreqControl && s.cursorSelected && e == ScrollUp && s.freqKhz as int + 100 > U32_MAX)
  {
  }

  // ---------------------------------------------------------------------------
  // Runs of the event loop

  /** Along any run of the event loop from a valid state, the state stays valid. */
  lemma {:induction false} RunKeepsValid(s: AppSnapshot, p: Presets, events: seq<InputEvent>)
    requires Valid(s)
    ensures Run(s, p, events).Running? ==> Valid(Run(s, p, events).state)
    decreases |events|
  {
    if events != [] {
      var r := Process(s, p, events[0]);
      if r.Done? {
        ProcessKeepsValid(s, p, events[0]);
        RunKeepsValid(r.state, r.presets, events[1..]);
      }
    }
  }

  /** The event loop sends at most one command per event. */
  lemma {:induction false} RunCommandsBounded(s: AppSnapshot, p: Presets, events: seq<InputEvent>)
    ensures |Run(s, p, events).commands| <= |events|
    decreases |events|
  {
    if events != [] {
      var r := Process(s, p, events[0]);
      if r.Done? {
        RunCommandsBounded(r.state, r.presets, events[1..]);
      }
    }
  }

  function Repeat(e: InputEvent, k: nat): (r: seq<InputEvent>)
    ensures |r| == k && forall i :: 0 <= i < k ==> r[i] == e
  {
    if k == 0 then [] else [e] + Repeat(e, k - 1)
  }

  /** `k` scrolls up on the selected volume control raise the volume to at most 15,
      sending one command per actual step, with the volumes in order. */
  lemma {:induction false} VolumeUpClamps(s: AppSnapshot, p: Presets, k: nat)
    requires s.cursorAt == VolumeControl && s.cursorSelected && s.volume <= 15
    decreases k
    ensures var t := Run(s, p, Repeat(ScrollUp, k));
            var top := Min(s.volume as int + k, 15);
            && t.Running? && t.presets == p
            && t.state == s.(volume := top as u8)
            && |t.commands| == top - s.volume as int
            && forall i :: 0 <= i < |t.commands| ==> t.commands[i] == SetVolume((s.volume as int + i + 1) as u8)
  {
    if k > 0 {
      var es := Repeat(ScrollUp, k);
      assert es[0] == ScrollUp && es[1..] == Repeat(ScrollUp, k - 1);
      VolumeStep(s, p, ScrollUp);
      var r := Process(s, p, ScrollUp);
      VolumeUpClamps(r.state, p, k - 1);
    }
  }

  /** `k` scrolls down on the selected volume control lower the volume to at least 0,
      sending one command per actual step, with the volumes in order. */
  lemma {:induction false} VolumeDownClamps(s: AppSnapshot, p: Presets, k: nat)
    requires s.cursorAt == VolumeControl && s.cursorSelected && s.volume <= 15
    decreases k
    ensures var t := Run(s, p, Repeat(ScrollDown, k));
            var bottom := Max(s.volume as int - k, 0);
            && t.Running? && t.presets == p
            && t.state == s.(volume := bottom as u8)
            && |t.commands| == s.volume as int - bottom
            && forall i :: 0 <= i < |t.commands| ==> t.commands[i] == SetVolume((s.volume as int - i - 1) as u8)
  {
    if k > 0 {
      var es := Repeat(ScrollDown, k);
      assert es[0] == ScrollDown && es[1..] == Repeat(ScrollDown, k - 1);
      VolumeStep(s, p, ScrollDown);
      var r := Process(s, p, ScrollDown);
      VolumeDownClamps(r.state, p, k - 1);
    }
  }

  /** From the initial state, two scrolls up and a short press reach the seek-up
      button and send exactly one SeekUp command, leaving nothing selected. */
  lemma SeekUpScenario(p: Presets)
    ensures Run(Initial(), p, [ScrollUp, ScrollUp, ShortPress])
         == Running(Initial().(cursorAt := UIElement.SeekUp), p, [OutputCommand.SeekUp])
  {
    var es := [ScrollUp, ScrollUp, ShortPress];
    assert es[1..] == [ScrollUp, ShortPress] && es[2..] == [ShortPress] && es[3..] == [];
  }

  /** Storing 95500 kHz in the third preset, being retuned by the tuner, moving away and
      back and pressing the preset again restores 95500 kHz and sends it. */
  lemma PresetScenario(s: AppSnapshot, p: Presets)
    requires s.cursorAt == Preset(2) && !s.cursorSelected && s.freqKhz == 95_500
    ensures Run(s, p, [LongPress, ChangeFrequency(88_000), ScrollUp, ScrollDown, ShortPress])
         == Running(s, p[PRESET_NAMES[2] := 95_500], [SetFrequency(95_500)])
  {
    var es := [LongPress, ChangeFrequency(88_000), ScrollUp, ScrollDown, ShortPress];
    assert es[1..][1..][1..][1..][1..] == [];
    var q := p[PRESET_NAMES[2] := 95_500];
    assert Process(s, p, LongPress) == Done(s, q, None);
    var s1 := s.(freqKhz := 88_000);
    assert Process(s1.(cursorAt := Preset(3)), q, ScrollDown) == Done(s1, q, None);
  }
}
