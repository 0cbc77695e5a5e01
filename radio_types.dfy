/** The values that travel between the threads of the radio: the events the input
    listeners and the tuner thread send to the UI loop, the commands the UI loop sends
    to the tuner thread, the focusable UI elements, and the fixed-width integers they
    carry. */
module RadioTypes {

  /** Rust's `u8`. */
  newtype u8 = x: int | 0 <= x < 0x100

  /** Rust's `u32`. */
  newtype u32 = x: int | 0 <= x < 0x1_0000_0000

  const U32_MAX: int := 0xFFFF_FFFF

  datatype Option<+T> = None | Some(value: T)

  /** An event delivered to the UI loop over the event channel. */
  datatype InputEvent =
    | ShortPress
    | LongPress
    | ScrollDown
    | ScrollUp
    | ChangeFrequency(freq: u32)
    | ChangeStationInfo(info: string)
    | ChangeRSSI(rssi: u8)

  /** A command sent from the UI loop to the tuner thread. */
  datatype OutputCommand =
    | SetFrequency(freq: u32)
    | SetVolume(volume: u8)
    | SeekUp
    | SeekDown

  /** A focusable element of the on-screen UI. */
  datatype UIElement =
    | SeekDown
    | FreqControl
    | SeekUp
    | Preset(index: u8)
    | VolumeControl

  const NUM_PRESETS: u8 := 4

  /** The number of elements on the focus ring: three buttons, the presets, the volume. */
  const RING_SIZE: nat := 3 + NUM_PRESETS as nat + 1

  /** An element that can actually be drawn: a preset index names one of the slots. */
  predicate ValidElement(e: UIElement) {
    e.Preset? ==> e.index < NUM_PRESETS
  }
}
