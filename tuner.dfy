/** The tuner thread: it starts the tuner chip, then polls it forever. Each cycle
    reads the status, applies at most one queued command, and reports signal-strength
    and frequency changes to the UI loop. The chip driver is foreign: what the thread
    reads from the chip in a cycle is a `Reading`, and what it does to the chip is
    logged as a sequence of `Action`s. */
module Tuner {
  import opened RadioTypes

  /** One call of the tuner thread on the chip driver, or of its sleep. */
  datatype Action =
    | Start
    | SetSeekThreshold(threshold: nat)
    | SetFrequency(khz: u32)
    | SetVolume(level: u8)
    | SeekUp(wrap: bool)
    | SeekDown(wrap: bool)
    | GetStatus
    | GetRssi
    | GetFrequency
    | Sleep(ms: nat)

  /** What the chip answers within one polling cycle: the seek/tune-complete flag of
      the status, the signal strength and the tuned frequency. */
  datatype Reading = Reading(stc: bool, rssi: u8, freq: u32)

  /** The state the polling loop carries from one cycle to the next: the last
      reported frequency and signal strength, and the commands not yet received. */
  datatype Poller = Poller(prevFreq: u32, prevRssi: u8, queue: seq<OutputCommand>)

  /** What a stretch of polling did: the chip calls in order, the events sent to the
      UI loop in order, and the state after it. */
  datatype Cycles = Cycles(actions: seq<Action>, events: seq<InputEvent>, after: Poller)

  /** The start-up calls, made once before the loop. */
  function Startup(): (a: seq<Action>)
    ensures |a| == 5 && a[0] == Start && GetStatus !in a
  {
    [Start, Sleep(100), SetSeekThreshold(35), Action.SetFrequency(100_000), Action.SetVolume(5)]
  }

  /** The chip call that applies a command. */
  function Apply(c: OutputCommand): (a: Action)
    ensures IsCommandCall(a)
    ensures CommandOf(a) == Some(c)
  {
    match c
    case SetFrequency(f) => Action.SetFrequency(f)
    case SetVolume(v) => Action.SetVolume(v)
    case SeekUp => Action.SeekUp(true)
    case SeekDown => Action.SeekDown(true)
  }

  /** The calls by which a command reaches the chip. */
  predicate IsCommandCall(a: Action) {
    a.SetFrequency? || a.SetVolume? || (a.SeekUp? && a.wrap) || (a.SeekDown? && a.wrap)
  }

  /** The command a chip call applies: the inverse of `Apply`. */
  function CommandOf(a: Action): Option<OutputCommand> {
    match a
    case SetFrequency(f) => Some(OutputCommand.SetFrequency(f))
    case SetVolume(v) => Some(OutputCommand.SetVolume(v))
    case SeekUp(wrap) => if wrap then Some(OutputCommand.SeekUp) else None
    case SeekDown(wrap) => if wrap then Some(OutputCommand.SeekDown) else None
    case _ => None
  }

  /** `u8::abs_diff`. */
  function AbsDiff(a: u8, b: u8): (d: nat)
    ensures d == a as int - b as int || d == b as int - a as int
  {
    if a < b then (b - a) as nat else (a - b) as nat
  }

  /** One pass of the body of the polling loop. */
  function PollOnce(st: Poller, r: Reading): (c: Cycles)
    ensures |c.actions| == (if |st.queue| > 0 then 5 else 4) && c.actions[0] == GetStatus
    ensures |c.events| <= 2
    ensures c.after.queue == if |st.queue| > 0 then st.queue[1..] else []
  {
    var command := if |st.queue| > 0 then [Apply(st.queue[0])] else [];
    var queue := if |st.queue| > 0 then st.queue[1..] else st.queue;
    var rssiChanged := AbsDiff(r.rssi, st.prevRssi) > 5;
    var freqChanged := st.prevFreq != r.freq && !r.stc;
    Cycles(
      [GetStatus] + command + [GetRssi, GetFrequency, Sleep(100)],
      (if rssiChanged then [ChangeRSSI(r.rssi)] else [])
        + (if freqChanged then [ChangeFrequency(r.freq)] else []),
      Poller(if freqChanged then r.freq else st.prevFreq,
             if rssiChanged then r.rssi else st.prevRssi,
             queue))
  }

  /** The polling loop run for one cycle per reading. */
  function Poll(st: Poller, readings: seq<Reading>): (c: Cycles)
    ensures 4 * |readings| <= |c.actions| <= 5 * |readings|
    ensures |c.after.queue| <= |st.queue|
    decreases |readings|
  {
    if readings == [] then Cycles([], [], st)
    else
      var done := Poll(st, readings[..|readings| - 1]);
      var last := PollOnce(done.after, readings[|readings| - 1]);
      Cycles(done.actions + last.actions, done.events + last.events, last.after)
  }

  /** One more reading adds one cycle at the end. */
  lemma PollSnoc(st: Poller, readings: seq<Reading>, r: Reading)
    ensures var done := Poll(st, readings);
            var last := PollOnce(done.after, r);
            Poll(st, readings + [r]) == Cycles(done.actions + last.actions, done.events + last.events, last.after)
  {
    assert (readings + [r])[..|readings|] == readings;
  }

  /** One pass of the body of the `loop` in `spawn_tuner_thread`: given the last
      reported frequency and signal strength, the queued commands and what the chip
      answers, returns the chip calls, the events sent, the new last-reported values
      and the commands left queued. */
  method PollCycle(prevFreq: u32, prevRssi: u8, queue: seq<OutputCommand>, chip: Reading)
    returns (calls: seq<Action>, reports: seq<InputEvent>, freqReported: u32, rssiReported: u8, rest: seq<OutputCommand>)
    ensures Cycles(calls, reports, Poller(freqReported, rssiReported, rest))
         == PollOnce(Poller(prevFreq, prevRssi, queue), chip)
  {
    freqReported, rssiReported, rest := prevFreq, prevRssi, queue;

    calls := [GetStatus];
    var stc := chip.stc;

    // `try_recv`: at most one command per cycle
    if |rest| > 0 {
      var command := rest[0];
      rest := rest[1..];
      calls := calls + [Apply(command)];
    }

    calls := calls + [GetRssi];
    var rssi := chip.rssi;
    reports := [];
    if AbsDiff(rssi, rssiReported) > 5 {
      reports := reports + [ChangeRSSI(rssi)];
      rssiReported := rssi;
    }

    calls := calls + [GetFrequency];
    var freq := chip.freq;
    // only frequency updates while seeking are reported
    if freqReported != freq && !stc {
      reports := reports + [ChangeFrequency(freq)];
      freqReported := freq;
    }

    calls := calls + [Sleep(100)];
  }

  /** The start-up calls of `spawn_tuner_thread`, before its loop. */
  method StartChip() returns (actions: seq<Action>)
    ensures actions == Startup()
  {
    actions := [Start];
    actions := actions + [Sleep(100)];
    actions := actions + [SetSeekThreshold(35)];
    actions := actions + [Action.SetFrequency(100_000)];
    actions := actions + [Action.SetVolume(5)];
  }

  /** `spawn_tuner_thread`: the start-up sequence, then one polling cycle per reading,
      draining `queue`. Returns the chip calls, the events sent to the UI loop and the
      commands still queued. */
  method TunerThread(queue: seq<OutputCommand>, readings: seq<Reading>)
    returns (actions: seq<Action>, events: seq<InputEvent>, rest: seq<OutputCommand>)
    ensures var polled := Poll(Poller(0, 0, queue), readings);
            actions == Startup() + polled.actions && events == polled.events && rest == polled.after.queue
  {
    var started := StartChip();

    var prevFreq: u32 := 0;
    var prevRssi: u8 := 0;
    var polled: seq<Action> := [];
    events, rest := [], queue;

    var i := 0;
    while i < |readings|
      invariant 0 <= i <= |readings|
      invariant Poll(Poller(0, 0, queue), readings[..i]) == Cycles(polled, events, Poller(prevFreq, prevRssi, rest))
    {
      PollSnoc(Poller(0, 0, queue), readings[..i], readings[i]);
      assert readings[..i + 1] == readings[..i] + [readings[i]];
      var calls, reports;
      calls, reports, prevFreq, prevRssi, rest := PollCycle(prevFreq, prevRssi, rest, readings[i]);
      polled := polled + calls;
      events := events + reports;
      i := i + 1;
    }
    assert readings[..i] == readings;
    actions := started + polled;
  }
}
