/** The two input listeners. The button listener measures each press, from the
    falling edge to the rising edge of the button line, and classifies it; the
    encoder listener decodes the rotary encoder from the levels of its clock and data
    lines at each rising clock edge. Edge waits and clocks are foreign: a press is its
    duration in whole milliseconds, a clock edge is the pair of levels read after it. */
module Input {
  import opened RadioTypes

  // ---------------------------------------------------------------------------
  // The button

  /** The `match duration.as_millis()` of the button listener: bounces shorter than
      50 ms send nothing, presses under 600 ms are short, longer ones are long. */
  function ClassifyPress(ms: nat): (r: Option<InputEvent>)
    ensures r.Some? ==> r.value == ShortPress || r.value == LongPress
  {
    if ms < 50 then None
    else if ms < 600 then Some(ShortPress)
    else Some(LongPress)
  }

  function Sent(r: Option<InputEvent>): seq<InputEvent> {
    match r
    case None => []
    case Some(e) => [e]
  }

  /** What the button listener sends for a sequence of measured presses. */
  function ButtonEvents(durations: seq<nat>): (r: seq<InputEvent>)
    ensures |r| <= |durations|
    ensures forall k :: 0 <= k < |r| ==> r[k] == ShortPress || r[k] == LongPress
    decreases |durations|
  {
    if durations == [] then []
    else ButtonEvents(durations[..|durations| - 1]) + Sent(ClassifyPress(durations[|durations| - 1]))
  }

  /** The presses that are not bounces, in order. */
  function Debounced(durations: seq<nat>): seq<nat>
    decreases |durations|
  {
    if durations == [] then []
    else
      var last := durations[|durations| - 1];
      Debounced(durations[..|durations| - 1]) + (if last >= 50 then [last] else [])
  }

  /** The loop of `spawn_button_listener`, one iteration per press. */
  method ButtonListener(durations: seq<nat>) returns (sent: seq<InputEvent>)
    ensures sent == ButtonEvents(durations)
  {
    sent := [];
    var i := 0;
    while i < |durations|
      invariant 0 <= i <= |durations|
      invariant sent == ButtonEvents(durations[..i])
    {
      assert durations[..i + 1][..i] == durations[..i];
      var duration := durations[i];
      if duration < 50 {
        // debouncing
      } else if duration < 600 {
        sent := sent + [ShortPress];
      } else {
        sent := sent + [LongPress];
      }
      i := i + 1;
    }
    assert durations[..i] == durations;
  }

  // ---------------------------------------------------------------------------
  // The rotary encoder

  /** The levels of the clock and data lines read just after a rising clock edge. */
  datatype Levels = Levels(clk: bool, data: bool)

  /** One iteration of the encoder loop: the event sent, if any, and the new value of
      the `second` flag. */
  function EncoderStep(second: bool, edge: Levels): (r: (Option<InputEvent>, bool))
    ensures r.1 != second
    ensures r.0.Some? ==> r.0.value == ScrollUp || r.0.value == ScrollDown
  {
    var sent := if !second then Some(if edge.data == edge.clk then ScrollUp else ScrollDown) else None;
    (sent, !second)
  }

  /** What the encoder listener sends for a sequence of rising clock edges, with the
      `second` flag at `second` before the first one. */
  function EncoderEvents(second: bool, edges: seq<Levels>): (r: seq<InputEvent>)
    ensures |r| <= |edges|
    ensures forall k :: 0 <= k < |r| ==> r[k] == ScrollUp || r[k] == ScrollDown
    decreases |edges|
  {
    if edges == [] then []
    else
      var (sent, second') := EncoderStep(second, edges[0]);
      Sent(sent) + EncoderEvents(second', edges[1..])
  }

  /** One iteration of the encoder loop keeps what is sent so far plus what the
      remaining edges send equal to what all edges send. */
  lemma EncoderLoopStep(sent: seq<InputEvent>, second: bool, edges: seq<Levels>, i: nat,
                        event: Option<InputEvent>, second': bool)
    requires i < |edges|
    requires sent + EncoderEvents(second, edges[i..]) == EncoderEvents(false, edges)
    requires (event, second') == EncoderStep(second, edges[i])
    ensures (sent + Sent(event)) + EncoderEvents(second', edges[i + 1..]) == EncoderEvents(false, edges)
  {
    EncoderEventsStep(second, edges, i);
    var rest := EncoderEvents(second', edges[i + 1..]);
    assert (sent + Sent(event)) + rest == sent + (Sent(event) + rest);
  }

  /** The events sent from edge `i` on are those of edge `i` followed by the rest. */
  lemma EncoderEventsStep(second: bool, edges: seq<Levels>, i: nat)
    requires i < |edges|
    ensures EncoderEvents(second, edges[i..])
         == Sent(EncoderStep(second, edges[i]).0) + EncoderEvents(!second, edges[i + 1..])
  {
    assert edges[i..][1..] == edges[i + 1..];
  }

  /** The body of the loop of `spawn_encoder_listener`, on the levels read after one
      rising clock edge: the event sent, if any, and the new `second` flag. */
  method OnRisingEdge(second: bool, clk: bool, data: bool) returns (sent: Option<InputEvent>, second': bool)
    ensures (sent, second') == EncoderStep(second, Levels(clk, data))
  {
    sent := None;
    // the encoder makes two rising edges per detent: every other one is dropped
    if !second {
      if data == clk {
        sent := Some(ScrollUp);
      } else {
        sent := Some(ScrollDown);
      }
    }
    second' := !second;
  }

  /** The loop of `spawn_encoder_listener`, one iteration per rising clock edge, from
      `second == false`; also returns the final value of `second`. */
  method EncoderListener(edges: seq<Levels>) returns (sent: seq<InputEvent>, second: bool)
    ensures sent == EncoderEvents(false, edges)
    ensures second == (|edges| % 2 == 1)
  {
    sent := [];
    second := false;
    var i := 0;
    while i < |edges|
      invariant 0 <= i <= |edges|
      invariant second == Odd(i)
      invariant sent + EncoderEvents(second, edges[i..]) == EncoderEvents(false, edges)
    {
      var event, second' := OnRisingEdge(second, edges[i].clk, edges[i].data);
      EncoderLoopStep(sent, second, edges, i, event, second');
      sent, second := sent + Sent(event), second';
      i := i + 1;
    }
    OddIsParity(i);
  }

  /** Whether `n` is odd, counted one flip at a time as the loop flips `second`. */
  function Odd(n: nat): bool {
    if n == 0 then false else !Odd(n - 1)
  }

  lemma {:induction false} OddIsParity(n: nat)
    ensures Odd(n) == (n % 2 == 1)
  {
    if n > 0 {
      OddIsParity(n - 1);
    }
  }
}
