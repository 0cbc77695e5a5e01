/** What the input listeners guarantee: the press classification is total and
    monotone with exact thresholds, each press sends at most one event, and the encoder
    sends exactly on the odd rising edges, in the direction those edges give. */
module InputProperties {
  import opened RadioTypes
  import opened Input

  // ---------------------------------------------------------------------------
  // The button

  /** Exactly one of the three outcomes, with the thresholds at 50 and 600 ms. */
  lemma PressThresholds(ms: nat)
    ensures ClassifyPress(ms) == None <==> ms < 50
    ensures ClassifyPress(ms) == Some(ShortPress) <==> 50 <= ms < 600
    ensures ClassifyPress(ms) == Some(LongPress) <==> 600 <= ms
  {
  }

  /** The boundary durations. */
  lemma PressBoundaries()
    ensures ClassifyPress(49) == None && ClassifyPress(50) == Some(ShortPress)
    ensures ClassifyPress(599) == Some(ShortPress) && ClassifyPress(600) == Some(LongPress)
  {
  }

  /** How strong a classification is: nothing, short, long. */
  function Rank(r: Option<InputEvent>): nat {
    match r
    case None => 0
    case Some(e) => if e == LongPress then 2 else 1
  }

  /** Holding the button longer never gives a weaker classification. */
  lemma PressMonotone(a: nat, b: nat)
    requires a <= b
    ensures Rank(ClassifyPress(a)) <= Rank(ClassifyPress(b))
  {
  }

  /** Each press sends at most one event: the events are, in order, one per press
      that is not a bounce, short under 600 ms and long from 600 ms on. */
  lemma {:induction false} OneEventPerPress(durations: seq<nat>)
    ensures |ButtonEvents(durations)| == |Debounced(durations)| <= |durations|
    ensures forall i :: 0 <= i < |Debounced(durations)| ==>
              ButtonEvents(durations)[i] == if Debounced(durations)[i] < 600 then ShortPress else LongPress
    decreases |durations|
  {
    if durations != [] {
      OneEventPerPress(durations[..|durations| - 1]);
    }
  }

  /** The events sent are all debounced presses, and a bounce contributes nothing. */
  lemma BounceIgnored(durations: seq<nat>, ms: nat)
    requires ms < 50
    ensures ButtonEvents(durations + [ms]) == ButtonEvents(durations)
  {
    assert (durations + [ms])[..|durations|] == durations;
  }

  // ---------------------------------------------------------------------------
  // The rotary encoder

  /** One rising edge: an event exactly when `second` is false, whose direction is up
      exactly when the data level equals the clock level; `second` always flips. */
  lemma EncoderStepSpec(second: bool, edge: Levels)
    ensures EncoderStep(second, edge).1 == !second
    ensures EncoderStep(second, edge).0.Some? <==> !second
    ensures EncoderStep(second, edge).0 == Some(ScrollUp) <==> !second && edge.data == edge.clk
    ensures EncoderStep(second, edge).0 == Some(ScrollDown) <==> !second && edge.data != edge.clk
  {
  }

  /** Over `n` rising edges from `second == false`, exactly ceil(n/2) events are sent;
      from `second == true`, floor(n/2). */
  lemma {:induction false} EncoderCount(second: bool, edges: seq<Levels>)
    ensures |EncoderEvents(second, edges)| == if second then |edges| / 2 else (|edges| + 1) / 2
    decreases |edges|
  {
    if edges != [] {
      EncoderCount(!second, edges[1..]);
    }
  }

  /** The `k`-th event comes from the `k`-th informative edge: edge 2k when `second`
      starts false (the odd edges, counting from one), edge 2k+1 when it starts true. */
  lemma {:induction false} EncoderInformativeEdges(second: bool, edges: seq<Levels>, k: nat)
    requires k < |EncoderEvents(second, edges)|
    ensures var j := 2 * k + (if second then 1 else 0);
            && j < |edges|
            && EncoderEvents(second, edges)[k] == if edges[j].data == edges[j].clk then ScrollUp else ScrollDown
    decreases |edges|
  {
    EncoderCount(second, edges);
    if second {
      EncoderInformativeEdges(false, edges[1..], k);
    } else if k > 0 {
      EncoderInformativeEdges(true, edges[1..], k - 1);
    }
  }

  /** The encoder's two rising edges per detent give one event per detent. */
  lemma OneEventPerDetent(edges: seq<Levels>)
    requires |edges| % 2 == 0
    ensures |EncoderEvents(false, edges)| == |edges| / 2
  {
    EncoderCount(false, edges);
  }
}
