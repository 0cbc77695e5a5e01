/** What the tuner thread guarantees: the start-up order, one command per cycle in
    FIFO order, the status read before the command, and the exact conditions under
    which signal-strength and frequency changes are reported. */
module TunerProperties {
  import opened RadioTypes
  import opened Tuner

  // ---------------------------------------------------------------------------
  // Start-up

  /** The thread starts the chip, waits 100 ms, sets the seek threshold to 35, tunes to
      100 000 kHz and sets volume 5, in that order, before its first status read; and
      it starts with both last-reported values at 0, not at the tuned frequency. */
  lemma StartupOrder(queue: seq<OutputCommand>, readings: seq<Reading>)
    ensures var polled := Poll(Poller(0, 0, queue), readings);
            var actions := Startup() + polled.actions;
            && actions[..5] == [Start, Sleep(100), SetSeekThreshold(35),
                                Action.SetFrequency(100_000), Action.SetVolume(5)]
            && (|readings| > 0 ==> actions[5] == GetStatus)
  {
    if |readings| > 0 {
      FirstCycle(Poller(0, 0, queue), readings);
    }
  }

  /** The first cycle of a run is the cycle of the first reading. */
  lemma {:induction false} FirstCycle(st: Poller, readings: seq<Reading>)
    requires |readings| > 0
    ensures var first := PollOnce(st, readings[0]);
            && first.actions <= Poll(st, readings).actions
            && first.events <= Poll(st, readings).events
    decreases |readings|
  {
    if |readings| > 1 {
      var init := readings[..|readings| - 1];
      FirstCycle(st, init);
      assert init[0] == readings[0];
    }
  }

  /** Because the last-reported values start at 0, the first cycle reports the tuned
      frequency unless a seek has just completed, and reports the signal strength if it
      is above 5. */
  lemma FirstCycleReports(queue: seq<OutputCommand>, r: Reading)
    ensures var first := PollOnce(Poller(0, 0, queue), r);
            && (ChangeFrequency(r.freq) in first.events <==> r.freq != 0 && !r.stc)
            && (ChangeRSSI(r.rssi) in first.events <==> r.rssi > 5)
  {
  }

  // ---------------------------------------------------------------------------
  // One cycle

  /** `Apply` sends each command to its own chip call: `CommandOf` recovers it. */
  lemma ApplyRoundTrip(c: OutputCommand)
    ensures CommandOf(Apply(c)) == Some(c)
  {
  }

  /** A cycle reads the status first, then applies the command at the head of the
      queue (if any) and removes exactly that one, then reads signal strength and
      frequency, then sleeps 100 ms. */
  lemma CycleShape(st: Poller, r: Reading)
    ensures var c := PollOnce(st, r);
            && c.actions[0] == GetStatus
            && (|st.queue| > 0 ==>
                  c.actions == [GetStatus, Apply(st.queue[0]), GetRssi, GetFrequency, Sleep(100)]
                  && c.after.queue == st.queue[1..])
            && (|st.queue| == 0 ==>
                  c.actions == [GetStatus, GetRssi, GetFrequency, Sleep(100)] && c.after.queue == [])
  {
  }

  /** A signal-strength change is reported exactly when the strength moved by more than
      5 since the last report, and only then is the last-reported strength updated. */
  lemma RssiReport(st: Poller, r: Reading)
    ensures var c := PollOnce(st, r);
            && (ChangeRSSI(r.rssi) in c.events <==> AbsDiff(r.rssi, st.prevRssi) > 5)
            && (forall x: u8 :: ChangeRSSI(x) in c.events ==> x == r.rssi)
            && c.after.prevRssi == (if AbsDiff(r.rssi, st.prevRssi) > 5 then r.rssi else st.prevRssi)
  {
  }

  /** A frequency change is reported exactly when the frequency differs from the last
      report and no seek has completed; otherwise the last-reported frequency stays. */
  lemma FrequencyReport(st: Poller, r: Reading)
    ensures var c := PollOnce(st, r);
            && (ChangeFrequency(r.freq) in c.events <==> st.prevFreq != r.freq && !r.stc)
            && (forall f: u32 :: ChangeFrequency(f) in c.events ==> f == r.freq)
            && c.after.prevFreq == (if st.prevFreq != r.freq && !r.stc then r.freq else st.prevFreq)
  {
  }

  /** A cycle sends at most two events, and a signal-strength report comes before a
      frequency report. */
  lemma ReportOrder(st: Poller, r: Reading)
    ensures var c := PollOnce(st, r);
            && |c.events| <= 2
            && (forall i :: 0 <= i < |c.events| ==> c.events[i].ChangeRSSI? || c.events[i].ChangeFrequency?)
            && (|c.events| == 2 ==> c.events[0].ChangeRSSI? && c.events[1].ChangeFrequency?)
  {
  }

  // ---------------------------------------------------------------------------
  // Runs of the polling loop

  /** The command one chip call applies, as a sequence of at most one. */
  function AppliedBy(a: Action): seq<OutputCommand> {
    match CommandOf(a)
    case None => []
    case Some(c) => [c]
  }

  /** The commands a stretch of chip calls applies, in order. */
  function Applied(actions: seq<Action>): seq<OutputCommand>
    decreases |actions|
  {
    if actions == [] then [] else AppliedBy(actions[0]) + Applied(actions[1..])
  }

  lemma {:induction false} AppliedConcat(a: seq<Action>, b: seq<Action>)
    ensures Applied(a + b) == Applied(a) + Applied(b)
    decreases |a|
  {
    if a == [] {
      assert a + b == b;
    } else {
      assert (a + b)[0] == a[0] && (a + b)[1..] == a[1..] + b;
      assert Applied(a + b) == AppliedBy(a[0]) + Applied(a[1..] + b);
      AppliedConcat(a[1..], b);
      assert Applied(a) == AppliedBy(a[0]) + Applied(a[1..]);
    }
  }

  function Min(a: int, b: int): int { if a < b then a else b }

  /** Over `n` cycles the thread receives the first `min(n, |queue|)` queued commands
      and leaves the rest queued. */
  lemma {:induction false} QueueRemainder(st: Poller, readings: seq<Reading>)
    ensures Poll(st, readings).after.queue == st.queue[Min(|readings|, |st.queue|)..]
    decreases |readings|
  {
    if readings != [] {
      var init := readings[..|readings| - 1];
      QueueRemainder(st, init);
      var done := Poll(st, init);
      CycleShape(done.after, readings[|readings| - 1]);
      var m := Min(|init|, |st.queue|);
      if m < |st.queue| {
        assert Min(|readings|, |st.queue|) == m + 1;
        assert st.queue[m..][1..] == st.queue[m + 1..];
      }
    }
  }

  /** Over `n` cycles the thread applies the first `min(n, |queue|)` queued commands,
      each once, in queue order, and leaves the rest queued. */
  lemma {:induction false} QueueDrainedInOrder(st: Poller, readings: seq<Reading>)
    ensures var m := Min(|readings|, |st.queue|);
            Applied(Poll(st, readings).actions) == st.queue[..m]
            && Poll(st, readings).after.queue == st.queue[m..]
    decreases |readings|
  {
    QueueRemainder(st, readings);
    if readings != [] {
      var init, r := readings[..|readings| - 1], readings[|readings| - 1];
      QueueDrainedInOrder(st, init);
      var done := Poll(st, init);
      AppliedSnoc(st, readings);
      CycleApplies(done.after, r);
      DrainStep(st.queue, |init|, done.after.queue);
    }
  }

  /** The commands applied by one more cycle follow those applied before it. */
  lemma AppliedSnoc(st: Poller, readings: seq<Reading>)
    requires readings != []
    ensures var done := Poll(st, readings[..|readings| - 1]);
            Applied(Poll(st, readings).actions)
            == Applied(done.actions) + Applied(PollOnce(done.after, readings[|readings| - 1]).actions)
  {
    var done := Poll(st, readings[..|readings| - 1]);
    AppliedConcat(done.actions, PollOnce(done.after, readings[|readings| - 1]).actions);
  }

  /** One more cycle extends the applied prefix of the queue by the head of what is
      left, if anything is left. */
  lemma DrainStep(q: seq<OutputCommand>, n: nat, left: seq<OutputCommand>)
    requires left == q[Min(n, |q|)..]
    ensures q[..Min(n, |q|)] + (if |left| > 0 then [left[0]] else []) == q[..Min(n + 1, |q|)]
  {
    var m := Min(n, |q|);
    if m < |q| {
      assert q[..m + 1] == q[..m] + [q[m]];
    } else {
      assert q[..m] + [] == q[..m];
    }
  }

  /** A cycle applies exactly the command at the head of the queue, if there is one. */
  lemma CycleApplies(st: Poller, r: Reading)
    ensures Applied(PollOnce(st, r).actions) == if |st.queue| > 0 then [st.queue[0]] else []
  {
    var c := PollOnce(st, r);
    var tail := [GetRssi, GetFrequency, Sleep(100)];
    NoReadApplies();
    if |st.queue| > 0 {
      var a := Apply(st.queue[0]);
      assert c.actions == [GetStatus] + ([a] + tail);
      AppliedCons(a, tail);
      AppliedCons(GetStatus, [a] + tail);
    } else {
      assert c.actions == [GetStatus] + tail;
      AppliedCons(GetStatus, tail);
    }
  }

  lemma AppliedCons(a: Action, rest: seq<Action>)
    ensures Applied([a] + rest) == AppliedBy(a) + Applied(rest)
  {
    assert ([a] + rest)[0] == a && ([a] + rest)[1..] == rest;
  }

  /** The reads and the sleep that end a cycle apply no command. */
  lemma NoReadApplies()
    ensures Applied([GetRssi, GetFrequency, Sleep(100)]) == []
  {
    AppliedCons(Sleep(100), []);
    assert [Sleep(100)] + [] == [Sleep(100)];
    AppliedCons(GetFrequency, [Sleep(100)]);
    assert [GetFrequency] + [Sleep(100)] == [GetFrequency, Sleep(100)];
    AppliedCons(GetRssi, [GetFrequency, Sleep(100)]);
    assert [GetRssi] + [GetFrequency, Sleep(100)] == [GetRssi, GetFrequency, Sleep(100)];
  }

  /** While every status read says a seek has completed, no frequency change is
      reported and the last-reported frequency does not move. */
  lemma {:induction false} NoFrequencyReportsAfterSeek(st: Poller, readings: seq<Reading>)
    requires forall i :: 0 <= i < |readings| ==> readings[i].stc
    ensures forall i :: 0 <= i < |Poll(st, readings).events| ==> !Poll(st, readings).events[i].ChangeFrequency?
    ensures Poll(st, readings).after.prevFreq == st.prevFreq
    decreases |readings|
  {
    if readings != [] {
      var init := readings[..|readings| - 1];
      NoFrequencyReportsAfterSeek(st, init);
      ReportOrder(Poll(st, init).after, readings[|readings| - 1]);
    }
  }

  /** A run sends at most two events per cycle. */
  lemma {:induction false} EventsBounded(st: Poller, readings: seq<Reading>)
    ensures |Poll(st, readings).events| <= 2 * |readings|
    decreases |readings|
  {
    if readings != [] {
      var init := readings[..|readings| - 1];
      EventsBounded(st, init);
      ReportOrder(Poll(st, init).after, readings[|readings| - 1]);
    }
  }

  /** A run of one cycle is that cycle. */
  lemma PollOne(st: Poller, r: Reading)
    ensures Poll(st, [r]) == PollOnce(st, r)
  {
    assert [r][..0] == [];
    assert Poll(st, []) == Cycles([], [], st);
    var c := PollOnce(st, r);
    assert [] + c.actions == c.actions && [] + c.events == c.events;
  }

  /** A seek sweep: a move from 100 000 to 100 100 kHz while seeking is reported once;
      a further move after the seek completed is not; once seeking again, the frequency
      that differs from the last report is reported. */
  lemma SeekSweepScenario(rssi: u8, queue: seq<OutputCommand>)
    ensures var st := Poller(100_000, rssi, queue);
            var sweep := [Reading(false, rssi, 100_100), Reading(true, rssi, 100_200)];
            && Poll(st, sweep).events == [ChangeFrequency(100_100)]
            && Poll(st, sweep + [Reading(false, rssi, 100_200)]).events
               == [ChangeFrequency(100_100), ChangeFrequency(100_200)]
  {
    var st := Poller(100_000, rssi, queue);
    var r0, r1, r2 := Reading(false, rssi, 100_100), Reading(true, rssi, 100_200), Reading(false, rssi, 100_200);
    assert [r0][..0] == [];
    var c0 := PollOnce(st, r0);
    assert AbsDiff(rssi, rssi) == 0;
    assert c0.events == [ChangeFrequency(100_100)] && c0.after == Poller(100_100, rssi, c0.after.queue);
    PollOne(st, r0);
    var p0 := Poll(st, [r0]);
    assert p0.events == [ChangeFrequency(100_100)] && p0.after.prevFreq == 100_100 && p0.after.prevRssi == rssi;
    assert [r0, r1][..1] == [r0];
    var p1 := Poll(st, [r0, r1]);
    assert p1.events == [ChangeFrequency(100_100)] && p1.after.prevFreq == 100_100 && p1.after.prevRssi == rssi;
    assert ([r0, r1] + [r2])[..2] == [r0, r1];
  }
}
