/** The main loop of main.py (lines 136-219) as one Step of a Tracker object
    that owns the state the script keeps in globals (lines 99-127). The ADC
    reading and the monotonic clock are the parameters of Step; the blue LED
    is a boolean field. */
module DrowsyTracker {
  import opened Slots
  import opened Statistics
  import opened Windows
  import opened Blinks

  const RAW_SIZE: int := 128
  const SMA_SIZE: int := 8
  const BLINK_SIZE: int := 16
  /** Blinks blink_series must hold before drowsiness is evaluated (line 156). */
  const READY_BLINKS: nat := 5
  /** DROWSY_TIMER: seconds the LED stays on before it is re-evaluated. */
  const DROWSY_TIMER: real := 30.0
  /** The last three blinks must last this many times the baseline (line 211). */
  const DROWSY_FACTOR: real := 2.0

  /** How one pass of the loop body ends: it runs to the end, it stops early
      at the `continue` of line 187, or an exception escapes it. */
  datatype Tick = Done | CooldownSkip | Raised(error: Error)

  /** raw_data_series or period_average_series between ticks: every slot but
      the last holds a float (0.0 until written), and the last holds the int
      ready marker, 1 once the window's pointer has reached it (count is the
      number of get_pointer calls on the window). */
  ghost predicate MarkedShape(s: seq<Slot>, size: int, count: nat) {
    && size > 0
    && |s| == size
    && (forall i :: 0 <= i < size - 1 ==> s[i].Sample?)
    && s[size - 1] == Flag(if count >= size then 1 else 0)
  }

  /** A slot of blink_series that holds a Blink holds one that has ended. */
  predicate Closed(s: Slot) {
    s.Stored? ==> s.blink.start <= s.blink.end
  }

  /** The last slot of blink_series with `stored` blinks stored: the ready
      marker, 0 until five blinks have been stored and 1 after, or, just after
      a blink was stored there, that Blink. */
  ghost predicate MarkerFits(last: Slot, stored: nat) {
    match last
    case Flag(k) => (k == 0 && stored <= READY_BLINKS) || (k == 1 && stored >= READY_BLINKS)
    case Stored(_) => Advance(BLINK_SIZE, stored) == BLINK_SIZE - 1
    case _ => false
  }

  /** blink_series holding `stored` closed blinks: the first min(stored, 15)
      slots hold Blinks, the rest of slots 0..14 are None, and the last slot
      fits MarkerFits. */
  ghost predicate BlinkShape(s: seq<Slot>, stored: nat) {
    && |s| == BLINK_SIZE
    && (forall i :: 0 <= i < BLINK_SIZE - 1 && i < stored ==> s[i].Stored?)
    && (forall i :: stored <= i < BLINK_SIZE - 1 ==> s[i] == Unset)
    && (forall i :: 0 <= i < BLINK_SIZE ==> Closed(s[i]))
    && MarkerFits(s[BLINK_SIZE - 1], stored)
  }

  /** Filtering a marked window drops exactly its last slot. */
  lemma MarkedFilter(s: seq<Slot>, size: int, count: nat)
    requires MarkedShape(s, size, count)
    ensures Filter(s) == s[..size - 1]
    ensures Numbers(s).Ok? && Numbers(s[..size - 1]).Ok?
  {
    assert s == s[..size - 1] + [s[size - 1]];
    FilterAppend(s[..size - 1], [s[size - 1]]);
    FilterKeepsData(s[..size - 1]);
    FilterDropsMarkers([s[size - 1]]);
  }

  /** One get_pointer write into a marked window (lines 142 and 149, or 151
      and 154): a float lands on the pointer's slot, except that on the last
      slot it is at once replaced by the ready marker 1. */
  lemma MarkedWrite(s: seq<Slot>, size: int, count: nat, x: real)
    requires MarkedShape(s, size, count)
    ensures var p := Advance(size, count + 1);
      MarkedShape(if p == size - 1 then s[size - 1 := Flag(1)] else s[p := Sample(x)], size, count + 1)
  {
    AdvanceFacts(size, count + 1);
  }

  /** While a marked window's pointer sits on its last slot, the marker there is already 1. */
  lemma MarkedAtMax(s: seq<Slot>, size: int, count: nat)
    requires MarkedShape(s, size, count) && Advance(size, count) == size - 1
    ensures s[size - 1] == Flag(1)
  {
    AdvanceFacts(size, count);
  }

  /** The period average (line 150): the filtered mean of raw_data_series is
      the mean of its first 127 slots; the marker in the last slot is left out. */
  lemma PeriodAverageOfSamples(s: seq<Slot>, taken: nat)
    requires MarkedShape(s, RAW_SIZE, taken)
    ensures Mean(s, true).Ok?
    ensures Mean(s, true) == Average(Numbers(s[..RAW_SIZE - 1]).value)
  {
    MarkedFilter(s, RAW_SIZE, taken);
  }

  /** The recording half of the state: raw_data_series and the number of
      get_pointer calls on RAW_WINDOW, period_average_series and the calls on
      SMA_WINDOW, and last_period_average. A window's pointer is
      Advance(size, calls). */
  datatype Readings = Readings(raw: seq<Slot>, rawCalls: nat, averages: seq<Slot>, smaCalls: nat,
                               lastPeriodAverage: Option<real>)

  ghost predicate ReadingsShape(r: Readings) {
    MarkedShape(r.raw, RAW_SIZE, r.rawCalls) && MarkedShape(r.averages, SMA_SIZE, r.smaCalls)
  }

  /** Lines 141-154 on values: the voltage goes to the next raw slot; when
      that slot is the last one it becomes the marker 1 instead, the filtered
      mean of the raw list becomes the period average, and the average goes to
      the next slot of the period-average list, which is the marker 1 again
      when it is that list's last. Both lists keep their shape and the sample
      count goes up by one (RecordedAverage says what is recorded). */
  ghost function Record(r: Readings, voltage: real): (r': Readings)
    requires ReadingsShape(r)
    ensures ReadingsShape(r')
    ensures r'.rawCalls == r.rawCalls + 1
  {
    var p := Advance(RAW_SIZE, r.rawCalls + 1);
    MarkedWrite(r.raw, RAW_SIZE, r.rawCalls, voltage);
    if p != RAW_SIZE - 1 then
      r.(raw := r.raw[p := Sample(voltage)], rawCalls := r.rawCalls + 1)
    else
      var raw := r.raw[RAW_SIZE - 1 := Flag(1)];
      PeriodAverageOfSamples(raw, r.rawCalls + 1);
      assert raw[..RAW_SIZE - 1] == r.raw[..RAW_SIZE - 1];
      var average := Mean(raw, true).value;
      var q := Advance(SMA_SIZE, r.smaCalls + 1);
      MarkedWrite(r.averages, SMA_SIZE, r.smaCalls, average);
      var averages := if q == SMA_SIZE - 1 then r.averages[SMA_SIZE - 1 := Flag(1)]
                      else r.averages[q := Sample(average)];
      Readings(raw, r.rawCalls + 1, averages, r.smaCalls + 1, Some(average))
  }

  /** What a pass records: the voltage in the next raw slot; or, when that
      slot is the last, a new period average that is the mean of the 127
      samples, stored in the next period-average slot unless that slot is the
      last one. */
  lemma RecordedAverage(r: Readings, voltage: real)
    requires ReadingsShape(r)
    ensures var r' := Record(r, voltage);
      && (Advance(RAW_SIZE, r'.rawCalls) != RAW_SIZE - 1 ==>
            && r'.raw[Advance(RAW_SIZE, r'.rawCalls)] == Sample(voltage)
            && (r'.averages, r'.smaCalls, r'.lastPeriodAverage) == (r.averages, r.smaCalls, r.lastPeriodAverage))
      && (Advance(RAW_SIZE, r'.rawCalls) == RAW_SIZE - 1 ==>
            && r'.smaCalls == r.smaCalls + 1
            && r'.lastPeriodAverage == Some(Average(Numbers(r.raw[..RAW_SIZE - 1]).value).value)
            && (Advance(SMA_SIZE, r'.smaCalls) != SMA_SIZE - 1 ==>
                  r'.averages[Advance(SMA_SIZE, r'.smaCalls)] == Sample(r'.lastPeriodAverage.value)))
  {
    var raw := r.raw[RAW_SIZE - 1 := Flag(1)];
    if Advance(RAW_SIZE, r.rawCalls + 1) == RAW_SIZE - 1 {
      MarkedWrite(r.raw, RAW_SIZE, r.rawCalls, voltage);
      PeriodAverageOfSamples(raw, r.rawCalls + 1);
      assert raw[..RAW_SIZE - 1] == r.raw[..RAW_SIZE - 1];
    }
  }

  /** Once the period-average window is ready, the threshold is defined, and
      its centre is the mean of eight numbers: the seven period averages and
      the ready marker's 1. */
  lemma ThresholdWhenReady(s: seq<Slot>, stored: nat)
    requires MarkedShape(s, SMA_SIZE, stored) && stored >= SMA_SIZE
    ensures BlinkThreshold(s).Ok?
    ensures BlinkThreshold(s).value.center * (SMA_SIZE as real) == Sum(Numbers(s[..SMA_SIZE - 1]).value) + 1.0
  {
    MarkedFilter(s, SMA_SIZE, stored);
    var head := Numbers(s[..SMA_SIZE - 1]).value;
    assert Numbers(s).value == head + [1.0];
    SumAppend(head, 1.0);
  }

  /** With seven equal period averages c the spread is nil, yet the centre is
      (7c + 1)/8 rather than c, because the ready marker is averaged in: a
      blink starts exactly at (7c + 1)/8 + 0.5 volts. */
  lemma ReadyMarkerShiftsThreshold(s: seq<Slot>, c: real)
    requires |s| == SMA_SIZE && s[SMA_SIZE - 1] == Flag(1)
    requires forall i :: 0 <= i < SMA_SIZE - 1 ==> s[i] == Sample(c)
    ensures BlinkThreshold(s) == Ok(Threshold((7.0 * c + 1.0) / 8.0, Root(0.0)))
    ensures forall v :: Reaches(v, BlinkThreshold(s).value) <==> v >= (7.0 * c + 1.0) / 8.0 + MIN_DISTANCE
  {
    assert MarkedShape(s, SMA_SIZE, SMA_SIZE);
    ThresholdWhenReady(s, SMA_SIZE);
    MarkedFilter(s, SMA_SIZE, SMA_SIZE);
    var head := Numbers(s[..SMA_SIZE - 1]).value;
    SumAtLeast(head, c);
    SumAtMost(head, c);
    ConstantDataHasNoSpread(s, 0, c);
    var t := BlinkThreshold(s).value;
    forall v
      ensures Reaches(v, t) <==> v >= (7.0 * c + 1.0) / 8.0 + MIN_DISTANCE
    {
      ReachesExactly(v, t, 0.0);
    }
  }

  /** blink_series has at least five Blinks (line 156) exactly when at least
      five have been stored. */
  lemma BlinkCount(s: seq<Slot>, stored: nat)
    requires BlinkShape(s, stored)
    ensures |Filter(s)| >= READY_BLINKS <==> stored >= READY_BLINKS
  {
    var m := if stored < BLINK_SIZE - 1 then stored else BLINK_SIZE - 1;
    var last := BLINK_SIZE - 1;
    assert s == s[..m] + s[m..last] + [s[last]];
    FilterAppend(s[..m] + s[m..last], [s[last]]);
    FilterAppend(s[..m], s[m..last]);
    FilterKeepsData(s[..m]);
    FilterDropsMarkers(s[m..last]);
    AdvanceFacts(BLINK_SIZE, stored);
    if IsData(s[last]) {
      FilterKeepsData([s[last]]);
    } else {
      FilterDropsMarkers([s[last]]);
    }
  }

  /** The ready check of line 156 on blink_series in shape: below five
      stored blinks the marker is still 0, and from five on setting it to 1
      keeps the shape. */
  lemma MarkBlinksReady(s: seq<Slot>, stored: nat)
    requires BlinkShape(s, stored)
    ensures stored < READY_BLINKS ==> s[BLINK_SIZE - 1] == Flag(0)
    ensures stored >= READY_BLINKS ==> BlinkShape(s[BLINK_SIZE - 1 := Flag(1)], stored)
  {
    if stored < READY_BLINKS {
      AdvanceFacts(BLINK_SIZE, stored);
    } else {
      var t := s[BLINK_SIZE - 1 := Flag(1)];
      forall i | 0 <= i < BLINK_SIZE - 1
        ensures t[i] == s[i]
      {
      }
      assert MarkerFits(t[BLINK_SIZE - 1], stored);
    }
  }

  /** Writing a closed blink to slot p, which is slot `stored` until the ring
      first wraps, keeps slots 0..14 in shape for one more stored blink. */
  lemma StoreKeepsSlots(s: seq<Slot>, stored: nat, b: BlinkRecord, p: int)
    requires BlinkShape(s, stored) && b.start <= b.end
    requires 0 <= p < BLINK_SIZE && p <= stored && (stored < BLINK_SIZE - 1 ==> p == stored)
    ensures var t := s[p := Stored(b)];
      && (forall i :: 0 <= i < BLINK_SIZE - 1 && i < stored + 1 ==> t[i].Stored?)
      && (forall i :: stored + 1 <= i < BLINK_SIZE - 1 ==> t[i] == Unset)
      && (forall i :: 0 <= i < BLINK_SIZE ==> Closed(t[i]))
  {
  }

  /** Storing a closed blink at the next get_pointer slot (line 181) keeps
      blink_series in shape, provided the ready check of line 156 has run. */
  lemma StoreKeepsBlinkShape(s: seq<Slot>, stored: nat, b: BlinkRecord)
    requires BlinkShape(s, stored)
    requires s[BLINK_SIZE - 1] == Flag(if stored >= READY_BLINKS then 1 else 0)
    requires b.start <= b.end
    ensures BlinkShape(s[Advance(BLINK_SIZE, stored + 1) := Stored(b)], stored + 1)
    ensures Truthy(s[Advance(BLINK_SIZE, stored + 1) := Stored(b)][BLINK_SIZE - 1]) <==> stored >= READY_BLINKS
  {
    var p := Advance(BLINK_SIZE, stored + 1);
    var t := s[p := Stored(b)];
    AdvanceFacts(BLINK_SIZE, stored + 1);
    StoreKeepsSlots(s, stored, b, p);
    if p == BLINK_SIZE - 1 {
      assert t[BLINK_SIZE - 1] == Stored(b);
    } else {
      assert t[BLINK_SIZE - 1] == s[BLINK_SIZE - 1];
    }
    assert MarkerFits(t[BLINK_SIZE - 1], stored + 1);
  }

  /** The ring predecessor of slot q of blink_series. */
  function RingBefore(q: int): int {
    if q == 0 then BLINK_SIZE - 1 else q - 1
  }

  /** The slots lines 200-206 read as the "last three blinks" when the blink
      pointer is p: for p below 3 the pointer's slot and the two before it,
      going round the ring; from 3 on the slice [p-3, p), which leaves out
      the slot p the newest blink was written to. */
  function LastThreeSlots(p: int): (r: seq<int>)
    requires 0 <= p < BLINK_SIZE
    ensures |r| == 3 && forall j :: 0 <= j < 3 ==> 0 <= r[j] < BLINK_SIZE
    ensures p in r <==> p < 3
  {
    if p < 3 then [p, RingBefore(p), RingBefore(RingBefore(p))]
    else [p - 3, p - 2, p - 1]
  }

  /** last_three_blinks, computed as lines 200-206 do: with the modulo trick
      below 3, with a slice from 3 on. */
  function LastThree(s: seq<Slot>, p: int): (r: seq<Slot>)
    requires |s| == BLINK_SIZE && 0 <= p < BLINK_SIZE
    ensures |r| == 3 && forall j :: 0 <= j < 3 ==> r[j] == s[LastThreeSlots(p)[j]]
  {
    if p < 3 then [s[p], s[(p - 1) % BLINK_SIZE], s[(p - 2) % BLINK_SIZE]]
    else s[p - 3 .. p]
  }

  /** list(map(lambda b: b.get_duration(), slots)): the durations, or the
      AttributeError raised by the first slot that is not a Blink. */
  function BlinkDurations(slots: seq<Slot>): (r: Result<seq<real>>)
    ensures r.Ok? <==> forall j :: 0 <= j < |slots| ==> slots[j].Stored?
    ensures r.Ok? ==> |r.value| == |slots| && forall j :: 0 <= j < |slots| ==> r.value[j] == slots[j].blink.Duration()
    ensures r.Err? ==> r.error == NotABlink
  {
    if slots == [] then Ok([])
    else if !slots[0].Stored? then Err(NotABlink)
    else
      match BlinkDurations(slots[1..])
      case Err(e) => Err(e)
      case Ok(ds) => Ok([slots[0].blink.Duration()] + ds)
  }

  /** When blink_series is marked ready, the last-three extraction fails
      exactly when the pointer is 0 or 1: that only happens after the window
      has wrapped, and then the slots read include slot 15, which holds the
      int marker and not a Blink. For every other pointer all three slots hold Blinks. */
  lemma LastThreeFailsOnlyAfterWrap(s: seq<Slot>, stored: nat)
    requires BlinkShape(s, stored) && Truthy(s[BLINK_SIZE - 1])
    ensures stored >= READY_BLINKS && 0 <= Advance(BLINK_SIZE, stored)
    ensures BlinkDurations(LastThree(s, Advance(BLINK_SIZE, stored))).Err? <==> Advance(BLINK_SIZE, stored) < 2
    ensures Advance(BLINK_SIZE, stored) < 2 ==> stored > BLINK_SIZE
  {
    AdvanceFacts(BLINK_SIZE, stored);
    var p := Advance(BLINK_SIZE, stored);
    if p < 2 {
      LastThreeHitsMarker(s, p);
    } else {
      LastThreeAllStored(s, p, stored);
    }
  }

  /** Pointers 0 and 1 make the extraction read the last slot. */
  lemma LastThreeHitsMarker(s: seq<Slot>, p: int)
    requires |s| == BLINK_SIZE && 0 <= p < 2 && !s[BLINK_SIZE - 1].Stored?
    ensures BlinkDurations(LastThree(s, p)).Err?
  {
    var r := LastThree(s, p);
    var j := if p == 0 then 1 else 2;
    assert LastThreeSlots(p)[j] == BLINK_SIZE - 1;
    assert !r[j].Stored?;
  }

  /** From pointer 2 on the extraction reads three of the slots already written. */
  lemma LastThreeAllStored(s: seq<Slot>, p: int, stored: nat)
    requires |s| == BLINK_SIZE && 2 <= p < BLINK_SIZE && p < stored
    requires forall i :: 0 <= i < BLINK_SIZE - 1 && i < stored ==> s[i].Stored?
    ensures BlinkDurations(LastThree(s, p)).Ok?
  {
    var idx := LastThreeSlots(p);
    var r := LastThree(s, p);
    forall j | 0 <= j < 3
      ensures r[j].Stored?
    {
      assert idx[j] < BLINK_SIZE - 1 && idx[j] < stored;
    }
  }

  /** The LED timer test of lines 186 and 190; STARTED_BLUE_LED == 0.0 is falsy, i.e. no timer. */
  datatype Timer = NoTimer | Cooling | Elapsed

  function TimerAt(startedAt: real, now: real): (r: Timer)
    ensures r == NoTimer <==> startedAt == 0.0
    ensures r == Cooling <==> startedAt != 0.0 && now < startedAt + DROWSY_TIMER
  {
    if startedAt == 0.0 then NoTimer
    else if now - startedAt < DROWSY_TIMER then Cooling
    else Elapsed
  }

  /** The blue LED (blue_led.value) and its timer (STARTED_BLUE_LED). */
  datatype Led = Led(on: bool, startedAt: real)

  /** The LED after lines 190-194: off, with the timer cleared, once the
      timer has run out; otherwise as it was. */
  function Cleared(led: Led, now: real): Led {
    if TimerAt(led.startedAt, now) == Elapsed then Led(false, 0.0) else led
  }

  /** Lines 186-212, run once blink_series is marked ready. While the LED
      timer runs the rest of the pass is skipped and nothing changes; a timer
      that has run out switches the LED off and is cleared. Then the LED goes
      on, with its timer started now, when the mean of the last three blink
      durations is at least twice the baseline; an error reading those
      durations escapes the pass. */
  function Drowsiness(led: Led, now: real, durations: Result<seq<real>>, baseline: real): (r: (Tick, Led))
    requires durations.Ok? ==> |durations.value| == 3
    ensures TimerAt(led.startedAt, now) == Cooling ==> r == (CooldownSkip, led)
    ensures r.0.Raised? <==> TimerAt(led.startedAt, now) != Cooling && durations.Err?
    ensures r.0.Raised? ==> r.0.error == durations.error
    ensures r.1 == led || r.1 == Led(true, now) || r.1 == Led(false, 0.0)
    ensures led.on && !r.1.on ==> TimerAt(led.startedAt, now) == Elapsed
    ensures TimerAt(led.startedAt, now) != Cooling && durations.Ok? ==>
      r == (Done, if Average(durations.value).value >= DROWSY_FACTOR * baseline then Led(true, now)
                  else Cleared(led, now))
    ensures TimerAt(led.startedAt, now) != Cooling && durations.Err? ==>
      r == (Raised(durations.error), Cleared(led, now))
  {
    var timer := TimerAt(led.startedAt, now);
    if timer == Cooling then (CooldownSkip, led)
    else
      var cleared := if timer == Elapsed then Led(false, 0.0) else led;
      match durations
      case Err(e) => (Raised(e), cleared)
      case Ok(ds) =>
        if Average(ds).value >= DROWSY_FACTOR * baseline then (Done, Led(true, now))
        else (Done, cleared)
  }

  /** Three slow blinks, each lasting at least twice the baseline, switch the
      LED on with a fresh timer unless the timer is still running. */
  lemma DrowsyWhenSlow(led: Led, now: real, ds: seq<real>, baseline: real)
    requires TimerAt(led.startedAt, now) != Cooling && |ds| == 3
    requires forall i :: 0 <= i < 3 ==> ds[i] >= DROWSY_FACTOR * baseline
    ensures Drowsiness(led, now, Ok(ds), baseline) == (Done, Led(true, now))
  {
    AverageAtLeast(ds, DROWSY_FACTOR * baseline);
  }

  /** Three quick blinks, each shorter than twice the baseline, never switch
      the LED on: it stays as it was, or goes off if its timer has run out. */
  lemma AlertWhenQuick(led: Led, now: real, ds: seq<real>, baseline: real)
    requires TimerAt(led.startedAt, now) != Cooling && |ds| == 3
    requires forall i :: 0 <= i < 3 ==> ds[i] < DROWSY_FACTOR * baseline
    ensures Drowsiness(led, now, Ok(ds), baseline) == (Done, Cleared(led, now))
  {
    AverageBelow(ds, DROWSY_FACTOR * baseline);
  }

  /** It is the mean that counts, not each blink: with a 0.25 s baseline,
      blinks of 0.2, 0.2 and 1.4 s (mean 0.6 s) switch the LED on although
      two of them are quick. */
  lemma DrowsyOnMeanExample(now: real)
    ensures Drowsiness(Led(false, 0.0), now, Ok([0.2, 0.2, 1.4]), 0.25) == (Done, Led(true, now))
  {
    assert Sum([0.2, 0.2, 1.4]) == 1.8 by {
      assert [0.2, 0.2, 1.4][1..] == [0.2, 1.4];
      assert [0.2, 1.4][1..] == [1.4];
      assert [1.4][1..] == [];
    }
  }

  /** The calibration globals hold together with `stored` blinks in
      blink_series: while collecting, fewer than three ended blinks, no
      baseline and nothing stored; afterwards, no list and a baseline that is
      not negative. */
  ghost predicate CalibrationOk(c: Calibration, stored: nat) {
    && (forall i :: 0 <= i < |c.blinks| ==> c.blinks[i].start <= c.blinks[i].end)
    && (c.calibrating ==> |c.blinks| < CALIBRATION_BLINKS && c.baseline == 0.0 && stored == 0)
    && (!c.calibrating ==> c.blinks == [] && c.baseline >= 0.0)
  }

  /** Lines 170-181 for a blink b that has just ended: while calibrating it
      goes to the calibration, afterwards to the next slot of blink_series
      (the slot get_pointer gives after `stored` earlier stores). */
  function Settle(c: Calibration, series: seq<Slot>, stored: nat, b: BlinkRecord): (r: (Calibration, seq<Slot>, nat))
    requires |series| == BLINK_SIZE
    ensures |r.1| == BLINK_SIZE
    ensures forall i :: 0 <= i < BLINK_SIZE && i != Advance(BLINK_SIZE, stored + 1) ==> r.1[i] == series[i]
    ensures c.calibrating ==> r.1 == series && r.2 == stored
    ensures !c.calibrating ==> r.0 == c && r.2 == stored + 1
    ensures c.calibrating ==> r.0 == Calibrate(c, b)
    ensures !c.calibrating ==> r.1[Advance(BLINK_SIZE, stored + 1)] == Stored(b)
  {
    if c.calibrating then (Calibrate(c, b), series, stored)
    else (c, series[Advance(BLINK_SIZE, stored + 1) := Stored(b)], stored + 1)
  }

  /** Settling an ended blink keeps blink_series in shape and the calibration
      consistent with it; the ready marker (set by the check of line 156
      before) stays truthy exactly when five blinks had been stored. */
  lemma SettleKeepsShape(c: Calibration, series: seq<Slot>, stored: nat, b: BlinkRecord)
    requires BlinkShape(series, stored) && CalibrationOk(c, stored)
    requires series[BLINK_SIZE - 1] == Flag(if stored >= READY_BLINKS then 1 else 0)
    requires b.start <= b.end
    ensures var r := Settle(c, series, stored, b);
      && BlinkShape(r.1, r.2) && CalibrationOk(r.0, r.2)
      && (Truthy(r.1[BLINK_SIZE - 1]) <==> stored >= READY_BLINKS)
  {
    if c.calibrating {
      var collected := c.blinks + [b];
      if |collected| >= CALIBRATION_BLINKS {
        var durations := Durations(collected);
        AverageAtLeast(durations, 0.0);
      }
    } else {
      StoreKeepsBlinkShape(series, stored, b);
    }
  }

  /** Settle hands the blink on exactly as Route does for a run of one blink:
      to the calibration while calibrating, to blink_series after. */
  lemma SettleFollowsRoute(c: Calibration, series: seq<Slot>, stored: nat, b: BlinkRecord)
    requires |series| == BLINK_SIZE
    ensures Route(c, [b]) == (Settle(c, series, stored, b).0, if c.calibrating then [] else [b])
  {
    assert [b][1..] == [];
    assert [b] + [] == [b];
  }

  /** The number of blinks stored in blink_series after n have ended: all
      but the three calibration blinks. */
  function StoredAfter(n: nat): nat {
    if n < CALIBRATION_BLINKS then 0 else n - CALIBRATION_BLINKS
  }

  /** If the calibration and the count of stored blinks are what routing the
      ended blinks `history` gives, settling one more blink keeps them so. */
  lemma SettleExtendsHistory(history: seq<BlinkRecord>, c: Calibration, series: seq<Slot>, stored: nat, b: BlinkRecord)
    requires |series| == BLINK_SIZE
    requires Route(Uncalibrated, history).0 == c && |Route(Uncalibrated, history).1| == stored
    ensures var r := Settle(c, series, stored, b);
      Route(Uncalibrated, history + [b]).0 == r.0 && |Route(Uncalibrated, history + [b]).1| == r.2
  {
    RouteAppend(Uncalibrated, history, b);
    SettleFollowsRoute(c, series, stored, b);
  }

  /** blink_series after the ready check of lines 156-159 with `stored` blinks stored. */
  function MarkReady(s: seq<Slot>, stored: nat): seq<Slot>
    requires |s| == BLINK_SIZE
  {
    s[BLINK_SIZE - 1 := Flag(if stored >= READY_BLINKS then 1 else 0)]
  }

  /** A window list as lines 109-110, 116-117 and 119-120 set it up: every
      slot holds `fill`, except the last, which holds the ready marker 0. */
  function InitialSeries(size: int, fill: Slot): (r: seq<Slot>)
    requires size > 0
    ensures |r| == size && r[size - 1] == Flag(0)
    ensures forall i :: 0 <= i < size - 1 ==> r[i] == fill
  {
    seq(size, i => if i == size - 1 then Flag(0) else fill)
  }

  /** The initial lists are in shape for windows nobody has advanced yet. */
  lemma InitialShapes()
    ensures MarkedShape(InitialSeries(RAW_SIZE, Sample(0.0)), RAW_SIZE, 0)
    ensures MarkedShape(InitialSeries(SMA_SIZE, Sample(0.0)), SMA_SIZE, 0)
    ensures BlinkShape(InitialSeries(BLINK_SIZE, Unset), 0)
  {
  }

  /** The blink half of the tracker's state: last_blink (`open`) and its
      start time (0.0 when there is none), the calibration globals, the history
      of ended blinks, blink_series and the number of blinks stored in it. */
  datatype BlinkState = BlinkState(open: Blink?, openStart: real, calibration: Calibration,
                                   closed: seq<BlinkRecord>, series: seq<Slot>, stored: nat)

  /** The period-average list `periods` is marked ready (line 162). */
  predicate Ready(periods: seq<Slot>) {
    |periods| == SMA_SIZE && Truthy(periods[SMA_SIZE - 1])
  }

  /** current_voltage >= get_blink_voltage_threshold() with the period-average
      list `periods` (lines 164 and 166). */
  ghost predicate AtOrAbove(periods: seq<Slot>, voltage: real) {
    BlinkThreshold(periods).Ok? && Reaches(voltage, BlinkThreshold(periods).value)
  }

  /** The branch of line 164, taken when `open` is last_blink: a blink starts. */
  ghost predicate Opening(periods: seq<Slot>, voltage: real, open: Blink?) {
    Ready(periods) && open == null && AtOrAbove(periods, voltage)
  }

  /** The branch of line 166, taken when `open` is last_blink: the open blink ends. */
  ghost predicate Closing(periods: seq<Slot>, voltage: real, open: Blink?) {
    Ready(periods) && open != null && !AtOrAbove(periods, voltage)
  }

  /** The state main.py keeps in globals. */
  class Tracker {
    var raw: array<Slot>                    // raw_data_series
    var averages: array<Slot>               // period_average_series
    var blinks: array<Slot>                 // blink_series
    var rawWindow: Window                   // RAW_WINDOW
    var smaWindow: Window                   // SMA_WINDOW
    var blinkWindow: Window                 // BLINK_WINDOW
    var lastPeriodAverage: Option<real>     // last_period_average
    var lastBlink: Blink?                   // last_blink
    var calibration: Calibration            // CALIBRATING, calibration_blinks, BASELINE_BLINK_TIME
    var led: Led                            // blue_led.value, STARTED_BLUE_LED
    ghost var closed: seq<BlinkRecord>      // every blink ended so far, in order

    /** The three lists and the three windows are six different objects. */
    ghost predicate Distinct()
      reads this`raw, this`averages, this`blinks, this`rawWindow, this`smaWindow, this`blinkWindow
    {
      && raw != averages && raw != blinks && averages != blinks
      && rawWindow != smaWindow && rawWindow != blinkWindow && smaWindow != blinkWindow
    }

    /** raw_data_series and RAW_WINDOW are in step. */
    ghost predicate RawValid()
      reads this`raw, this`rawWindow, raw, rawWindow
    {
      && rawWindow.Valid() && rawWindow.size == RAW_SIZE
      && MarkedShape(raw[..], RAW_SIZE, rawWindow.calls)
    }

    /** period_average_series and SMA_WINDOW are in step. */
    ghost predicate AveragesValid()
      reads this`averages, this`smaWindow, averages, smaWindow
    {
      && smaWindow.Valid() && smaWindow.size == SMA_SIZE
      && MarkedShape(averages[..], SMA_SIZE, smaWindow.calls)
    }

    /** blink_series, BLINK_WINDOW and the calibration are in step. */
    ghost predicate BlinksValid()
      reads this`blinks, this`blinkWindow, this`calibration, blinks, blinkWindow
    {
      && blinkWindow.Valid() && blinkWindow.size == BLINK_SIZE
      && BlinkShape(blinks[..], blinkWindow.calls)
      && CalibrationOk(calibration, blinkWindow.calls)
    }

    /** An open blink has not ended; a running LED timer means the LED is on. */
    ghost predicate TimesValid()
      reads this`lastBlink, this`led, lastBlink
    {
      && (lastBlink != null ==> lastBlink.endTime == 0.0)
      && (led.startedAt != 0.0 ==> led.on)
    }

    /** The monotonic clock reads `now` or later than every time recorded so
        far: the start of the open blink and the start of the LED timer. */
    ghost predicate StartedBy(now: real)
      reads this`lastBlink, this`led, lastBlink
    {
      && (lastBlink != null ==> lastBlink.startTime <= now)
      && (led.startedAt != 0.0 ==> led.startedAt <= now)
    }

    /** The calibration globals and the number of stored blinks are what
        routing every blink ended so far, one at a time as lines 168-181 do,
        gives (Route). */
    ghost predicate HistoryValid()
      reads this`closed, this`calibration, this`blinkWindow, blinkWindow
    {
      && Route(Uncalibrated, closed).0 == calibration
      && |Route(Uncalibrated, closed).1| == blinkWindow.calls
    }

    ghost predicate Valid()
      reads this, raw, averages, blinks, rawWindow, smaWindow, blinkWindow, lastBlink
    {
      Distinct() && RawValid() && AveragesValid() && BlinksValid() && TimesValid() && HistoryValid()
    }

    /** In every reachable state the first three blinks ever ended are the
        calibration blinks: until there are three, they are all collected and
        none is stored; from then on BASELINE_BLINK_TIME is their mean
        duration and every later blink has been stored in blink_series. */
    lemma BaselineFromFirstBlinks()
      requires Valid()
      ensures calibration == CalibrationAfter(closed)
      ensures blinkWindow.calls == StoredAfter(|closed|)
    {
      CalibrationRunsOnce(closed);
    }

    /** The window pointers and lists, the calibration globals and the LED as
        lines 99-127 set them up. */
    constructor ()
      ensures Valid()
      ensures fresh(raw) && fresh(averages) && fresh(blinks)
      ensures fresh(rawWindow) && fresh(smaWindow) && fresh(blinkWindow)
      ensures rawWindow.pointer == -1 && smaWindow.pointer == -1 && blinkWindow.pointer == -1
      ensures raw[..] == InitialSeries(RAW_SIZE, Sample(0.0))
      ensures averages[..] == InitialSeries(SMA_SIZE, Sample(0.0))
      ensures blinks[..] == InitialSeries(BLINK_SIZE, Unset)
      ensures lastPeriodAverage == None && lastBlink == null
      ensures calibration == Uncalibrated && led == Led(false, 0.0) && closed == []
    {
      raw := new Slot[RAW_SIZE](i => if i == RAW_SIZE - 1 then Flag(0) else Sample(0.0));
      averages := new Slot[SMA_SIZE](i => if i == SMA_SIZE - 1 then Flag(0) else Sample(0.0));
      blinks := new Slot[BLINK_SIZE](i => if i == BLINK_SIZE - 1 then Flag(0) else Unset);
      rawWindow := new Window(RAW_SIZE);
      smaWindow := new Window(SMA_SIZE);
      blinkWindow := new Window(BLINK_SIZE);
      lastPeriodAverage := None;
      lastBlink := null;
      calibration := Uncalibrated;
      led := Led(false, 0.0);
      closed := [];
      new;
      assert raw[..] == InitialSeries(RAW_SIZE, Sample(0.0));
      assert averages[..] == InitialSeries(SMA_SIZE, Sample(0.0));
      assert blinks[..] == InitialSeries(BLINK_SIZE, Unset);
      InitialShapes();
    }

    /** Lines 141-150: the voltage goes to the next raw slot; when the raw
        pointer reaches the last slot, that slot becomes the ready marker 1 and
        the filtered mean of the raw window, which is the mean of the 127
        samples, is the new period average. */
    method RecordSample(voltage: real) returns (full: bool)
      requires Distinct() && RawValid()
      modifies this`lastPeriodAverage, raw, rawWindow
      ensures RawValid()
      ensures rawWindow.calls == old(rawWindow.calls) + 1
      ensures rawWindow.pointer == NextPointer(old(rawWindow.pointer), RAW_SIZE)
      ensures full == rawWindow.AtMax()
      ensures !full ==>
        raw[..] == old(raw[..])[rawWindow.pointer := Sample(voltage)] && lastPeriodAverage == old(lastPeriodAverage)
      ensures full ==>
        && raw[..] == old(raw[..])[RAW_SIZE - 1 := Flag(1)]
        && Mean(raw[..], true).Ok?
        && lastPeriodAverage == Some(Average(Numbers(raw[..RAW_SIZE - 1]).value).value)
    {
      ghost var raw0 := raw[..];
      MarkedWrite(raw0, RAW_SIZE, rawWindow.calls, voltage);
      var p := rawWindow.GetPointer();
      raw[p] := Sample(voltage);
      full := rawWindow.AtMax();
      if full {
        raw[RAW_SIZE - 1] := Flag(1);
        assert raw[..] == raw0[RAW_SIZE - 1 := Flag(1)];
        PeriodAverageOfSamples(raw[..], rawWindow.calls);
        lastPeriodAverage := Some(Mean(raw[..], true).value);
      }
    }

    /** Lines 151-154: a new period average goes to the next slot of the
        period-average list, and whenever that window's pointer is on its last
        slot the slot is (again) the ready marker 1. */
    method RecordAverage(full: bool, average: real)
      requires AveragesValid()
      modifies averages, smaWindow
      ensures AveragesValid()
      ensures !full ==> averages[..] == old(averages[..]) && unchanged(smaWindow)
      ensures full ==>
        && smaWindow.calls == old(smaWindow.calls) + 1
        && smaWindow.pointer == NextPointer(old(smaWindow.pointer), SMA_SIZE)
        && averages[..] == if smaWindow.AtMax() then old(averages[..])[SMA_SIZE - 1 := Flag(1)]
                           else old(averages[..])[smaWindow.pointer := Sample(average)]
    {
      ghost var averages0 := averages[..];
      if full {
        MarkedWrite(averages0, SMA_SIZE, smaWindow.calls, average);
        var q := smaWindow.GetPointer();
        averages[q] := Sample(average);
      } else if smaWindow.AtMax() {
        MarkedAtMax(averages0, SMA_SIZE, smaWindow.calls);
      }
      if smaWindow.AtMax() {
        averages[SMA_SIZE - 1] := Flag(1);
        assert averages[..] == averages0[SMA_SIZE - 1 := Flag(1)];
      }
    }

    /** Lines 156-159: once blink_series holds at least five Blinks (by
        BlinkCount, once five have been stored), its last slot becomes the
        ready marker 1; otherwise nothing changes. */
    method CheckBlinkWindow()
      requires BlinksValid()
      modifies blinks
      ensures BlinksValid()
      ensures blinkWindow.calls >= READY_BLINKS ==> blinks[..] == old(blinks[..])[BLINK_SIZE - 1 := Flag(1)]
      ensures blinkWindow.calls < READY_BLINKS ==> blinks[..] == old(blinks[..])
      ensures blinks[BLINK_SIZE - 1] == Flag(if blinkWindow.calls >= READY_BLINKS then 1 else 0)
    {
      BlinkCount(blinks[..], blinkWindow.calls);
      MarkBlinksReady(blinks[..], blinkWindow.calls);
      if |Filter(blinks[..])| >= READY_BLINKS {
        blinks[BLINK_SIZE - 1] := Flag(1);
      }
    }

    /** The recording half of the state as a value. */
    ghost function Recorded(): Readings
      reads this`raw, this`averages, this`rawWindow, this`smaWindow, this`lastPeriodAverage
      reads raw, averages, rawWindow, smaWindow
    {
      Readings(raw[..], rawWindow.calls, averages[..], smaWindow.calls, lastPeriodAverage)
    }

    /** Lines 141-159, the recording half of a pass: the sample, the period
        average when the raw window is full, and the ready markers. */
    method Sense(voltage: real)
      requires Valid()
      modifies this`lastPeriodAverage, raw, averages, blinks, rawWindow, smaWindow
      ensures Valid()
      ensures blinks[BLINK_SIZE - 1] == Flag(if blinkWindow.calls >= READY_BLINKS then 1 else 0)
      ensures Recorded() == Record(old(Recorded()), voltage)
      ensures unchanged(blinkWindow)
      ensures blinks[..] == MarkReady(old(blinks[..]), blinkWindow.calls)
    {
      ghost var before := Recorded();
      var full := RecordSample(voltage);
      RecordAverage(full, if full then lastPeriodAverage.value else 0.0);
      CheckBlinkWindow();
      assert Recorded() == Record(before, voltage) by {
        if full {
          PeriodAverageOfSamples(raw[..], rawWindow.calls);
        }
      }
    }

    /** The blink half of the state (see BlinkState). */
    ghost function Blinking(): (b: BlinkState)
      reads this`lastBlink, this`calibration, this`closed, this`blinks, this`blinkWindow
      reads lastBlink, blinks, blinkWindow
      ensures b.open == lastBlink && b.series == blinks[..]
    {
      BlinkState(lastBlink, if lastBlink != null then lastBlink.startTime else 0.0,
                 calibration, closed, blinks[..], blinkWindow.calls)
    }

    /** What lines 162-183 leave behind from the blink state `b`, with the
        period-average list `periods`: the open blink keeps the start it had;
        a new open blink started now (line 164); or the open blink ended now,
        joined the history and was settled (line 166, Settle); otherwise
        nothing changed. */
    ghost predicate Detected(periods: seq<Slot>, voltage: real, now: real, b: BlinkState)
      requires |b.series| == BLINK_SIZE
      reads this`blinks, this`blinkWindow, this`lastBlink, this`calibration, this`closed
      reads blinks, blinkWindow, lastBlink, b.open
    {
      && (b.open != null ==> b.open.startTime == b.openStart)
      && (!Opening(periods, voltage, b.open) && !Closing(periods, voltage, b.open) ==>
            && lastBlink == b.open && calibration == b.calibration && closed == b.closed
            && blinks[..] == b.series && blinkWindow.calls == b.stored)
      && (Opening(periods, voltage, b.open) ==>
            && lastBlink != null && lastBlink.startTime == now && lastBlink.endTime == 0.0
            && calibration == b.calibration && closed == b.closed
            && blinks[..] == b.series && blinkWindow.calls == b.stored)
      && (Closing(periods, voltage, b.open) ==>
            && lastBlink == null && b.open.endTime == now
            && closed == b.closed + [BlinkRecord(b.openStart, now)]
            && (calibration, blinks[..], blinkWindow.calls)
               == Settle(b.calibration, b.series, b.stored, BlinkRecord(b.openStart, now)))
    }

    /** What lines 185-215 leave behind, from the LED state `led0`: nothing
        while blink_series is not marked ready; otherwise the outcome and the
        LED of Drowsiness on the last three blinks as LastThree reads them,
        which fails (Raised(NotABlink)) exactly when the blink pointer is 0
        or 1 and the timer is not cooling, and that needs more than 16 stored
        blinks. */
    ghost predicate Checked(tick: Tick, led0: Led, now: real)
      reads this`blinks, this`blinkWindow, this`led, this`calibration, blinks, blinkWindow
    {
      && blinks.Length == BLINK_SIZE && blinkWindow.pointer < BLINK_SIZE
      && (!Truthy(blinks[BLINK_SIZE - 1]) ==> tick == Done && led == led0)
      && (Truthy(blinks[BLINK_SIZE - 1]) ==>
            && 0 <= blinkWindow.pointer
            && (tick, led) == Drowsiness(led0, now, BlinkDurations(LastThree(blinks[..], blinkWindow.pointer)),
                                         calibration.baseline))
      && (tick.Raised? <==>
            Truthy(blinks[BLINK_SIZE - 1]) && TimerAt(led0.startedAt, now) != Cooling && blinkWindow.pointer < 2)
      && (tick.Raised? ==> tick.error == NotABlink && blinkWindow.calls > BLINK_SIZE)
    }

    /** Lines 167-183: the open blink ends now and is settled (Settle); then
        no blink is open. */
    method EndBlink(now: real)
      requires Valid() && StartedBy(now) && lastBlink != null
      requires blinks[BLINK_SIZE - 1] == Flag(if blinkWindow.calls >= READY_BLINKS then 1 else 0)
      modifies this`lastBlink, this`calibration, this`closed, lastBlink, blinks, blinkWindow
      ensures Valid() && StartedBy(now)
      ensures lastBlink == null && old(lastBlink).endTime == now && old(lastBlink).startTime == old(lastBlink.startTime)
      ensures closed == old(closed) + [BlinkRecord(old(lastBlink).startTime, now)]
      ensures (calibration, blinks[..], blinkWindow.calls)
           == Settle(old(calibration), old(blinks[..]), old(blinkWindow.calls),
                     BlinkRecord(old(lastBlink).startTime, now))
      ensures Truthy(blinks[BLINK_SIZE - 1]) <==> old(blinkWindow.calls) >= READY_BLINKS
    {
      lastBlink.MarkEnd(now);
      var ended := BlinkRecord(lastBlink.startTime, lastBlink.endTime);
      SettleKeepsShape(calibration, blinks[..], blinkWindow.calls, ended);
      SettleExtendsHistory(closed, calibration, blinks[..], blinkWindow.calls, ended);
      closed := closed + [ended];
      if calibration.calibrating {
        calibration := Calibrate(calibration, ended);
      } else {
        var p := blinkWindow.GetPointer();
        blinks[p] := Stored(ended);
      }
      lastBlink := null;
    }

    /** Lines 162-183, the blink state machine. Once the period-average window
        is ready, a blink starts when none is open and the voltage reaches the
        threshold, and the open one ends (EndBlink) when the voltage is below
        it; otherwise nothing changes. */
    method DetectBlink(voltage: real, now: real)
      requires Valid() && StartedBy(now)
      requires blinks[BLINK_SIZE - 1] == Flag(if blinkWindow.calls >= READY_BLINKS then 1 else 0)
      modifies this`lastBlink, this`calibration, this`closed, lastBlink, blinks, blinkWindow
      ensures Valid() && StartedBy(now)
      ensures Ready(averages[..]) ==> BlinkThreshold(averages[..]).Ok?
      ensures Detected(old(averages[..]), voltage, now, old(Blinking()))
      ensures Opening(old(averages[..]), voltage, old(lastBlink)) ==> fresh(lastBlink)
      ensures !Closing(old(averages[..]), voltage, old(lastBlink)) ==>
        unchanged(blinkWindow) && (old(lastBlink) != null ==> unchanged(old(lastBlink)))
      ensures Truthy(blinks[BLINK_SIZE - 1]) <==> old(blinkWindow.calls) >= READY_BLINKS
    {
      if Truthy(averages[SMA_SIZE - 1]) {
        assert BlinkThreshold(averages[..]).Ok? by {
          ThresholdWhenReady(averages[..], smaWindow.calls);
        }
        var threshold := BlinkThreshold(averages[..]).value;
        if Reaches(voltage, threshold) && lastBlink == null {
          lastBlink := new Blink(now);
        } else if !Reaches(voltage, threshold) && lastBlink != null {
          EndBlink(now);
        }
      }
    }

    /** Lines 185-215, the drowsiness check, run once blink_series is marked
        ready: the LED and the outcome are those of Drowsiness on the last three
        blinks as LastThree reads them. Reading them fails, with the
        AttributeError modelled as Raised(NotABlink), exactly when the blink
        pointer is 0 or 1, which needs more than 16 stored blinks. */
    method CheckDrowsiness(now: real) returns (tick: Tick)
      requires Valid() && StartedBy(now)
      modifies this`led
      ensures Valid() && StartedBy(now)
      ensures Checked(tick, old(led), now)
    {
      tick := Done;
      ghost var led0 := led;
      if Truthy(blinks[BLINK_SIZE - 1]) {
        LastThreeFailsOnlyAfterWrap(blinks[..], blinkWindow.calls);
        ghost var expected :=
          Drowsiness(led0, now, BlinkDurations(LastThree(blinks[..], blinkWindow.pointer)), calibration.baseline);
        var timer := TimerAt(led.startedAt, now);
        if timer == Cooling {
          tick := CooldownSkip;
        } else {
          if timer == Elapsed {
            led := Led(false, 0.0);
          }
          var durations := BlinkDurations(LastThree(blinks[..], blinkWindow.pointer));
          if durations.Err? {
            tick := Raised(durations.error);
          } else if Average(durations.value).value >= DROWSY_FACTOR * calibration.baseline {
            led := Led(true, now);
          }
        }
        assert (tick, led) == expected;
      }
    }

    /** Lines 162-215, the reacting half of a pass: the blink state machine,
        then the drowsiness check. */
    method React(voltage: real, now: real) returns (tick: Tick)
      requires Valid() && StartedBy(now)
      requires blinks[BLINK_SIZE - 1] == Flag(if blinkWindow.calls >= READY_BLINKS then 1 else 0)
      modifies this`lastBlink, this`calibration, this`closed, this`led, lastBlink, blinks, blinkWindow
      ensures Valid() && StartedBy(now)
      ensures Detected(old(averages[..]), voltage, now, old(Blinking()))
      ensures Opening(old(averages[..]), voltage, old(lastBlink)) ==> fresh(lastBlink)
      ensures !Closing(old(averages[..]), voltage, old(lastBlink)) ==>
        unchanged(blinkWindow) && (old(lastBlink) != null ==> unchanged(old(lastBlink)))
      ensures Checked(tick, old(led), now)
      ensures Truthy(blinks[BLINK_SIZE - 1]) <==> old(blinkWindow.calls) >= READY_BLINKS
    {
      DetectBlink(voltage, now);
      tick := CheckDrowsiness(now);
    }

    /** One pass of the `while True` body (lines 137-219) with the voltage read
        at line 141 and the monotonic clock reading `now`. */
    method Step(voltage: real, now: real) returns (tick: Tick)
      requires Valid() && StartedBy(now)
      modifies this, raw, averages, blinks, rawWindow, smaWindow, blinkWindow, lastBlink
      ensures Valid() && StartedBy(now)
      ensures raw == old(raw) && averages == old(averages) && blinks == old(blinks)
      ensures rawWindow == old(rawWindow) && smaWindow == old(smaWindow) && blinkWindow == old(blinkWindow)
      ensures Recorded() == Record(old(Recorded()), voltage)
      ensures Detected(averages[..], voltage, now,
                       old(Blinking()).(series := MarkReady(old(blinks[..]), old(blinkWindow.calls))))
      ensures Opening(averages[..], voltage, old(lastBlink)) ==> fresh(lastBlink)
      ensures Checked(tick, old(led), now)
      ensures Truthy(blinks[BLINK_SIZE - 1]) <==> old(blinkWindow.calls) >= READY_BLINKS
    {
      Sense(voltage);
      tick := React(voltage, now);
    }
  }
}
