/** The blink voltage threshold (get_blink_voltage_threshold, main.py lines
    78-83), the Blink class (lines 85-93) and the one-shot calibration of the
    baseline blink time (lines 168-177). */
module Blinks {
  import opened Slots
  import opened Statistics

  const SENSITIVITY: real := 10.0
  /** The smallest distance of the threshold above the mean (line 80). */
  const MIN_DISTANCE: real := 0.5
  /** Number of blinks the calibration collects (line 171). */
  const CALIBRATION_BLINKS: nat := 3

  /** The threshold mean(series) + max(SENSITIVITY * stddev(series), 0.5),
      held as its mean and its (symbolic) standard deviation. */
  datatype Threshold = Threshold(center: real, spread: Root)

  /** get_blink_voltage_threshold over the period average series: stddev
      filters out the ready marker but mean (with filter_data left False) does
      not, so the marker's value counts in the centre. */
  function BlinkThreshold(series: seq<Slot>): (r: Result<Threshold>)
    ensures |Filter(series)| < 2 ==> r == Err(InsufficientData)
    ensures r.Ok? ==> Stddev(series, 0) == Ok(r.value.spread) && r.value.spread.square >= 0.0
    ensures r.Ok? ==> Mean(series, false) == Ok(r.value.center)
  {
    match Stddev(series, 0)
    case Err(e) => Err(e)
    case Ok(sd) =>
      match Mean(series, false)
      case Err(e) => Err(e)
      case Ok(m) => Ok(Threshold(m, sd))
  }

  /** The distance of lines 79-81 for a concrete standard deviation sd. */
  function Distance(sd: real): (r: real)
    ensures r >= MIN_DISTANCE && r >= SENSITIVITY * sd
    ensures r == MIN_DISTANCE || r == SENSITIVITY * sd
  {
    if SENSITIVITY * sd < MIN_DISTANCE then MIN_DISTANCE else SENSITIVITY * sd
  }

  /** current_voltage >= threshold, decided exactly without taking the root:
      the voltage is at least MIN_DISTANCE above the centre and its squared
      distance is at least SENSITIVITY**2 times the variance. */
  predicate Reaches(v: real, t: Threshold) {
    var d := v - t.center;
    d >= MIN_DISTANCE && d * d >= SENSITIVITY * SENSITIVITY * t.spread.square
  }

  /** For the true standard deviation sd, Reaches is exactly the comparison
      against mean + max(SENSITIVITY * sd, 0.5); so the threshold never lies
      less than 0.5 above the mean. */
  lemma ReachesExactly(v: real, t: Threshold, sd: real)
    requires sd >= 0.0 && sd * sd == t.spread.square
    ensures Distance(sd) >= MIN_DISTANCE
    ensures Reaches(v, t) <==> v >= t.center + Distance(sd)
  {
    var d := v - t.center;
    var k := SENSITIVITY * sd;
    assert k >= 0.0;
    assert k * k == SENSITIVITY * SENSITIVITY * t.spread.square;
    if d >= MIN_DISTANCE {
      if d >= k {
        MulMono(k, d);
      } else {
        MulStrict(d, k);
      }
    }
  }

  lemma MulMono(a: real, b: real)
    requires 0.0 <= a <= b
    ensures a * a <= b * b
  {
    assert a * a <= a * b;
    assert a * b <= b * b;
  }

  lemma MulStrict(a: real, b: real)
    requires 0.0 <= a < b
    ensures a * a < b * b
  {
    PositiveProduct(b - a, b + a);
    assert (b - a) * (b + a) == b * b - a * a;
  }

  lemma PositiveProduct(x: real, y: real)
    requires x > 0.0 && y > 0.0
    ensures x * y > 0.0
  {
  }

  /** A Blink: started when created, ended by mark_end; both readings come
      from the monotonic clock, passed in as `now`. */
  class Blink {
    var startTime: real
    var endTime: real

    constructor (now: real)
      ensures startTime == now && endTime == 0.0
    {
      startTime := now;
      endTime := 0.0;
    }

    /** mark_end */
    method MarkEnd(now: real)
      modifies this
      ensures startTime == old(startTime) && endTime == now
    {
      endTime := now;
    }
  }

  /** The calibration globals: CALIBRATING, calibration_blinks and
      BASELINE_BLINK_TIME. */
  datatype Calibration = Calibration(calibrating: bool, blinks: seq<BlinkRecord>, baseline: real)

  const Uncalibrated := Calibration(true, [], 0.0)

  function Durations(bs: seq<BlinkRecord>): (r: seq<real>)
    ensures |r| == |bs| && forall i :: 0 <= i < |bs| ==> r[i] == bs[i].Duration()
  {
    seq(|bs|, i requires 0 <= i < |bs| => bs[i].Duration())
  }

  /** Blinks that each end no earlier than they start have durations whose
      mean, the baseline blink time of line 174, is not negative. */
  lemma BaselineNotNegative(bs: seq<BlinkRecord>)
    requires |bs| >= 1
    requires forall i :: 0 <= i < |bs| ==> bs[i].start <= bs[i].end
    ensures Average(Durations(bs)).Ok? && Average(Durations(bs)).value >= 0.0
  {
    AverageAtLeast(Durations(bs), 0.0);
  }

  /** A closed blink while calibrating: it joins calibration_blinks; once
      there are three, calibration ends for good, the baseline becomes the
      mean of their durations and the list is deleted. */
  function Calibrate(c: Calibration, b: BlinkRecord): (r: Calibration)
    requires c.calibrating
    ensures |c.blinks| + 1 < CALIBRATION_BLINKS ==>
      r.calibrating && r.blinks == c.blinks + [b] && r.baseline == c.baseline
    ensures |c.blinks| + 1 >= CALIBRATION_BLINKS ==>
      !r.calibrating && r.blinks == [] && r.baseline == Average(Durations(c.blinks + [b])).value
  {
    var collected := c.blinks + [b];
    if |collected| >= CALIBRATION_BLINKS then Calibration(false, [], Average(Durations(collected)).value)
    else c.(blinks := collected)
  }

  /** Routes a run of closed blinks in order, as lines 168-181 do one at a
      time: the calibration state at the end, and the blinks that went on to
      the blink window. */
  function Route(c: Calibration, bs: seq<BlinkRecord>): (Calibration, seq<BlinkRecord>)
    decreases |bs|
  {
    if bs == [] then (c, [])
    else if c.calibrating then Route(Calibrate(c, bs[0]), bs[1..])
    else
      var rest := Route(c, bs[1..]);
      (rest.0, [bs[0]] + rest.1)
  }

  /** Routing a run and then one more blink is routing the longer run. */
  lemma {:induction false} RouteAppend(c: Calibration, bs: seq<BlinkRecord>, b: BlinkRecord)
    ensures var (mid, routed) := Route(c, bs);
      Route(c, bs + [b]) == (Route(mid, [b]).0, routed + Route(mid, [b]).1)
    decreases |bs|
  {
    if bs == [] {
      assert bs + [b] == [b];
      assert [] + Route(c, [b]).1 == Route(c, [b]).1;
    } else {
      assert (bs + [b])[1..] == bs[1..] + [b];
      if c.calibrating {
        RouteAppend(Calibrate(c, bs[0]), bs[1..], b);
      } else {
        RouteAppend(c, bs[1..], b);
        var (mid, routed) := Route(c, bs[1..]);
        assert [bs[0]] + (routed + Route(mid, [b]).1) == ([bs[0]] + routed) + Route(mid, [b]).1;
      }
    }
  }

  /** Once calibration is over, nothing changes it and every blink goes to the window. */
  lemma {:induction false} CalibratedStaysCalibrated(c: Calibration, bs: seq<BlinkRecord>)
    requires !c.calibrating
    ensures Route(c, bs) == (c, bs)
    decreases |bs|
  {
    if bs != [] {
      CalibratedStaysCalibrated(c, bs[1..]);
      assert [bs[0]] + bs[1..] == bs;
    }
  }

  lemma {:induction false} RouteWhileCalibrating(c: Calibration, bs: seq<BlinkRecord>)
    requires c.calibrating && |c.blinks| < CALIBRATION_BLINKS
    ensures var (final, routed) := Route(c, bs);
      if |c.blinks| + |bs| < CALIBRATION_BLINKS then
        final == c.(blinks := c.blinks + bs) && routed == []
      else
        var k := CALIBRATION_BLINKS - |c.blinks|;
        && final == Calibration(false, [], Average(Durations(c.blinks + bs[..k])).value)
        && routed == bs[k..]
    decreases |bs|
  {
    if bs != [] {
      var next := Calibrate(c, bs[0]);
      if next.calibrating {
        RouteWhileCalibrating(next, bs[1..]);
        assert c.blinks + bs == next.blinks + bs[1..];
        if |c.blinks| + |bs| >= CALIBRATION_BLINKS {
          var k := CALIBRATION_BLINKS - |c.blinks|;
          assert c.blinks + bs[..k] == next.blinks + bs[1..][..k - 1];
          assert bs[k..] == bs[1..][k - 1..];
        }
      } else {
        CalibratedStaysCalibrated(next, bs[1..]);
        assert c.blinks + bs[..1] == c.blinks + [bs[0]];
      }
    }
  }

  /** The calibration globals after the closed blinks `bs`, in closed form:
      collecting them while there are fewer than three, then over, with the
      mean duration of the first three as baseline. */
  function CalibrationAfter(bs: seq<BlinkRecord>): Calibration {
    if |bs| < CALIBRATION_BLINKS then Calibration(true, bs, 0.0)
    else Calibration(false, [], Average(Durations(bs[..CALIBRATION_BLINKS])).value)
  }

  /** Calibration fires exactly once: routing the closed blinks one at a time
      ends in CalibrationAfter, and every blink after the third goes to the
      blink window, in order. */
  lemma CalibrationRunsOnce(bs: seq<BlinkRecord>)
    ensures var (final, routed) := Route(Uncalibrated, bs);
      && final == CalibrationAfter(bs)
      && routed == if |bs| < CALIBRATION_BLINKS then [] else bs[CALIBRATION_BLINKS..]
  {
    RouteWhileCalibrating(Uncalibrated, bs);
    assert [] + bs == bs;
    if |bs| >= CALIBRATION_BLINKS {
      assert [] + bs[..CALIBRATION_BLINKS] == bs[..CALIBRATION_BLINKS];
    }
  }

  /** The worked example: blinks of 0.2, 0.3 and 0.25 seconds give a 0.25 s baseline. */
  lemma CalibrationExample()
    ensures Route(Uncalibrated, [BlinkRecord(1.0, 1.2), BlinkRecord(2.0, 2.3), BlinkRecord(3.0, 3.25)]).0
         == Calibration(false, [], 0.25)
  {
    var bs := [BlinkRecord(1.0, 1.2), BlinkRecord(2.0, 2.3), BlinkRecord(3.0, 3.25)];
    CalibrationRunsOnce(bs);
    assert bs[..3] == bs;
    assert Durations(bs) == [0.2, 0.3, 0.25];
    assert Sum([0.2, 0.3, 0.25]) == 0.75;
  }
}
