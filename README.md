# Dr. Drowsy blink tracker, modelled in Dafny

Dr. Drowsy is a CircuitPython program. It reads a voltage from an
electrode on an analog pin. From the signal it detects eye blinks and
learns a baseline blink length from the first three blinks. When the last
three blinks are on average at least twice that long, it lights a blue LED
for 30 seconds.

This project models the core of `main.py`. It covers:

- the statistics helpers (`mean`, `_ss`, `stddev`);
- the sentinel filter `is_not_None_or_int`;
- the window pointers (`get_pointer`, `pointer_at_max`);
- the adaptive blink threshold and the `Blink` class;
- one pass of the main loop, modelled over the script's global state.

The modules follow the program's parts:

- `Slots` (slots.dfy): what a window slot can hold. A slot is `Unset`
  (None), a float `Sample`, an int `Flag` (the ready marker kept in each
  list's last slot) or a closed blink (`Stored`). It also holds the
  identity test that tells data from markers, and the `filter` built on it.
- `Statistics` (statistics.dfy): `mean`, `_ss` and `stddev` over exact
  reals. They keep the source's error cases: ValueError on too few points,
  TypeError when `sum` meets a non-number. The final square root stays
  symbolic: a `Root` carries its square.
- `Windows` (windows.dfy): a `Window` class for the `[pointer, size]`
  list. `GetPointer` updates it in place. A ghost call counter ties the
  pointer to the number of calls made.
- `Blinks` (blinks.dfy): the threshold `mean + max(10 * stddev, 0.5)`. The
  comparison against it is decided exactly, without taking the root. Also
  the `Blink` class and the one-shot calibration of the baseline blink time.
- `DrowsyTracker` (tracker.dfy): a `Tracker` class. Its fields are the
  script's globals: three arrays for the lists, three windows, the open
  blink, the calibration state and the LED. `Step` is one pass of the
  `while True` body and is split into the same phases as the source:
  - record the sample;
  - update the period averages;
  - set the ready markers;
  - run the blink state machine;
  - run the drowsiness check.

`Valid()` is the invariant every pass keeps:

- each list's slots hold what the source puts there;
- the raw and period-average markers are 1 exactly when their window's pointer has reached the last slot;
- the blink marker is 0 until five blinks have been stored and 1 from then on (set by the check of lines 156-159), with one exception: the 16th, 32nd, ... stored blink lands on the marker slot, because line 181 stores at pointer 15; line 159 writes the 1 back over it on the next pass, so that blink is lost from the window;
- the first min(stored, 15) slots of `blink_series` hold ended blinks and its other slots below 15 are None;
- the calibration globals are consistent with one another, and are what handing every ended blink so far, in order, to lines 168-181 gives (a ghost history of ended blinks, `closed`);
- an open blink has end time 0.0, and a running LED timer means the LED is on.

`StartedBy(now)` says the clock reading `now` is no earlier than the start
of the open blink and of the LED timer. Each method that takes a clock
reading requires it and keeps it.

The last-three extraction of lines 200-206 is modelled as written. For a
pointer below 3 it reads the pointer's slot and the two slots before it.
From 3 on it reads the slice `[p-3, p)`, which leaves out the newest blink.
When the pointer wraps to 0 or 1, the slots read include slot 15. That slot
holds the int marker, so `get_duration` raises AttributeError. The model
proves this happens exactly when the pointer is 0 or 1, that is after more
than 16 stored blinks, and only when the LED timer is not running. A pass
that raises ends in `Raised(NotABlink)`.

## Model

| member | source | states |
|---|---|---|
| Slots.BlinkRecord.Duration | main.py:92-93 | `get_duration` is end minus start: start plus the duration is the end, and it is not negative for a blink that did not end before it started |
| Slots.IsData | main.py:62-65 | `is_not_None_or_int` holds exactly for slots other than None and the ints 0 and 1 |
| Slots.Filter | main.py:36 | the filtered list is never longer than the list |
| Slots.FilterMembership | main.py:62-65 | `filter(is_not_None_or_int, s)` keeps exactly the elements that are neither None nor the int 0 or 1; float samples such as 0.0 and 1.0 are kept |
| Slots.FilterAppend | main.py:36 | filtering distributes over concatenation, so the filter keeps the order of the list |
| Slots.FilterKeepsData | main.py:54 | a list of data comes out of the filter unchanged |
| Slots.FilterDropsMarkers | main.py:54 | a list of None and int markers filters to nothing |
| Slots.Numbers | main.py:40 | `sum` succeeds exactly when every element is a number, and then sees each element's value; otherwise TypeError |
| Statistics.SumAppend | main.py:40 | the sum of a list with one more element is the old sum plus that element |
| Statistics.Average | main.py:37-40 | mean of a float list: ValueError exactly when it is empty, otherwise mean times length equals the sum |
| Statistics.AverageAtLeast | main.py:40 | the mean is at least any lower bound of the data |
| Statistics.AverageAtMost | main.py:40 | the mean is at most any upper bound of the data |
| Statistics.AverageBelow | main.py:40 | the mean is strictly below any strict upper bound of the data |
| Statistics.Mean | main.py:33-40 | `mean(data, filter_data)`: ValueError when nothing is left after the optional filter, TypeError when a non-number remains, otherwise mean times count equals the sum of what is left |
| Statistics.MeanIgnoresMarkers | main.py:33-40 | with `filter_data=True`, None and int markers around the data do not change the mean |
| Statistics.SquaredDeviations | main.py:46 | a sum of squared deviations is never negative |
| Statistics.NoDeviationFromConstant | main.py:46 | values that all equal c have no squared deviation from c |
| Statistics.DeviationPositive | main.py:46 | one value that differs from c makes the squared deviations from c positive |
| Statistics.NoDeviationMeansConstant | main.py:46 | squared deviations from c sum to 0 only when every value is c |
| Statistics.SumOfSquares | main.py:43-47 | `_ss` fails like `mean` does on empty or non-numeric data, and otherwise is non-negative |
| Statistics.Stddev | main.py:50-60 | `stddev` always filters; ValueError when fewer than two values are left; it succeeds exactly when those values are numbers; the squared result times `n - ddof` is `_ss` of the filtered values, and it is non-negative |
| Statistics.PopulationVariance | main.py:50-60 | with ddof 0 the squared result is the mean of the squared deviations from the mean |
| Statistics.NoSpreadMeansConstant | main.py:50-60 | a standard deviation of 0 means every filtered value equals their mean |
| Statistics.ConstantDataHasNoSpread | main.py:50-60 | data that all equal one number have standard deviation 0 |
| Windows.NextPointer | main.py:70 | the new pointer is in `[0, size)`: one past the old pointer, wrapping from `size-1` to 0 |
| Windows.Advance | main.py:69-71 | the pointer after k calls from -1 lies in `[-1, size)` |
| Windows.AdvanceFacts | main.py:99-101 | after k calls the pointer is at most k-1, and exactly k-1 until the first wrap |
| Windows.AdvanceCycles | main.py:69-71 | successive calls from -1 give 0, 1, ..., size-1, 0, ...: the k-th call returns `(k-1) % size` |
| Windows.Window.constructor | main.py:99-101 | a window starts with pointer -1 and no calls made |
| Windows.Window.GetPointer | main.py:69-71 | `get_pointer` updates the pointer in place, returns it, keeps it in `[0, size)` and counts one call |
| Windows.Window.AtMax | main.py:73-74 | `pointer_at_max` holds exactly when the pointer is on a slot and the next call wraps to 0 |
| Blinks.BlinkThreshold | main.py:78-83 | the threshold fails with ValueError when fewer than two period averages survive the filter; otherwise its spread is `stddev(series)` and its centre is the unfiltered `mean(series)` |
| Blinks.Distance | main.py:79-81 | the distance is `max(SENSITIVITY * sd, 0.5)`: at least both, and equal to one of them |
| Blinks.ReachesExactly | main.py:78-83 | `Reaches`, which compares without taking the root, agrees with `v >= mean + max(10 * sd, 0.5)` for the true standard deviation sd; the distance is never below 0.5 |
| Blinks.Blink.constructor | main.py:86-88 | a new Blink starts at the current clock reading and has end time 0.0 |
| Blinks.Blink.MarkEnd | main.py:89-90 | `mark_end` sets the end time to the current clock reading and keeps the start |
| Blinks.BaselineNotNegative | main.py:174 | the mean duration of blinks that each end no earlier than they start exists and is not negative |
| Blinks.Calibrate | main.py:168-177 | a blink ended while calibrating joins `calibration_blinks`; with three collected, calibrating stops, the list is gone and the baseline is their mean duration; before that the baseline is unchanged |
| Blinks.RouteAppend | main.py:168-181 | handing a run of ended blinks and then one more to lines 168-181 (`Route`) is handing over the longer run |
| Blinks.CalibratedStaysCalibrated | main.py:168-181 | once calibration is over, the calibration state never changes and every ended blink goes to the blink window |
| Blinks.RouteWhileCalibrating | main.py:168-181 | from any collecting state, blinks are collected until there are three; then the baseline is the mean of those three durations, and the rest go to the window in order |
| Blinks.CalibrationRunsOnce | main.py:122-181 | from the initial globals, routing the ended blinks gives `CalibrationAfter`: the first three calibrate, exactly once, the baseline is their mean duration, and all later blinks go to the window in order |
| Blinks.CalibrationExample | main.py:174 | blinks of 0.2, 0.3 and 0.25 s give a 0.25 s baseline |
| DrowsyTracker.MarkedFilter | main.py:62-65 | filtering a list whose last slot holds the int marker drops exactly that slot |
| DrowsyTracker.MarkedWrite | main.py:142-149 | a write at the next pointer keeps the list's shape; on the last slot the marker 1 replaces the write |
| DrowsyTracker.MarkedAtMax | main.py:153-154 | while a window's pointer is on its last slot, the marker there is already 1 |
| DrowsyTracker.PeriodAverageOfSamples | main.py:148-150 | the period average never raises; it is the mean of the 127 samples, with the marker left out |
| DrowsyTracker.Record | main.py:141-154 | recording a voltage keeps both lists in shape and counts one more raw sample |
| DrowsyTracker.RecordedAverage | main.py:141-154 | what is recorded: the voltage in the next raw slot; or, when that slot is the last, one more period average, equal to the mean of the 127 samples, stored in the next period-average slot unless that slot is the last |
| DrowsyTracker.ThresholdWhenReady | main.py:78-83 | once the period-average window is ready, the threshold never raises, and its centre averages the seven period averages together with the marker's 1 |
| DrowsyTracker.ReadyMarkerShiftsThreshold | main.py:82 | with seven equal period averages c, a blink starts exactly at `(7c + 1)/8 + 0.5` volts, not at `c + 0.5` |
| DrowsyTracker.BlinkCount | main.py:156 | the filtered `blink_series` holds at least five entries exactly when at least five blinks have been stored |
| DrowsyTracker.MarkBlinksReady | main.py:156-159 | below five stored blinks the marker is still 0; from five on, setting it to 1 keeps `blink_series` in shape |
| DrowsyTracker.StoreKeepsSlots | main.py:181 | storing an ended blink at the next pointer keeps every slot below the stored count a Blink, the later slots None, and every Blink ended |
| DrowsyTracker.StoreKeepsBlinkShape | main.py:181 | storing an ended blink at the next pointer keeps `blink_series` in shape; the marker slot stays truthy exactly when five blinks had been stored before |
| DrowsyTracker.LastThreeSlots | main.py:200-206 | always three in-range slots; they include the pointer's own slot exactly when the pointer is below 3 |
| DrowsyTracker.LastThree | main.py:200-206 | `last_three_blinks` holds the slots LastThreeSlots names, in that order |
| DrowsyTracker.BlinkDurations | main.py:208 | mapping `get_duration` succeeds exactly when every slot holds a Blink, and then gives each one's duration; otherwise AttributeError |
| DrowsyTracker.LastThreeFailsOnlyAfterWrap | main.py:200-208 | once the blink window is ready, the durations fail exactly when the pointer is 0 or 1, which needs more than 16 stored blinks |
| DrowsyTracker.LastThreeHitsMarker | main.py:203 | at pointer 0 or 1 the modulo indices reach slot 15, which holds no Blink |
| DrowsyTracker.LastThreeAllStored | main.py:203-206 | from pointer 2 on, all three slots read hold stored Blinks |
| DrowsyTracker.TimerAt | main.py:186-190 | no timer exactly when `STARTED_BLUE_LED` is 0.0 (falsy); the timer is still running exactly when it is set and fewer than 30 s have passed |
| DrowsyTracker.Drowsiness | main.py:186-215 | while the timer runs, nothing changes and the pass ends at `continue`; otherwise a run-out timer is cleared with the LED off, and then the LED goes on with its timer started now exactly when the mean of the three durations is at least twice the baseline; the pass raises exactly when the timer is not running and the durations fail |
| DrowsyTracker.DrowsyWhenSlow | main.py:209-215 | three blinks each at least twice the baseline switch the LED on, with the timer started now, unless the timer is running |
| DrowsyTracker.AlertWhenQuick | main.py:190-212 | three blinks each shorter than twice the baseline never switch the LED on; it stays as it was, or goes off if its timer has run out |
| DrowsyTracker.DrowsyOnMeanExample | main.py:209-215 | it is the mean that counts: with a 0.25 s baseline, blinks of 0.2, 0.2 and 1.4 s switch the LED on |
| DrowsyTracker.Settle | main.py:168-183 | an ended blink goes to `Calibrate` while calibrating, with `blink_series` and the stored count unchanged; afterwards it is stored in the next pointer slot, one more blink is counted and the calibration is unchanged; no other slot changes |
| DrowsyTracker.SettleKeepsShape | main.py:168-181 | handling an ended blink keeps `blink_series` and the calibration globals consistent, and the marker slot stays truthy exactly when five blinks had been stored before |
| DrowsyTracker.SettleFollowsRoute | main.py:168-181 | Settle hands the blink on exactly as `Route` does for a run of one blink |
| DrowsyTracker.SettleExtendsHistory | main.py:168-181 | if the calibration and the stored count are what routing the history of ended blinks gives, then after Settle they are what routing the history plus the new blink gives |
| DrowsyTracker.InitialShapes | main.py:109-120 | the initial lists are in the shape the invariant demands for windows with no calls |
| DrowsyTracker.Tracker.BaselineFromFirstBlinks | main.py:122-181 | in every reachable state the calibration globals are `CalibrationAfter` the blinks ended so far (the baseline is the mean duration of the first three), and all ended blinks but those three have been stored |
| DrowsyTracker.Tracker.constructor | main.py:99-127 | the globals as the script sets them up: pointers -1, initial lists, no period average, no open blink, calibrating with no baseline, LED off with no timer, no blink ended yet |
| DrowsyTracker.Tracker.RecordSample | main.py:141-150 | the voltage goes to the next raw slot; when the raw pointer reaches the last slot, that slot becomes the marker 1 and the new period average is the mean of the 127 samples |
| DrowsyTracker.Tracker.RecordAverage | main.py:151-154 | a new period average goes to the next slot; whenever that pointer is on the last slot, the slot holds the marker 1 |
| DrowsyTracker.Tracker.CheckBlinkWindow | main.py:156-159 | the blink marker is set to 1 exactly when at least five blinks have been stored; nothing else changes |
| DrowsyTracker.Tracker.Sense | main.py:141-159 | the raw list, the period-average list, their counts and `last_period_average` become `Record` of the old ones; `blink_series` gets its marker set from the stored count (`MarkReady`); the blink window is unchanged; the invariant holds |
| DrowsyTracker.Tracker.EndBlink | main.py:167-183 | the open blink ends now and joins the history; the calibration, `blink_series` and the stored count become what Settle gives; no blink is open afterwards; the invariant holds |
| DrowsyTracker.Tracker.DetectBlink | main.py:162-183 | once the period-average window is ready the threshold is defined; the new state is `Detected` from the old `Blinking()` snapshot: the open blink keeps its start time; a blink opens, starting now, only when none is open and the voltage reaches the threshold; the open blink ends now and is settled as a blink from its recorded start to now only when the voltage is below it; otherwise nothing changes |
| DrowsyTracker.Tracker.CheckDrowsiness | main.py:185-215 | the new state is `Checked`: with the blink window ready, the outcome and the LED are Drowsiness on the last three blinks; without it, nothing happens; the pass raises exactly when the window is ready, the timer is not running and the pointer is 0 or 1, which needs more than 16 stored blinks |
| DrowsyTracker.Tracker.React | main.py:162-215 | the blink state machine and then the drowsiness check: the new blink state is `Detected` from the old snapshot (start time kept, a new blink is a fresh object), and the outcome and LED are `Checked`; the invariant holds |
| DrowsyTracker.Tracker.Step | main.py:136-219 | one pass keeps the invariant and the same lists and windows; the recording half of the state becomes `Record` of the old one; the blink state is `Detected` from the old snapshot with the marked `blink_series` and the new period averages, so the open blink keeps its start time and a new blink is a fresh object; the outcome and LED are `Checked` |

## Left out

- Hardware I/O is not modelled: the analog pin, the LED pin, `board` and `time.sleep` (main.py:7-21, 133). `getVoltage` (main.py:27-28) is replaced by the `voltage` parameter of `Step`. The LED is a boolean field.
- `time.monotonic()` is the `now` parameter. The source reads the clock at main.py:87, 90, 186, 190 and 215; the model uses one reading per pass for all of them. `StartedBy(now)` requires that reading to be no earlier than the times already recorded, which is what a monotonic clock gives.
- `print` output, the diagnostic counter `i` (main.py:137, 217-219) and `current_period_start_time` (main.py:115) are left out. The last is written but never read.
- Floating-point rounding is not modelled: arithmetic is over exact reals.
- Statistics.Stddev: the final `pvar**0.5` is symbolic (a `Root` holding its square). Comparisons with it are decided exactly in `Blinks.Reaches`.
- Statistics.Stddev: requires `ddof <= 1`. The source accepts any ddof, and ddof = n would divide by zero, but it only ever calls with 0.
- Slots.Filter: its own contract gives only the length bound; what it keeps is stated by `FilterMembership` and `FilterAppend`.
- `Blinks.Route`, `Blinks.Reaches`, `Statistics.Sum` and `DrowsyTracker.Cleared` have no contract of their own; the lemmas that cite the same lines state their properties.
- Blinks are stored in `blink_series` and in the calibration list as values: their start and end readings. `mark_end` runs once, before either store, and a stored blink is never changed again, so sharing the object makes no difference.
- `del calibration_blinks` (main.py:177) is modelled as emptying the list. The name is never read again once `CALIBRATING` is False.
- The `while True` loop is not modelled as such. `Step` is one pass, and `Valid()` is the invariant that carries over from pass to pass. After a `Raised` outcome the real script stops; the model only reports it.
- Window counters are unbounded ghost naturals. The source's pointers are bounded by the modulo; only the proofs use the counters.
