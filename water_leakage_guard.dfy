/** Leak detection along a pipe run. Sensors are registered in physical
    order, sensor 0 upstream. The scan compares every sensor with sensor 0
    (the anchor), walking from the most downstream sensor towards the anchor,
    and reports where the imbalance starts. */
module LeakGuard {
  import opened Words
  import opened FlowSensors

  /** Calibration factor of every sensor the guard registers. */
  const CALIBRATION_FACTOR: real := 7.5
  /** Largest flow-rate difference that still counts as balanced. */
  const LEAK_THRESHOLD: real := 10.0
  /** What the scan returns when fewer than two sensors are registered. */
  const NOT_ENOUGH_SENSORS: int := -1

  /** Two one-sided comparisons: the second rate is more than the threshold
      above the first, or the first is more than the threshold above the second. */
  predicate IsLeaked(first: real, second: real)
  {
    second - LEAK_THRESHOLD > first || first > second + LEAK_THRESHOLD
  }

  function Abs(x: real): real
  {
    if x < 0.0 then -x else x
  }

  /** The directional test is the symmetric absolute-difference test. */
  lemma IsLeakedIsDistance(first: real, second: real)
    ensures IsLeaked(first, second) <==> Abs(first - second) > LEAK_THRESHOLD
    ensures IsLeaked(first, second) == IsLeaked(second, first)
    ensures !IsLeaked(first, first)
  {
  }

  /** Index at which the walk that starts at `i` and moves towards the anchor
      stops: the first index at or below `i` whose rate is not leaked against
      the anchor, or the anchor itself. */
  function StopIndex(rates: seq<real>, i: nat): (k: nat)
    requires i < |rates|
    ensures k <= i
    ensures k == 0 || !IsLeaked(rates[0], rates[k])
    ensures forall j :: k < j <= i ==> IsLeaked(rates[0], rates[j])
    decreases i
  {
    if i == 0 || !IsLeaked(rates[0], rates[i]) then i else StopIndex(rates, i - 1)
  }

  /** Result of the scan over the sensors' current rates: -1 with fewer than
      two sensors; otherwise 0 when the last sensor balances the anchor, else
      one more than the stop index. The start index is `uint8_t` and the
      result is `int8_t`, so both wrap with more than 128 sensors. */
  function MonitorResult(rates: seq<real>): int
  {
    if |rates| < 2 then NOT_ENOUGH_SENSORS
    else
      var last := |rates| - 1;
      var k := StopIndex(rates, last % U8_LIMIT);
      ToInt8(if k == last then 0 else k + 1)
  }

  /** `r` bounds the leaking segment: every sensor from `r` to the last is
      leaked against the anchor, and sensor r - 1 is the anchor or balanced
      with it. */
  ghost predicate SegmentBoundary(rates: seq<real>, r: int)
  {
    && 0 < r < |rates|
    && (forall j :: r <= j < |rates| ==> IsLeaked(rates[0], rates[j]))
    && (r == 1 || !IsLeaked(rates[0], rates[r - 1]))
  }

  /** What the scan reports, for up to 128 sensors: -1 exactly when fewer
      than two are registered; otherwise a value in [0, n - 1] that is 0
      exactly when the last sensor balances the anchor, and a segment
      boundary otherwise. */
  lemma MonitorSpecified(rates: seq<real>)
    requires |rates| <= 128
    ensures MonitorResult(rates) == NOT_ENOUGH_SENSORS <==> |rates| < 2
    ensures |rates| >= 2 ==> 0 <= MonitorResult(rates) < |rates|
    ensures |rates| >= 2 ==> (MonitorResult(rates) == 0 <==> !IsLeaked(rates[0], rates[|rates| - 1]))
    ensures |rates| >= 2 && MonitorResult(rates) != 0 ==> SegmentBoundary(rates, MonitorResult(rates))
  {
  }

  /** A segment boundary is unique: together with MonitorSpecified this pins
      the nonzero scan result down as the one index that bounds the segment. */
  lemma SegmentBoundaryUnique(rates: seq<real>, r1: int, r2: int)
    requires SegmentBoundary(rates, r1) && SegmentBoundary(rates, r2)
    ensures r1 == r2
  {
  }

  /** Any segment boundary is what the scan reports. */
  lemma MonitorFindsBoundary(rates: seq<real>, r: int)
    requires |rates| <= 128
    requires SegmentBoundary(rates, r)
    ensures MonitorResult(rates) == r
  {
    MonitorSpecified(rates);
    assert IsLeaked(rates[0], rates[|rates| - 1]);
    SegmentBoundaryUnique(rates, r, MonitorResult(rates));
  }

  /** Three sensors at 10, 10, 10 report no leak; at 10, 10, 25 they report
      the segment ending at sensor 2; one sensor reports the sentinel. */
  lemma MonitorExamples()
    ensures MonitorResult([10.0, 10.0, 10.0]) == 0
    ensures MonitorResult([10.0, 10.0, 25.0]) == 2
    ensures MonitorResult([10.0]) == NOT_ENOUGH_SENSORS
  {
  }

  class WaterLeakageGuard {
    var sensors: seq<FlowSensor>

    constructor ()
      ensures sensors == []
    {
      sensors := [];
    }

    /** Current flow rates of the registered sensors, in registration order. */
    function Rates(): (rates: seq<real>)
      reads this, sensors
      ensures |rates| == |sensors|
      ensures forall i :: 0 <= i < |sensors| ==> rates[i] == sensors[i].flowRate
    {
      seq(|sensors|, i reads this, sensors requires 0 <= i < |sensors| => sensors[i].flowRate)
    }

    /** Appends one new sensor on `sensorPin` with calibration factor 7.5,
        whose other fields hold the power-on values `junk`; the sensors
        registered before, and their rates, stay as they were. */
    method AddSensor(sensorPin: U8, junk: PowerOnState)
      modifies this`sensors
      ensures |sensors| == |old(sensors)| + 1
      ensures sensors[..|old(sensors)|] == old(sensors)
      ensures Rates()[..|old(sensors)|] == old(Rates())
      ensures fresh(sensors[|old(sensors)|])
      ensures sensors[|old(sensors)|].pin == sensorPin
      ensures sensors[|old(sensors)|].calibrationFactor == CALIBRATION_FACTOR
      ensures sensors[|old(sensors)|].pulseCount == junk.pulseCount
      ensures sensors[|old(sensors)|].lastTime == junk.lastTime
      ensures sensors[|old(sensors)|].flowRate == junk.flowRate
      ensures sensors[|old(sensors)|].totalLitres == junk.totalLitres
    {
      var sensor := new FlowSensor(sensorPin, CALIBRATION_FACTOR, junk);
      sensors := sensors + [sensor];
    }

    /** The downstream-to-anchor scan. It reads the sensors and changes
        nothing; its result is MonitorResult of the current rates. */
    method Monitor() returns (r: int)
      ensures r == MonitorResult(Rates())
    {
      if |sensors| < 2 {
        return NOT_ENOUGH_SENSORS;
      }
      ghost var rates := Rates();
      var last := |sensors| - 1;
      var index: U8 := last % U8_LIMIT;
      while IsLeaked(sensors[0].flowRate, sensors[index].flowRate)
        invariant index <= last
        invariant StopIndex(rates, index) == StopIndex(rates, last % U8_LIMIT)
        decreases index
      {
        index := index - 1;
        if index <= 0 {
          break;
        }
      }
      r := ToInt8(if index == last then 0 else index + 1);
    }
  }
}
