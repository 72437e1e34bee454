/** A pulse-counting water-flow sensor: an interrupt adds one to a counter for
    every falling edge, and a periodic sample turns the pulses counted over
    the last window into a flow rate (litres per minute) and a running total
    of litres. */
module FlowSensors {
  import opened Words

  /** Shortest sampling window, in milliseconds. */
  const WINDOW_MS: int := 1000

  /** What the four fields that the C++ constructor leaves unset hold when it
      returns: the model takes these values as given instead of assuming zero. */
  datatype PowerOnState = PowerOnState(pulseCount: U32, lastTime: U64, flowRate: real, totalLitres: real)

  /** Rate derived from `count` pulses seen over `elapsed` milliseconds: the
      pulse frequency in Hz divided by the calibration factor. */
  function SampleRate(count: U32, elapsed: nat, calibrationFactor: real): real
    requires elapsed > 0 && calibrationFactor != 0.0
  {
    (1000.0 / elapsed as real) * count as real / calibrationFactor
  }

  /** Litres that a rate in litres per minute delivers over `elapsed` milliseconds. */
  function VolumeIncrement(rate: real, elapsed: nat): real
  {
    (rate / 60.0) * (elapsed as real / 1000.0)
  }

  /** Pulses counted between two samples exactly one window apart give a rate
      of count / calibration factor. */
  lemma RateOverOneWindow(count: U32, calibrationFactor: real)
    requires calibrationFactor != 0.0
    ensures SampleRate(count, WINDOW_MS, calibrationFactor) == count as real / calibrationFactor
  {
  }

  /** With a positive calibration factor a sample never yields a negative
      rate, so the running total never decreases. */
  lemma SampleNonNegative(count: U32, elapsed: nat, calibrationFactor: real)
    requires elapsed > 0 && calibrationFactor > 0.0
    ensures SampleRate(count, elapsed, calibrationFactor) >= 0.0
    ensures VolumeIncrement(SampleRate(count, elapsed, calibrationFactor), elapsed) >= 0.0
  {
  }

  /** The volume a sample adds to the total depends only on the pulses it
      took, not on how long the window was: every pulse adds
      1 / (60 * calibration factor) litres, however the samples are spaced. */
  lemma VolumeCountsPulses(count: U32, elapsed: nat, calibrationFactor: real)
    requires elapsed > 0 && calibrationFactor != 0.0
    ensures VolumeIncrement(SampleRate(count, elapsed, calibrationFactor), elapsed)
            == count as real / (60.0 * calibrationFactor)
  {
  }

  class FlowSensor {
    const pin: U8
    const calibrationFactor: real
    var pulseCount: U32
    var lastTime: U64
    var flowRate: real
    var totalLitres: real

    /** Stores the pin and the calibration factor; the other four fields keep
        whatever `junk` says they held. */
    constructor (pin: U8, calibrationFactor: real, junk: PowerOnState)
      ensures this.pin == pin && this.calibrationFactor == calibrationFactor
      ensures pulseCount == junk.pulseCount && lastTime == junk.lastTime
      ensures flowRate == junk.flowRate && totalLitres == junk.totalLitres
    {
      this.pin := pin;
      this.calibrationFactor := calibrationFactor;
      pulseCount := junk.pulseCount;
      lastTime := junk.lastTime;
      flowRate := junk.flowRate;
      totalLitres := junk.totalLitres;
    }

    /** Interrupt handler: one more pulse, in 32-bit arithmetic; nothing else changes. */
    method HandlePulse()
      modifies this`pulseCount
      ensures pulseCount == Inc32(old(pulseCount))
    {
      pulseCount := Inc32(pulseCount);
    }

    /** Periodic sample at time `now` (milliseconds). Before a whole window
        has passed since the last sample it changes nothing; afterwards it
        takes the pulse count and zeroes it, derives the rate and adds the
        volume to the total, and starts the next window at `now`. */
    method Update(now: U64)
      requires calibrationFactor != 0.0
      modifies this`pulseCount, this`lastTime, this`flowRate, this`totalLitres
      ensures Sub64(now, old(lastTime)) < WINDOW_MS ==> unchanged(this)
      ensures Sub64(now, old(lastTime)) >= WINDOW_MS ==>
                && pulseCount == 0
                && lastTime == now
                && flowRate == SampleRate(old(pulseCount), Sub64(now, old(lastTime)), calibrationFactor)
                && totalLitres == old(totalLitres) + VolumeIncrement(flowRate, Sub64(now, old(lastTime)))
    {
      var elapsed := Sub64(now, lastTime);
      if elapsed >= WINDOW_MS {
        var count := pulseCount;
        pulseCount := 0;
        flowRate := SampleRate(count, elapsed, calibrationFactor);
        totalLitres := totalLitres + VolumeIncrement(flowRate, elapsed);
        lastTime := now;
      }
    }

    /** Current flow rate in litres per minute; reads only. */
    method GetFlowRate() returns (rate: real)
      ensures rate == flowRate
    {
      rate := flowRate;
    }

    /** Litres counted since power-on; reads only. */
    method GetTotalLitres() returns (total: real)
      ensures total == totalLitres
    {
      total := totalLitres;
    }
  }

  /** A sensor sampled once to open a window, then `n` pulses, then sampled
      again exactly one window later: the rate is n / calibration factor, the
      counter is back to zero, and the total grew by n / (60 * factor). */
  method PulsesOverOneWindow(pin: U8, calibrationFactor: real, junk: PowerOnState, start: U64, n: nat)
    returns (rate: real, remaining: U32, added: real)
    requires calibrationFactor != 0.0
    requires Sub64(start, junk.lastTime) >= WINDOW_MS
    requires start + WINDOW_MS < U64_LIMIT
    requires n < U32_LIMIT
    ensures rate == n as real / calibrationFactor
    ensures remaining == 0
    ensures added == n as real / (60.0 * calibrationFactor)
  {
    var s := new FlowSensor(pin, calibrationFactor, junk);
    s.Update(start);
    var before := s.GetTotalLitres();
    for i := 0 to n
      invariant s.pulseCount == i
      invariant s.lastTime == start && s.totalLitres == before
    {
      s.HandlePulse();
    }
    s.Update(start + WINDOW_MS);
    RateOverOneWindow(n, calibrationFactor);
    VolumeCountsPulses(n, WINDOW_MS, calibrationFactor);
    rate := s.GetFlowRate();
    remaining := s.pulseCount;
    var after := s.GetTotalLitres();
    added := after - before;
  }
}
