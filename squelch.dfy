/** The squelch gate of `AudioDemodulator` (waverider_common.py): an
    exponentially smoothed power estimate and an open/closed decision with
    hysteresis. The block's power in dB (`10·log10(mean |x|^2 + 1e-10)`) is an
    input here; the logarithm itself is not part of this model. */
module Squelch {
  import opened Util

  const MinSquelchDb: real := -100.0
  const MaxSquelchDb: real := 0.0

  /** What `detect_signal` carries from one block to the next. */
  datatype GateState = GateState(smoothedPower: real, lastSignalDetected: bool)

  /** Exponential smoothing with factor `alpha`. */
  function Smooth(alpha: real, powerDb: real, prev: real): real
  {
    alpha * powerDb + (1.0 - alpha) * prev
  }

  /** With a factor in [0, 1] the new estimate lies between the previous
      estimate and the new block's power: smoothing never overshoots. */
  lemma SmoothBetween(alpha: real, powerDb: real, prev: real)
    requires 0.0 <= alpha <= 1.0
    ensures powerDb <= prev ==> powerDb <= Smooth(alpha, powerDb, prev) <= prev
    ensures prev <= powerDb ==> prev <= Smooth(alpha, powerDb, prev) <= powerDb
  {
    var s := Smooth(alpha, powerDb, prev);
    assert s - prev == alpha * (powerDb - prev);
    assert powerDb - s == (1.0 - alpha) * (powerDb - prev);
    if powerDb <= prev {
      ProductNonNegative(alpha, prev - powerDb);
      ProductNonNegative(1.0 - alpha, prev - powerDb);
      assert alpha * (prev - powerDb) == -(alpha * (powerDb - prev));
      assert (1.0 - alpha) * (prev - powerDb) == -((1.0 - alpha) * (powerDb - prev));
    } else {
      ProductNonNegative(alpha, powerDb - prev);
      ProductNonNegative(1.0 - alpha, powerDb - prev);
    }
  }

  /** The gate decision. A disabled squelch always passes the signal. An
      enabled one compares the smoothed power strictly against the threshold
      when it was closed and against `threshold - hysteresis` when it was
      open, so that with a non-negative hysteresis: above the threshold the
      gate is open, at or below the lower threshold it is closed, and in the
      band between it keeps its previous decision. */
  function Decide(enabled: bool, threshold: real, hysteresis: real, wasOpen: bool, smoothed: real): (open: bool)
    ensures !enabled ==> open
    ensures enabled && hysteresis >= 0.0 && smoothed > threshold ==> open
    ensures enabled && hysteresis >= 0.0 && smoothed <= threshold - hysteresis ==> !open
    ensures enabled && threshold - hysteresis < smoothed <= threshold ==> open == wasOpen
  {
    if enabled then
      var limit := if wasOpen then threshold - hysteresis else threshold;
      smoothed > limit
    else
      true
  }

  /** One evaluation of the gate on a block of power `powerDb`: the smoothed
      estimate is updated whether or not the squelch is enabled, and the new
      decision is remembered as the last one. */
  function Detect(enabled: bool, threshold: real, hysteresis: real, alpha: real, s: GateState, powerDb: real): (t: GateState)
    ensures t.smoothedPower == Smooth(alpha, powerDb, s.smoothedPower)
    ensures t.lastSignalDetected == Decide(enabled, threshold, hysteresis, s.lastSignalDetected, t.smoothedPower)
  {
    var smoothed := Smooth(alpha, powerDb, s.smoothedPower);
    GateState(smoothed, Decide(enabled, threshold, hysteresis, s.lastSignalDetected, smoothed))
  }

  /** The decisions of the gate over a stream of block powers. */
  function Run(enabled: bool, threshold: real, hysteresis: real, alpha: real, s: GateState, powers: seq<real>): (d: seq<bool>)
    ensures |d| == |powers|
    decreases |powers|
  {
    if powers == [] then []
    else
      var t := Detect(enabled, threshold, hysteresis, alpha, s, powers[0]);
      [t.lastSignalDetected] + Run(enabled, threshold, hysteresis, alpha, t, powers[1..])
  }

  /** An open gate whose estimate is above the lower threshold stays open for
      as long as every block's power is above the lower threshold. */
  lemma {:induction false} StaysOpen(threshold: real, hysteresis: real, alpha: real, s: GateState, powers: seq<real>)
    requires 0.0 <= alpha <= 1.0
    requires s.lastSignalDetected && s.smoothedPower > threshold - hysteresis
    requires forall i :: 0 <= i < |powers| ==> powers[i] > threshold - hysteresis
    ensures forall i :: 0 <= i < |powers| ==> Run(true, threshold, hysteresis, alpha, s, powers)[i]
    decreases |powers|
  {
    if powers != [] {
      var t := Detect(true, threshold, hysteresis, alpha, s, powers[0]);
      SmoothBetween(alpha, powers[0], s.smoothedPower);
      StaysOpen(threshold, hysteresis, alpha, t, powers[1..]);
      var d := Run(true, threshold, hysteresis, alpha, s, powers);
      assert d == [t.lastSignalDetected] + Run(true, threshold, hysteresis, alpha, t, powers[1..]);
    }
  }

  /** A closed gate whose estimate is at or below the threshold stays closed
      for as long as every block's power is at or below the threshold. */
  lemma {:induction false} StaysClosed(threshold: real, hysteresis: real, alpha: real, s: GateState, powers: seq<real>)
    requires 0.0 <= alpha <= 1.0
    requires !s.lastSignalDetected && s.smoothedPower <= threshold
    requires forall i :: 0 <= i < |powers| ==> powers[i] <= threshold
    ensures forall i :: 0 <= i < |powers| ==> !Run(true, threshold, hysteresis, alpha, s, powers)[i]
    decreases |powers|
  {
    if powers != [] {
      var t := Detect(true, threshold, hysteresis, alpha, s, powers[0]);
      SmoothBetween(alpha, powers[0], s.smoothedPower);
      StaysClosed(threshold, hysteresis, alpha, t, powers[1..]);
      var d := Run(true, threshold, hysteresis, alpha, s, powers);
      assert d == [t.lastSignalDetected] + Run(true, threshold, hysteresis, alpha, t, powers[1..]);
    }
  }

  /** No chatter: when the block power stays inside the hysteresis band
      (above `threshold - hysteresis`, at most `threshold`), every decision of
      an enabled gate equals its first one, whatever state the gate starts in. */
  lemma {:induction false} NoChatterInBand(threshold: real, hysteresis: real, alpha: real, s: GateState, powers: seq<real>)
    requires 0.0 <= alpha <= 1.0
    requires forall i :: 0 <= i < |powers| ==> threshold - hysteresis < powers[i] <= threshold
    ensures forall i :: 0 <= i < |powers| ==>
      Run(true, threshold, hysteresis, alpha, s, powers)[i] == Run(true, threshold, hysteresis, alpha, s, powers)[0]
  {
    if powers != [] {
      var t := Detect(true, threshold, hysteresis, alpha, s, powers[0]);
      var rest := powers[1..];
      assert forall i :: 0 <= i < |rest| ==> rest[i] == powers[i + 1];
      var d := Run(true, threshold, hysteresis, alpha, s, powers);
      assert d == [t.lastSignalDetected] + Run(true, threshold, hysteresis, alpha, t, rest);
      if t.lastSignalDetected {
        StaysOpen(threshold, hysteresis, alpha, t, rest);
      } else {
        StaysClosed(threshold, hysteresis, alpha, t, rest);
      }
    }
  }

  class AudioDemodulator {
    const sampleRate: real
    const audioRate: real
    const cutoffFreq: real
    /** `int(sample_rate / audio_rate)`. */
    const decimation: int
    var squelchThreshold: real
    var squelchEnabled: bool
    /** Smoothing factor of the power estimate. */
    const squelchAlpha: real := 0.1
    var smoothedPower: real
    var lastSignalDetected: bool
    /** dB by which an open gate's threshold is lowered. */
    const squelchHysteresis: real := 3.0

    /** The squelch's state as a value. */
    function Gate(): GateState
      reads this
    {
      GateState(smoothedPower, lastSignalDetected)
    }

    constructor (sampleRate: real := 2400000.0, audioRate: real := 48000.0,
                 cutoffFreq: real := 15000.0, squelchThreshold: real := -50.0)
      requires audioRate != 0.0
      ensures this.sampleRate == sampleRate && this.audioRate == audioRate && this.cutoffFreq == cutoffFreq
      ensures decimation == Trunc(sampleRate / audioRate)
      ensures this.squelchThreshold == squelchThreshold && squelchEnabled
      ensures smoothedPower == -100.0 && !lastSignalDetected
    {
      this.sampleRate := sampleRate;
      this.audioRate := audioRate;
      this.cutoffFreq := cutoffFreq;
      decimation := Trunc(sampleRate / audioRate);
      this.squelchThreshold := squelchThreshold;
      squelchEnabled := true;
      smoothedPower := -100.0;
      lastSignalDetected := false;
    }

    /** Evaluates the gate on one block whose power is `powerDb`: the estimate
        becomes `0.1·powerDb + 0.9·previous` in every case, the decision follows
        `Decide`, and the decision is stored as the last one. */
    method DetectSignal(powerDb: real) returns (detected: bool)
      modifies this`smoothedPower, this`lastSignalDetected
      ensures smoothedPower == 0.1 * powerDb + 0.9 * old(smoothedPower)
      ensures Gate() == Detect(squelchEnabled, squelchThreshold, squelchHysteresis, squelchAlpha, old(Gate()), powerDb)
      ensures !squelchEnabled ==> detected
      ensures squelchEnabled && old(lastSignalDetected) ==> (detected <==> smoothedPower > squelchThreshold - 3.0)
      ensures squelchEnabled && !old(lastSignalDetected) ==> (detected <==> smoothedPower > squelchThreshold)
      ensures lastSignalDetected == detected
    {
      smoothedPower := squelchAlpha * powerDb + (1.0 - squelchAlpha) * smoothedPower;
      if squelchEnabled {
        var threshold;
        if lastSignalDetected {
          threshold := squelchThreshold - squelchHysteresis;
        } else {
          threshold := squelchThreshold;
        }
        detected := smoothedPower > threshold;
      } else {
        detected := true;
      }
      lastSignalDetected := detected;
    }

    /** Sets the threshold, clamped to [-100, 0] dB. */
    method SetSquelch(thresholdDb: real)
      modifies this`squelchThreshold
      ensures squelchThreshold == Clip(thresholdDb, MinSquelchDb, MaxSquelchDb)
      ensures MinSquelchDb <= squelchThreshold <= MaxSquelchDb
      ensures MinSquelchDb <= thresholdDb <= MaxSquelchDb ==> squelchThreshold == thresholdDb
    {
      squelchThreshold := Clip(thresholdDb, MinSquelchDb, MaxSquelchDb);
    }

    method EnableSquelch(enabled: bool)
      modifies this`squelchEnabled
      ensures squelchEnabled == enabled
    {
      squelchEnabled := enabled;
    }

    /** The current smoothed power estimate, in dB. */
    function GetSignalStrength(): (r: real)
      reads this
      ensures r == Gate().smoothedPower
    {
      smoothedPower
    }
  }
}
